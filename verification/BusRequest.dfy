/** Bus transactions (BusRequest.cpp) and jobs (CacheJob.cpp). */
module Requests {
  import opened Bits
  import opened Constants

  datatype Job = Job(rW: char, address: nat, threadId: nat)

  predicate IsRead(job: Job) { job.rW == 'R' }

  predicate IsWrite(job: Job) { job.rW == 'W' }

  datatype Command = BusRd | BusRdX

  datatype Request = Request(command: Command, lineSet: nat, lineTag: int, cycleCost: int, address: nat,
                             sharedLine: bool)

  /** A request is built from an `unsigned long` tag and an `unsigned long long` cost, each stored in an `int`. */
  function ToInt(x: int): int {
    var low := x % 0x1_0000_0000;
    if low < 0x8000_0000 then low else low - 0x1_0000_0000
  }

  /** An `int` handed to an `unsigned long` parameter. */
  function ToUnsignedLong(x: int): nat {
    x % 0x1_0000_0000_0000_0000
  }

  /** The tag the snooping caches look up, for a request about block `block`. */
  function SnoopedTag(block: nat): nat {
    ToUnsignedLong(ToInt(block))
  }

  /** The requests about such a block are about that block for everybody who snoops them. */
  predicate Fits(block: nat) {
    SnoopedTag(block) == block
  }

  lemma FitsExactly(block: nat)
    ensures Fits(block) <==> block < 0x8000_0000 || 0xFFFF_FFFF_8000_0000 <= block < 0x1_0000_0000_0000_0000
  {
    if 0x8000_0000 <= block < 0x1_0000_0000_0000_0000 && Fits(block) {
      assert block == ToInt(block) || block == ToInt(block) + 0x1_0000_0000_0000_0000;
    }
  }

  lemma SnoopedTagFits(block: nat)
    ensures Fits(SnoopedTag(block))
  {
  }

  /** Another block, requests about which everybody takes for requests about this one. */
  function AliasOf(block: nat): (alias: nat)
    requires Fits(block)
    ensures SnoopedTag(alias) == block && alias != block
  {
    FitsExactly(block);
    if block < 0x8000_0000 then block + 0x1_0000_0000 else block % 0x1_0000_0000
  }

  /** Snoopers search the set of the request, which is also the set of the tag they search for. */
  lemma SnoopedTagStaysInSet(cfg: Config, block: nat)
    requires ValidConfig(cfg)
    ensures SetOf(cfg, SnoopedTag(block)) == SetOf(cfg, block)
  {
    var low := block % 0x1_0000_0000;
    SetIgnoresHighWord(cfg, low, block / 0x1_0000_0000);
    SetIgnoresHighWord(cfg, low, 0xFFFF_FFFF);
    assert SnoopedTag(block) == low || SnoopedTag(block) == low + 0xFFFF_FFFF * 0x1_0000_0000;
  }

  lemma SetIgnoresHighWord(cfg: Config, low: nat, high: nat)
    requires ValidConfig(cfg)
    ensures SetOf(cfg, low + high * 0x1_0000_0000) == SetOf(cfg, low)
  {
    hide Pow2, LowBits;
    var k := cfg.numSetBits;
    Pow2Of32();
    Pow2Splits(32 - k, k);
    ProductRegroups(high, Pow2(32 - k), Pow2(k));
    LowBitsOfSum(low, high * Pow2(32 - k), k);
  }

  lemma ProductRegroups(a: int, b: int, c: int)
    ensures a * (b * c) == (a * b) * c
  {
  }

  class BusRequest {
    const command: Command
    const lineSet: nat
    const lineTag: int
    const cycleCost: int
    const address: nat
    var sharedLine: bool

    ghost function View(): Request
      reads this
    {
      Request(command, lineSet, lineTag, cycleCost, address, sharedLine)
    }

    constructor (command: Command, whichSet: nat, tag: nat, jobCycleCost: int, address: nat)
      ensures View() == Request(command, whichSet, ToInt(tag), ToInt(jobCycleCost), address, false)
    {
      this.command := command;
      lineSet := whichSet;
      lineTag := ToInt(tag);
      cycleCost := ToInt(jobCycleCost);
      this.address := address;
      sharedLine := false;
    }

    /** Sticky: nothing ever clears the flag. */
    method SetSharedLine()
      modifies this
      ensures View() == old(View()).(sharedLine := true)
    {
      sharedLine := true;
    }
  }
}
