/** The simulator's fixed parameters (CacheConstants.cpp): protocol, latencies, cache geometry,
    and the bit arithmetic that turns an address into a block number and a set index. */
module Constants {
  import opened Bits

  datatype Protocol = MSI | MESI | DRAGON | MOESI

  const CACHE_HIT_COST := 2
  const MEMORY_COST := 90
  const PEER_COST := 60

  /** The `unsigned long long` sum of a word and a signed number: below zero it turns into a huge number. (Above
      the top of the type the sum is left as it is: that would take a clock that has come so far.) */
  function UnsignedSum(x: nat, y: int): nat {
    if x + y < 0 then (x + y) % 0x1_0000_0000_0000_0000 else x + y
  }

  /** `unset(cycle)` is whatever the uninitialised local of `getTotalMemoryCost` holds when it is
      returned at that cycle, a 64-bit word, read as a signed one; the source leaves it unset for MOESI only. */
  datatype Config = Config(protocol: Protocol, numProcessors: nat, numSets: nat, numLinesInSet: nat,
                           numBytesBits: nat, numSetBits: nat, unset: nat -> int)

  predicate Fits64(x: int) {
    -0x8000_0000_0000_0000 <= x < 0x8000_0000_0000_0000
  }

  /** What the constructor establishes for any size >= assoc * lineSize > 0 below 2^31. */
  ghost predicate ValidConfig(cfg: Config) {
    && 0 < cfg.numLinesInSet
    && cfg.numSetBits <= 30
    && Pow2(cfg.numSetBits) <= cfg.numSets < Pow2(cfg.numSetBits + 1)
    && (forall cycle: nat :: Fits64(cfg.unset(cycle)))
  }

  /** The address without its offset bits: the block number, which the program uses as tag. */
  function BlockOf(cfg: Config, address: nat): nat {
    ShiftRight(address, cfg.numBytesBits)
  }

  /** The set a block lives in: its low `numSetBits` bits. */
  function SetOf(cfg: Config, block: nat): nat {
    LowBits(block, cfg.numSetBits)
  }

  lemma SetInRange(cfg: Config, block: nat)
    requires ValidConfig(cfg)
    ensures SetOf(cfg, block) < cfg.numSets
  {
    LowBitsRemain(block, cfg.numSetBits);
  }

  lemma DecodeIsDivision(cfg: Config, address: nat)
    ensures BlockOf(cfg, address) == address / Pow2(cfg.numBytesBits)
    ensures SetOf(cfg, BlockOf(cfg, address)) == BlockOf(cfg, address) % Pow2(cfg.numSetBits)
  {
    var block := BlockOf(cfg, address);
    LowBitsRemain(address, cfg.numBytesBits);
    DivisionIsUnique(address, Pow2(cfg.numBytesBits), block, LowBits(address, cfg.numBytesBits));
    LowBitsRemain(block, cfg.numSetBits);
    DivisionIsUnique(block, Pow2(cfg.numSetBits), ShiftRight(block, cfg.numSetBits), SetOf(cfg, block));
  }

  ghost predicate InAlignedChunk(cfg: Config, k: nat, address: nat) {
    k * Pow2(cfg.numBytesBits) <= address < (k + 1) * Pow2(cfg.numBytesBits)
  }

  lemma AddressIsInItsBlock(cfg: Config, k: nat, address: nat)
    ensures InAlignedChunk(cfg, k, address) <==> BlockOf(cfg, address) == k
  {
    var p := Pow2(cfg.numBytesBits);
    LowBitsRemain(address, cfg.numBytesBits);
    assert (k + 1) * p == k * p + p;
    if InAlignedChunk(cfg, k, address) {
      OneQuotient(p, k, address - k * p, BlockOf(cfg, address), LowBits(address, cfg.numBytesBits));
    }
  }

  /** The first address of a block. */
  function AddressOf(cfg: Config, block: nat): (address: nat)
    ensures BlockOf(cfg, address) == block
  {
    var p := Pow2(cfg.numBytesBits);
    assert (block + 1) * p == block * p + p;
    AddressIsInItsBlock(cfg, block, block * p);
    block * p
  }

  /** Two addresses decode alike exactly when they lie in the same aligned 2^numBytesBits-byte
      chunk of memory. */
  lemma DecodeIsBlockwise(cfg: Config, a: nat, b: nat)
    ensures BlockOf(cfg, a) == BlockOf(cfg, b) <==>
            exists k: nat :: InAlignedChunk(cfg, k, a) && InAlignedChunk(cfg, k, b)
  {
    AddressIsInItsBlock(cfg, BlockOf(cfg, a), a);
    AddressIsInItsBlock(cfg, BlockOf(cfg, a), b);
    forall k: nat | InAlignedChunk(cfg, k, a) && InAlignedChunk(cfg, k, b)
      ensures BlockOf(cfg, a) == BlockOf(cfg, b)
    {
      AddressIsInItsBlock(cfg, k, a);
      AddressIsInItsBlock(cfg, k, b);
    }
  }

  /** The constructor's loop: shift in one set bit per index bit. */
  method BuildMask(numSetBits: nat) returns (mask: nat)
    ensures mask == Pow2(numSetBits) - 1
  {
    mask := 0;
    var i := 0;
    while i < numSetBits
      invariant 0 <= i <= numSetBits
      invariant mask == Pow2(i) - 1
    {
      mask := 2 * mask;
      OrOneOnEven(mask);
      mask := BitOr(mask, 1);
      i := i + 1;
    }
  }

  /** The parameters that the command line fixes. */
  function ConfigOf(size: nat, assoc: nat, lineSize: nat, processors: nat, pro: int, unset: nat -> int): Config
    requires 0 < assoc && 0 < lineSize && assoc * lineSize <= size
  {
    PositiveProduct(assoc, lineSize);
    QuotientInRange(size, assoc * lineSize);
    var protocol := if pro == 0 then MSI else if pro == 1 then MESI else if pro == 2 then DRAGON else MOESI;
    var numSets := Quotient(size, assoc * lineSize);
    Config(protocol, processors, numSets, assoc, FloorLog2(lineSize), FloorLog2(numSets), unset)
  }

  /** The parameters and clock as the program holds them. */
  class CacheConstants {
    const cfg: Config
    const tagMask: nat
    var cycles: nat

    ghost predicate Valid() {
      ValidConfig(cfg) && tagMask == Pow2(cfg.numSetBits) - 1
    }

    /** `size`, `assoc` and `lineSize` come from the command line; the program has no defined
        behaviour for a cache smaller than one set. */
    constructor (size: nat, assoc: nat, lineSize: nat, processors: nat, pro: int, unset: nat -> int)
      requires 0 < assoc && 0 < lineSize && assoc * lineSize <= size < 0x8000_0000
      requires forall cycle: nat :: Fits64(unset(cycle))
      ensures Valid() && cfg == ConfigOf(size, assoc, lineSize, processors, pro, unset)
      ensures cfg.protocol == (if pro == 0 then MSI else if pro == 1 then MESI else if pro == 2 then DRAGON else MOESI)
      ensures cfg.numProcessors == processors && cfg.numLinesInSet == assoc && cfg.unset == unset
      ensures Pow2(cfg.numBytesBits) <= lineSize < Pow2(cfg.numBytesBits + 1)
      ensures cfg.numSets * (assoc * lineSize) <= size < (cfg.numSets + 1) * (assoc * lineSize)
      ensures cycles == 0
    {
      var protocol := if pro == 0 then MSI else if pro == 1 then MESI else if pro == 2 then DRAGON else MOESI;
      PositiveProduct(assoc, lineSize);
      var tempVal := assoc * lineSize;
      QuotientInRange(size, tempVal);
      var numSets := Quotient(size, tempVal);
      var numSetBits := FloorLog2(numSets);
      FloorLog2Bounds(numSets);
      FloorLog2Bounds(lineSize);
      FloorLog2Small(numSets);
      var mask := BuildMask(numSetBits);
      cfg := Config(protocol, processors, numSets, assoc, FloorLog2(lineSize), numSetBits, unset);
      tagMask := mask;
      cycles := 0;
    }

    /** `Cache::decode_address`: shift off the offset, mask out the set. */
    method DecodeAddress(address: nat) returns (whichSet: nat, tag: nat)
      requires Valid()
      ensures tag == BlockOf(cfg, address) && whichSet == SetOf(cfg, tag) && whichSet < cfg.numSets
    {
      tag := ShiftRight(address, cfg.numBytesBits);
      whichSet := BitAnd(ShiftRight(address, cfg.numBytesBits), tagMask);
      AndWithMask(tag, cfg.numSetBits);
      SetInRange(cfg, tag);
    }

    method Tick()
      modifies this`cycles
      ensures cycles == old(cycles) + 1
    {
      cycles := cycles + 1;
    }
  }
}
