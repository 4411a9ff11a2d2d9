/** The arithmetic of a byte ring whose two counters are free-running `uint32_t`. */
module PipeCells {
  import opened Common

  newtype U32 = x: int | 0 <= x < 0x1_0000_0000

  const WORDS: int := 0x1_0000_0000

  /** `uint32_t` addition and subtraction. */
  function Add32(a: U32, n: int): U32 { ((a as int + n) % 0x1_0000_0000) as U32 }

  function Sub32(a: U32, b: U32): int { (a as int - b as int) % 0x1_0000_0000 }

  /** The counter after `n` bytes. */
  function Count(n: nat): U32 { (n % 0x1_0000_0000) as U32 }

  /** The cell `offset` places after cell `index`. */
  function Cell(size: nat, index: nat, offset: nat): (c: nat)
    requires index < size && offset <= size
    ensures c < size
  {
    if index + offset < size then index + offset else index + offset - size
  }

  /** Two counters less than 2^32 apart give their true distance, however often either has wrapped. */
  lemma CountDistance(a: nat, b: nat)
    requires b <= a < b + WORDS
    ensures Sub32(Count(a), Count(b)) == a - b
  {
  }

  lemma CountAdvance(a: nat, n: nat)
    ensures Add32(Count(a), n) == Count(a + n)
  {
  }

  lemma CellAdvance(size: nat, index: nat, n: nat, offset: nat)
    requires index < size && n + offset <= size
    ensures Cell(size, Cell(size, index, n), offset) == Cell(size, index, n + offset)
  {
  }

  lemma CellInjective(size: nat, index: nat, i: nat, j: nat)
    requires index < size && i < size && j < size
    ensures Cell(size, index, i) == Cell(size, index, j) <==> i == j
  {
  }

  /** The cells from `index` on hold `bytes`. */
  ghost predicate Holds(cells: seq<Byte>, index: nat, bytes: seq<Byte>) {
    && index < |cells| && |bytes| <= |cells|
    && forall i :: 0 <= i < |bytes| ==> cells[Cell(|cells|, index, i)] == bytes[i]
  }
}
