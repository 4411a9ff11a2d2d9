/** What the modules share. */
module Common {
  datatype Option<T> = None | Some(value: T)

  newtype Byte = x: int | 0 <= x < 256

  type Bytes = seq<Byte>

  /** A 32-bit word as it lies in memory, lowest byte first. */
  function Word(x: nat): (r: Bytes)
    ensures |r| == 4
  {
    [(x % 0x100) as Byte, (x / 0x100 % 0x100) as Byte, (x / 0x1_0000 % 0x100) as Byte, (x / 0x100_0000 % 0x100) as Byte]
  }

  /** The word that four bytes hold. */
  function Value(b: Bytes): nat
    requires |b| == 4
  {
    b[0] as nat + 0x100 * (b[1] as nat) + 0x1_0000 * (b[2] as nat) + 0x100_0000 * (b[3] as nat)
  }

  lemma ValueOfWord(x: nat)
    requires x < 0x1_0000_0000
    ensures Value(Word(x)) == x
  {
  }

  lemma Digit(high: nat, low: nat)
    requires low < 0x100
    ensures (low + 0x100 * high) % 0x100 == low && (low + 0x100 * high) / 0x100 == high
  {
  }

  lemma WordOfValue(b: Bytes)
    requires |b| == 4
    ensures Value(b) < 0x1_0000_0000 && Word(Value(b)) == b
  {
    var b0, b1, b2, b3 := b[0] as nat, b[1] as nat, b[2] as nat, b[3] as nat;
    var x2 := b2 + 0x100 * b3;
    var x1 := b1 + 0x100 * x2;
    var x := b0 + 0x100 * x1;
    assert Value(b) == x;
    Digit(x1, b0);
    Digit(x2, b1);
    Digit(b3, b2);
    assert x / 0x1_0000 == x1 / 0x100 && x / 0x100_0000 == x2 / 0x100;
  }
}
