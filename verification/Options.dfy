/** The optional value, the machine integers and the small notions the modules share. */
module Options {
  datatype Option<+T> = None | Some(value: T)

  type Octet = b: int | 0 <= b < 256

  /** The sizes of a chunk: its span, its content, both, and its address. */
  const SpanSize := 8
  const ChunkSize := 4096
  const ChunkWithSpanSize := SpanSize + ChunkSize
  const HashSize := 32

  /** One past the greatest 64-bit unsigned integer, and that integer. */
  const WordSize := 0x1_0000_0000_0000_0000
  const MaxWord := 0xffff_ffff_ffff_ffff

  type Word = n: nat | n <= MaxWord

  function Min(a: nat, b: nat): nat { if a <= b then a else b }

  function Max(a: nat, b: nat): nat { if a <= b then b else a }

  function SaturatingAdd(a: nat, b: nat): Word { if a + b > MaxWord then MaxWord else a + b }

  function SaturatingSub(a: nat, b: nat): nat { if a >= b then a - b else 0 }

  function TwoToThe(k: nat): (r: nat)
    ensures r >= 1
  {
    if k == 0 then 1 else 2 * TwoToThe(k - 1)
  }

  ghost predicate NoRepeats<T>(s: seq<T>) {
    forall i, j :: 0 <= i < j < |s| ==> s[i] != s[j]
  }
}
