/** What every other module shares: results, bytes and little endian words. */
module Basics {

  datatype Option<+T> = None | Some(value: T)

  /** The kinds of failure this model needs to tell apart. */
  datatype ErrorCode =
    IO | NotFound | Busy | Protocol | TargetUnknown | TargetRefused | NotSupported | InvalidArgument

  datatype Result<+T> = Ok(value: T) | Err(code: ErrorCode)

  /** An outcome with nothing to carry. */
  type VoidResult = Result<()>

  const DONE: VoidResult := Ok(())

  type byte = x: int | 0 <= x < 0x100
  type half = x: int | 0 <= x < 0x1_0000
  type word = x: int | 0 <= x < 0x1_0000_0000

  /** Whether bit `n` of `v` is set, with the power of two written out. */
  predicate Bit(v: nat, power: nat)
    requires power > 0
  {
    v / power % 2 == 1
  }

  function U16(v: half): (s: seq<byte>)
    ensures |s| == 2
  {
    [v % 0x100, v / 0x100]
  }

  function U32(v: word): (s: seq<byte>)
    ensures |s| == 4
  {
    U16(v % 0x1_0000) + U16(v / 0x1_0000)
  }

  function ReadU16(s: seq<byte>): half
    requires |s| >= 2
  {
    s[0] as int + s[1] as int * 0x100
  }

  function ReadU32(s: seq<byte>): word
    requires |s| >= 4
  {
    ReadU16(s) as int + ReadU16(s[2..]) as int * 0x1_0000
  }

  lemma ReadBackU16(v: half, rest: seq<byte>)
    ensures ReadU16(U16(v) + rest) == v
  {
  }

  lemma ReadBackU32(v: word, rest: seq<byte>)
    ensures ReadU32(U32(v) + rest) == v
  {
    var low, high := U16(v % 0x1_0000), U16(v / 0x1_0000);
    assert U32(v) + rest == low + (high + rest);
    assert (low + (high + rest))[2..] == high + rest;
    ReadBackU16(v % 0x1_0000, high + rest);
    ReadBackU16(v / 0x1_0000, rest);
  }

  /** The least significant byte comes first. */
  lemma LittleEndian()
    ensures U16(0x0201) == [1, 2] && U32(0x0403_0201) == [1, 2, 3, 4]
    ensures ReadU16([1, 2]) == 0x0201 && ReadU32([1, 2, 3, 4]) == 0x0403_0201
  {
    assert [1, 2, 3, 4][2..] == [3, 4];
  }

  /** Wherever a word was put, it is there to be read. */
  lemma ReadWordAt(s: seq<byte>, at: nat, v: word)
    requires at + 4 <= |s| && s[at..at + 4] == U32(v)
    ensures ReadU32(s[at..]) == v
  {
    assert s[at..] == U32(v) + s[at + 4..];
    ReadBackU32(v, s[at + 4..]);
  }

  function Zeros(n: nat): (s: seq<byte>)
    ensures |s| == n
    ensures forall i :: 0 <= i < n ==> s[i] == 0
  {
    seq(n, _ => 0)
  }

  function Filled(with: nat -> byte, n: nat): (s: seq<byte>)
    ensures |s| == n
  {
    seq<byte>(n, with)
  }

  function Min(a: nat, b: nat): nat {
    if a < b then a else b
  }

  /** `into` with its front replaced by as much of `from` as there is. */
  function Overwrite(into: seq<byte>, from: seq<byte>): (s: seq<byte>)
    requires |from| <= |into|
    ensures |s| == |into|
  {
    from + into[|from|..]
  }
}
