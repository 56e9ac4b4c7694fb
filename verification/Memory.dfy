/** A target's memory as a debugger sees it: bytes behind access ports. */
module Memory {
  import opened Basics

  datatype Cell = Cell(port: nat, address: nat)

  type Bytes = map<Cell, byte>

  function At(m: Bytes, port: nat, address: nat): byte {
    if Cell(port, address) in m then m[Cell(port, address)] else 0
  }

  function Fetch(m: Bytes, port: nat, address: nat, size: nat): (s: seq<byte>)
    ensures |s| == size
    ensures forall i :: 0 <= i < size ==> s[i] == At(m, port, address + i)
  {
    seq<byte>(size, i requires 0 <= i < size => At(m, port, address + i))
  }

  function Store(m: Bytes, port: nat, address: nat, data: seq<byte>): Bytes
    decreases |data|
  {
    if data == [] then m else Store(m[Cell(port, address) := data[0]], port, address + 1, data[1..])
  }

  /** A store changes what it covers and nothing else, on its own port and on every other. */
  lemma {:induction false} StoreChangesOnlyItsOwn(m: Bytes, port: nat, address: nat, data: seq<byte>, p: nat, a: nat)
    ensures At(Store(m, port, address, data), p, a) ==
            if p == port && address <= a < address + |data| then data[a - address] else At(m, p, a)
    decreases |data|
  {
    if data != [] {
      StoreChangesOnlyItsOwn(m[Cell(port, address) := data[0]], port, address + 1, data[1..], p, a);
    }
  }

  lemma StoredIsFetched(m: Bytes, port: nat, address: nat, data: seq<byte>)
    ensures Fetch(Store(m, port, address, data), port, address, |data|) == data
  {
    forall i | 0 <= i < |data|
      ensures Fetch(Store(m, port, address, data), port, address, |data|)[i] == data[i]
    {
      StoreChangesOnlyItsOwn(m, port, address, data, port, address + i);
    }
  }

  /** The most one command carries, of words at least. */
  const TRANSFER_LIMIT: nat := 6144

  predicate Aligned(address: word, size: nat) {
    address % 4 == 0 && size % 4 == 0
  }

  /** Whether two ranges behind access ports have nothing in common. */
  predicate Apart(p: nat, a: nat, n: nat, q: nat, b: nat, k: nat) {
    p != q || a + n <= b || b + k <= a
  }

  lemma StoredElsewhereIsNotFetched(m: Bytes, port: nat, address: nat, data: seq<byte>, p: nat, a: nat, n: nat)
    requires Apart(port, address, |data|, p, a, n)
    ensures Fetch(Store(m, port, address, data), p, a, n) == Fetch(m, p, a, n)
  {
    forall i | 0 <= i < n
      ensures Fetch(Store(m, port, address, data), p, a, n)[i] == Fetch(m, p, a, n)[i]
    {
      StoreChangesOnlyItsOwn(m, port, address, data, p, a + i);
    }
  }
}
