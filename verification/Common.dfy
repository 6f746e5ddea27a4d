/** Vocabulary shared by every module: bytes, optional values, map lookups. */
module Common {

  type Byte = x: int | 0 <= x < 256

  type Bytes = seq<Byte>

  /** Printable ASCII that JSON leaves alone. */
  predicate IsPlain(b: Byte) {
    0x20 <= b < 0x7F && b != 34 && b != 92
  }

  predicate AllPlain(t: Bytes) {
    forall i :: 0 <= i < |t| ==> IsPlain(t[i])
  }

  datatype Option<+T> = None | Some(value: T)

  function Lookup<K, V>(m: map<K, V>, k: K): Option<V> {
    if k in m then Some(m[k]) else None
  }

  function Min(a: int, b: int): int {
    if a < b then a else b
  }

  const TWO63 := 0x8000_0000_0000_0000
  const TWO64 := 0x1_0000_0000_0000_0000

  type U64 = x: int | 0 <= x < TWO64

  lemma AnyOf<T>(s: set<T>) returns (x: T)
    requires s != {}
    ensures x in s
  {
    x :| x in s;
  }

  lemma Regroup<T>(a: seq<T>, b: seq<T>, c: seq<T>)
    ensures a + b + c == a + (b + c)
  {
  }
}
