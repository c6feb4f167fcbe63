/** The few small types every other module is written with. */
module Prelude {
  datatype Option<+T> = None | Some(value: T)

  type Name = string

  newtype Byte = x: int | 0 <= x < 256
  type Bytes = seq<Byte>

  function At<K, T>(held: map<K, T>, key: K): Option<T> {
    if key in held then Some(held[key]) else None
  }

  /** A table of what each of some keys is mapped to. */
  ghost function Build<K(!new), T>(keys: set<K>, of: K --> T): (held: map<K, T>)
    requires forall k :: k in keys ==> of.requires(k)
    ensures held.Keys == keys && forall k :: k in keys ==> held[k] == of(k)
  {
    if keys == {} then map[]
    else
      var k :| k in keys;
      Build(keys - {k}, of)[k := of(k)]
  }

  method Tabulate<K(!new, ==), T>(keys: set<K>, of: K --> T) returns (held: map<K, T>)
    requires forall k :: k in keys ==> of.requires(k)
    ensures held == Build(keys, of)
  {
    held := map[];
    var remaining := keys;
    while remaining != {}
      invariant remaining <= keys && held.Keys == keys - remaining
      invariant forall k :: k in held ==> held[k] == of(k)
    {
      var k :| k in remaining;
      held, remaining := held[k := of(k)], remaining - {k};
    }
  }

  /** Two tables that look up the same are the same. */
  lemma {:induction false} SameTables<K(!new), T>(a: map<K, T>, b: map<K, T>)
    requires forall k :: At(a, k) == At(b, k)
    ensures a == b
  {
    forall k
      ensures k in a <==> k in b
      ensures k in a ==> a[k] == b[k]
    {
      assert At(a, k) == At(b, k);
    }
  }
}
