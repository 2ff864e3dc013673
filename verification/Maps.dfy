// Finite maps given by their keys and a function.

module Maps {
  ghost function Tabulate<K, V>(keys: set<K>, f: K --> V): (m: map<K, V>)
    requires forall k :: k in keys ==> f.requires(k)
    ensures m.Keys == keys && forall k :: k in keys ==> m[k] == f(k)
    decreases |keys|
  {
    if keys == {} then map[] else
    var k :| k in keys;
    Tabulate(keys - {k}, f)[k := f(k)]
  }
}
