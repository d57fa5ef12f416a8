/** Runtime notions shared by the modelled components: type identities, GUIDs and
    the semantics of the .NET dictionary operations the components call. */
module Clr {
  import opened Wrappers

  /** A `System.Type`: two types are the same type exactly when they have the same
      assembly and full name. `FullName` alone need not identify a type. */
  datatype ClrType = ClrType(assemblyName: string, fullName: string)

  /** A 128-bit `System.Guid`. */
  type Guid = x: nat | x < 0x1_0000_0000_0000_0000_0000_0000_0000_0000

  /** `ConcurrentDictionary.TryAdd`: inserts only when the key is absent, and
      leaves an existing entry as it was. */
  function TryAdd<K, V>(m: map<K, V>, k: K, v: V): (r: map<K, V>)
    ensures k in r && r[k] == (if k in m then m[k] else v)
    ensures r.Keys == m.Keys + {k}
    ensures forall j :: j in m && j != k ==> r[j] == m[j]
  {
    if k in m then m else m[k := v]
  }

  /** `Dictionary.Add`: throws `ArgumentException` when the key is present. */
  function Add<K, V>(m: map<K, V>, k: K, v: V): (r: Result<map<K, V>>)
    ensures r.Failure? <==> k in m
    ensures r.Failure? ==> r.error == ArgumentException
    ensures r.Success? ==> r.value.Keys == m.Keys + {k} && r.value[k] == v
    ensures r.Success? ==> forall j :: j in m ==> r.value[j] == m[j]
  {
    if k in m then Failure(ArgumentException) else Success(m[k := v])
  }

  /** LINQ `SingleOrDefault`: the default (`null`) for an empty sequence, the one
      element of a singleton, and `InvalidOperationException` for a longer one. */
  function SingleOrDefault<T>(s: seq<T>): (r: Result<Option<T>>)
    ensures r.Success? <==> |s| <= 1
    ensures r.Success? ==> (r.value.Some? <==> |s| == 1)
    ensures r.Success? && r.value.Some? ==> r.value.value == s[0]
    ensures r.Failure? ==> r.error == InvalidOperationException("Sequence contains more than one element")
  {
    if |s| == 0 then Success(None)
    else if |s| == 1 then Success(Some(s[0]))
    else Failure(InvalidOperationException("Sequence contains more than one element"))
  }

  /** The dictionary indexer `d[k]`: throws `KeyNotFoundException` when absent. */
  function Get<K, V>(m: map<K, V>, k: K): (r: Result<V>)
    ensures r.Success? <==> k in m
    ensures r.Success? ==> r.value == m[k]
    ensures r.Failure? ==> r.error == KeyNotFoundException
  {
    if k in m then Success(m[k]) else Failure(KeyNotFoundException)
  }
}
