/** `TypeCollection`: an immutable collection of types that fingerprints the set of
    event types a projection declares, with a hash computed from the sorted full
    names of its members and an equality that compares those hashes. */
module TypeCollections {
  import opened Wrappers
  import opened Clr
  import OrdinalStrings

  /** What the constructor is given: a `Type[]` is stored as it is; any other
      `IEnumerable<Type>` (a `List<Type>`, a LINQ query, ...) goes through `Distinct()`. */
  datatype TypeSource = TypeArray(items: seq<ClrType>) | TypeEnumerable(items: seq<ClrType>)

  /** The stored `_types` array. The lazily computed `_hash` is a function of it
      (`Hash` below), so every read of it yields the same value. */
  datatype TypeCollection = TypeCollection(types: seq<ClrType>)

  predicate NoDuplicates<T(==)>(s: seq<T>) {
    forall i, j :: 0 <= i < j < |s| ==> s[i] != s[j]
  }

  /** The position of the first occurrence of `x` in `s`. */
  function FirstIndex<T(==)>(s: seq<T>, x: T): (i: nat)
    requires x in s
    ensures i < |s| && s[i] == x && x !in s[..i]
  {
    if s[0] == x then 0 else 1 + FirstIndex(s[1..], x)
  }

  /** The first occurrence is the only position with no earlier occurrence. */
  lemma FirstIndexUnique<T>(s: seq<T>, x: T, i: nat)
    requires i < |s| && s[i] == x && x !in s[..i]
    ensures FirstIndex(s, x) == i
  {
    var k := FirstIndex(s, x);
  }

  /** A first occurrence inside a prefix is the first occurrence in the whole. */
  lemma FirstIndexPrefix<T>(s: seq<T>, n: nat, x: T)
    requires n <= |s| && x in s[..n]
    ensures FirstIndex(s, x) == FirstIndex(s[..n], x)
  {
    var k := FirstIndex(s[..n], x);
    assert s[..n][..k] == s[..k];
    FirstIndexUnique(s, x, k);
  }

  /** LINQ `Distinct()`: every element of `s` once, in the order of first occurrence. */
  function Distinct(s: seq<ClrType>): (r: seq<ClrType>)
    ensures NoDuplicates(r)
    ensures forall x :: x in r <==> x in s
    ensures forall i, j :: 0 <= i < j < |r| ==> FirstIndex(s, r[i]) < FirstIndex(s, r[j])
    decreases |s|
  {
    if s == [] then []
    else
      var front := s[..|s| - 1];
      var x := s[|s| - 1];
      var d := Distinct(front);
      assert s == front + [x];
      assert forall y :: y in front ==> FirstIndex(s, y) == FirstIndex(front, y) by {
        forall y | y in front ensures FirstIndex(s, y) == FirstIndex(front, y) {
          FirstIndexPrefix(s, |s| - 1, y);
        }
      }
      if x in d then d
      else
        assert FirstIndex(s, x) == |s| - 1 by { FirstIndexUnique(s, x, |s| - 1); }
        d + [x]
  }

  /** Distinct elements are counted once each. */
  function ElementsOf<T>(s: seq<T>): set<T> {
    set x | x in s
  }

  /** The constructor, `TypeCollection.cs:16-20`: an array is kept, anything else
      is deduplicated (line 18). */
  function Create(source: TypeSource): (tc: TypeCollection)
    ensures source.TypeArray? ==> tc.types == source.items
    ensures source.TypeEnumerable? ==> tc.types == Distinct(source.items)
  {
    match source
    case TypeArray(items) => TypeCollection(items)
    case TypeEnumerable(items) => TypeCollection(Distinct(items))
  }

  /** `explicit operator TypeCollection(Type[])`. */
  function FromArray(data: seq<ClrType>): (tc: TypeCollection)
    ensures tc == Create(TypeArray(data)) && tc.types == data
  {
    Create(TypeArray(data))
  }

  /** `explicit operator TypeCollection(List<Type>)`: a list is not an array, so it is
      deduplicated. */
  function FromList(data: seq<ClrType>): (tc: TypeCollection)
    ensures tc == Create(TypeEnumerable(data))
    ensures NoDuplicates(tc.types) && forall t :: t in tc.types <==> t in data
  {
    Create(TypeEnumerable(data))
  }

  /** `Enumerable.Contains` on the array: a front-to-back scan. */
  function Scan(s: seq<ClrType>, t: ClrType): (found: bool)
    ensures found <==> t in s
  {
    s != [] && (s[0] == t || Scan(s[1..], t))
  }

  function Contains(tc: TypeCollection, t: ClrType): (found: bool)
    ensures found <==> exists i :: 0 <= i < |tc.types| && tc.types[i] == t
  {
    Scan(tc.types, t)
  }

  function Count(tc: TypeCollection): nat {
    |tc.types|
  }

  /** The indexer `this[int index]`, which throws outside `0 .. Count - 1`. */
  function Item(tc: TypeCollection, index: int): (r: Result<ClrType>)
    ensures r.Success? <==> 0 <= index < Count(tc)
    ensures r.Failure? ==> r.error == IndexOutOfRangeException
  {
    if 0 <= index < |tc.types| then Success(tc.types[index]) else Failure(IndexOutOfRangeException)
  }

  /** `GetEnumerator`: yields `_types[0]`, `_types[1]`, ... in index order. */
  method Enumerate(tc: TypeCollection) returns (yielded: seq<ClrType>)
    ensures |yielded| == Count(tc)
    ensures forall i :: 0 <= i < |yielded| ==> Item(tc, i) == Success(yielded[i])
  {
    yielded := [];
    var index := 0;
    while index < |tc.types|
      invariant 0 <= index <= |tc.types|
      invariant yielded == tc.types[..index]
    {
      yielded := yielded + [tc.types[index]];
      index := index + 1;
    }
  }

  /** A type is contained exactly when some index in range yields it. */
  lemma ContainsIffIndexed(tc: TypeCollection, t: ClrType)
    ensures Contains(tc, t) <==> exists i :: 0 <= i < Count(tc) && Item(tc, i) == Success(t)
  {
    if Contains(tc, t) {
      var i :| 0 <= i < |tc.types| && tc.types[i] == t;
      assert Item(tc, i) == Success(t);
    }
  }

  /** For an enumerable source, `Count` is the number of distinct input types. */
  lemma {:induction false} DistinctCount(s: seq<ClrType>)
    ensures |Distinct(s)| == |ElementsOf(s)|
    decreases |s|
  {
    if s != [] {
      var front := s[..|s| - 1];
      var x := s[|s| - 1];
      assert s == front + [x];
      assert ElementsOf(s) == ElementsOf(front) + {x};
      DistinctCount(front);
      if x in front {
        assert Distinct(s) == Distinct(front);
        assert ElementsOf(s) == ElementsOf(front);
      } else {
        assert Distinct(s) == Distinct(front) + [x];
        assert x !in ElementsOf(front);
      }
    }
  }

  lemma CountOfEnumerable(items: seq<ClrType>)
    ensures Count(Create(TypeEnumerable(items))) == |ElementsOf(items)|
    ensures Count(Create(TypeEnumerable(items))) <= |items|
  {
    DistinctCount(items);
    CardinalityOfElements(items);
  }

  lemma {:induction false} CardinalityOfElements<T>(s: seq<T>)
    ensures |ElementsOf(s)| <= |s|
  {
    if s != [] {
      assert ElementsOf(s) == {s[0]} + ElementsOf(s[1..]);
      CardinalityOfElements(s[1..]);
    }
  }

  // ---------------------------------------------------------------------------
  // The hash (`OnComputeHash`, TypeCollection.cs:37-40) and equality (`Equals`, TypeCollection.cs:54-59)

  /** `_types.Select(x => x.FullName)`. */
  function FullNames(types: seq<ClrType>): (names: seq<string>)
    ensures |names| == |types|
    ensures forall i :: 0 <= i < |types| ==> names[i] == types[i].fullName
  {
    if types == [] then [] else [types[0].fullName] + FullNames(types[1..])
  }

  /** `string.Concat` of a sequence of strings, with no separator. */
  function Concat(parts: seq<string>): string {
    if parts == [] then "" else parts[0] + Concat(parts[1..])
  }

  /** The string that `ToGuid` is applied to: the sorted full names, concatenated. */
  function HashInput(tc: TypeCollection): string {
    Concat(OrdinalStrings.Sort(FullNames(tc.types)))
  }

  /** `OnComputeHash`. `toGuid` stands for the `ToGuid` extension, which is not part
      of this model: whatever it is, the hash is a function of `HashInput`. */
  function Hash(tc: TypeCollection, toGuid: string -> Guid): Guid {
    toGuid(HashInput(tc))
  }

  /** `Equals(TypeCollection other)`; `None` stands for `other == null`. */
  predicate Equals(tc: TypeCollection, other: Option<TypeCollection>, toGuid: string -> Guid) {
    other.Some? && Hash(tc, toGuid) == Hash(other.value, toGuid)
  }

  lemma FullNamesAppend(a: seq<ClrType>, b: seq<ClrType>)
    ensures FullNames(a + b) == FullNames(a) + FullNames(b)
  {
  }

  /** Taking one type out of a sequence takes its full name out of the names. */
  lemma FullNamesRemove(t: seq<ClrType>, i: nat)
    requires i < |t|
    ensures multiset(FullNames(t)) == multiset{t[i].fullName} + multiset(FullNames(t[..i] + t[i + 1..]))
  {
    var a, b := t[..i], t[i + 1..];
    assert t == a + ([t[i]] + b);
    FullNamesAppend(a, [t[i]] + b);
    FullNamesAppend([t[i]], b);
    FullNamesAppend(a, b);
    var na, nb := FullNames(a), FullNames(b);
    assert FullNames(t) == na + ([t[i].fullName] + nb);
    assert FullNames(a + b) == na + nb;
    MultisetInsert(na, nb, t[i].fullName);
  }

  lemma MultisetInsert<T>(a: seq<T>, b: seq<T>, x: T)
    ensures multiset(a + ([x] + b)) == multiset{x} + multiset(a + b)
  {
  }

  /** Taking one occurrence out of a sequence takes it out of its multiset. */
  lemma MultisetRemove<T>(t: seq<T>, i: nat)
    requires i < |t|
    ensures multiset(t[..i] + t[i + 1..]) == multiset(t) - multiset{t[i]}
  {
    assert t == t[..i] + [t[i]] + t[i + 1..];
  }

  /** Renaming each type to its full name maps permutations to permutations. */
  lemma {:induction false} FullNamesPermutation(s: seq<ClrType>, t: seq<ClrType>)
    requires multiset(s) == multiset(t)
    ensures multiset(FullNames(s)) == multiset(FullNames(t))
    decreases |s|
  {
    if s == [] {
      assert |t| == |multiset(t)| == 0;
    } else {
      var x := s[0];
      assert x in multiset(t);
      var i :| 0 <= i < |t| && t[i] == x;
      assert s == [x] + s[1..];
      assert multiset(s[1..]) == multiset(s) - multiset{x};
      MultisetRemove(t, i);
      FullNamesPermutation(s[1..], t[..i] + t[i + 1..]);
      assert FullNames(s) == [x.fullName] + FullNames(s[1..]);
      FullNamesRemove(t, i);
    }
  }

  /** The hash depends only on which names occur how often, not on their order. */
  lemma HashPermutationInvariant(a: TypeCollection, b: TypeCollection, toGuid: string -> Guid)
    requires multiset(a.types) == multiset(b.types)
    ensures HashInput(a) == HashInput(b)
    ensures Equals(a, Some(b), toGuid)
  {
    FullNamesPermutation(a.types, b.types);
    OrdinalStrings.SortPermutationInvariant(FullNames(a.types), FullNames(b.types));
  }

  /** Each element of a duplicate-free sequence occurs exactly once. */
  lemma {:induction false} NoDuplicatesMultiset<T>(r: seq<T>, x: T)
    requires NoDuplicates(r)
    ensures multiset(r)[x] == if x in r then 1 else 0
  {
    if r != [] {
      assert r == [r[0]] + r[1..];
      assert NoDuplicates(r[1..]);
      NoDuplicatesMultiset(r[1..], x);
    }
  }

  /** Two enumerables with the same members, in any order and with any repetitions,
      yield equal collections. */
  lemma SameMembersEqual(s: seq<ClrType>, t: seq<ClrType>, toGuid: string -> Guid)
    requires forall x :: x in s <==> x in t
    ensures Equals(Create(TypeEnumerable(s)), Some(Create(TypeEnumerable(t))), toGuid)
  {
    var a, b := Create(TypeEnumerable(s)), Create(TypeEnumerable(t));
    forall x ensures multiset(a.types)[x] == multiset(b.types)[x] {
      NoDuplicatesMultiset(a.types, x);
      NoDuplicatesMultiset(b.types, x);
    }
    assert multiset(a.types) == multiset(b.types);
    HashPermutationInvariant(a, b, toGuid);
  }

  /** Equality of collections is an equivalence on non-null values. */
  lemma EqualsIsEquivalence(a: TypeCollection, b: TypeCollection, c: TypeCollection, toGuid: string -> Guid)
    ensures Equals(a, Some(a), toGuid)
    ensures Equals(a, Some(b), toGuid) ==> Equals(b, Some(a), toGuid)
    ensures Equals(a, Some(b), toGuid) && Equals(b, Some(c), toGuid) ==> Equals(a, Some(c), toGuid)
    ensures !Equals(a, None, toGuid)
  {
  }

  lemma DistinctOfPair(p: ClrType, q: ClrType)
    requires p != q
    ensures Distinct([p, q]) == [p, q]
  {
    assert [p, q][..1] == [p];
    assert [p][..0] == [];
    assert Distinct([p]) == Distinct([]) + [p];
    assert Distinct([p, q]) == Distinct([p]) + [q];
  }

  lemma HashInputOfPair(p: ClrType, q: ClrType)
    requires OrdinalStrings.LessEq(p.fullName, q.fullName)
    ensures HashInput(TypeCollection([p, q])) == p.fullName + q.fullName
  {
    var names := [p.fullName, q.fullName];
    assert FullNames([p, q]) == names by { assert [p, q][1..] == [q]; }
    assert OrdinalStrings.Sort(names) == names by {
      assert names[1..] == [q.fullName];
      assert OrdinalStrings.Sort([q.fullName]) == [q.fullName];
    }
    assert Concat(names) == p.fullName + q.fullName by {
      assert names[1..] == [q.fullName];
      assert Concat([q.fullName]) == q.fullName;
    }
  }

  /** An array is stored with its duplicates, and these reach the hash input:
      `[p, p]` hashes `p`'s name twice, `[p]` once. */
  lemma ArrayDuplicatesHashed(p: ClrType)
    ensures HashInput(FromArray([p, p])) == p.fullName + p.fullName
    ensures HashInput(FromArray([p])) == p.fullName
  {
    OrdinalStrings.LessEqReflexive(p.fullName);
    HashInputOfPair(p, p);
    assert FullNames([p]) == [p.fullName] by { assert [p][1..] == []; }
    assert OrdinalStrings.Sort([p.fullName]) == [p.fullName] by { assert [p.fullName][1..] == []; }
    assert Concat([p.fullName]) == p.fullName by { assert [p.fullName][1..] == []; }
  }

  /** The collection a two-element list of different, ordered types converts to. */
  lemma ListOfPair(p: ClrType, q: ClrType)
    requires p != q && OrdinalStrings.LessEq(p.fullName, q.fullName)
    ensures FromList([p, q]) == TypeCollection([p, q])
    ensures HashInput(FromList([p, q])) == p.fullName + q.fullName
    ensures forall x :: Contains(FromList([p, q]), x) <==> x == p || x == q
  {
    DistinctOfPair(p, q);
    HashInputOfPair(p, q);
    assert [p, q][0] == p && [p, q][1] == q;
  }

  /** Two pairs whose ordered names concatenate to the same string give equal
      collections. */
  lemma PairsCollide(p: ClrType, q: ClrType, u: ClrType, v: ClrType, toGuid: string -> Guid)
    requires p != q && OrdinalStrings.LessEq(p.fullName, q.fullName)
    requires u != v && OrdinalStrings.LessEq(u.fullName, v.fullName)
    requires p.fullName + q.fullName == u.fullName + v.fullName
    ensures Equals(FromList([p, q]), Some(FromList([u, v])), toGuid)
  {
    ListOfPair(p, q);
    ListOfPair(u, v);
  }

  /** The names are concatenated without a separator, so the hash does not tell
      collections apart: {AB, C} and {A, BC} are equal although they share no member. */
  lemma HashNotInjective(toGuid: string -> Guid)
    ensures var ab, c := ClrType("Rooms", "AB"), ClrType("Rooms", "C");
            var a, bc := ClrType("Rooms", "A"), ClrType("Rooms", "BC");
            var left, right := FromList([ab, c]), FromList([a, bc]);
            Equals(left, Some(right), toGuid) && Contains(left, ab) && !Contains(right, ab)
  {
    var ab, c := ClrType("Rooms", "AB"), ClrType("Rooms", "C");
    var a, bc := ClrType("Rooms", "A"), ClrType("Rooms", "BC");
    assert OrdinalStrings.LessEq("AB", "C");
    assert OrdinalStrings.LessEq("A", "BC");
    assert "AB" + "C" == "A" + "BC";
    ListOfPair(ab, c);
    ListOfPair(a, bc);
    PairsCollide(ab, c, a, bc, toGuid);
  }
}
