/** The string interner of src/interner.rs: strings are handed out dense
    indexes, and the `indexes` map and the `strings` vector are inverse to one
    another. */
module Interning {

  /** `InternedStr(usize)`. */
  datatype InternedStr = InternedStr(index: nat)

  /** `indexes[strings[i]] == i` for every position, and every key of
      `indexes` names the position that holds it. */
  ghost predicate Bijection(indexes: map<string, nat>, strings: seq<string>)
  {
    && (forall i :: 0 <= i < |strings| ==> strings[i] in indexes && indexes[strings[i]] == i)
    && (forall s :: s in indexes ==> indexes[s] < |strings| && strings[indexes[s]] == s)
  }

  /** Under the bijection invariant distinct strings have distinct handles. */
  lemma DistinctStringsDistinctHandles(indexes: map<string, nat>, strings: seq<string>, s: string, t: string)
    requires Bijection(indexes, strings)
    requires s in indexes && t in indexes && s != t
    ensures indexes[s] != indexes[t]
  {
    assert strings[indexes[s]] == s && strings[indexes[t]] == t;
  }

  /** Under the bijection invariant the vector holds no string twice. */
  lemma NoDuplicateStrings(indexes: map<string, nat>, strings: seq<string>, i: nat, j: nat)
    requires Bijection(indexes, strings)
    requires i < |strings| && j < |strings| && i != j
    ensures strings[i] != strings[j]
  {
    assert indexes[strings[i]] == i && indexes[strings[j]] == j;
  }

  /** Appending a string that is not yet a key, recorded at the next index,
      keeps the bijection. */
  lemma AppendKeepsBijection(indexes: map<string, nat>, strings: seq<string>, s: string)
    requires Bijection(indexes, strings) && s !in indexes
    ensures Bijection(indexes[s := |strings|], strings + [s])
  {
    var indexes', strings' := indexes[s := |strings|], strings + [s];
    forall i | 0 <= i < |strings'|
      ensures strings'[i] in indexes' && indexes'[strings'[i]] == i
    {
      if i < |strings| {
        assert strings'[i] == strings[i] && strings[i] != s;
      }
    }
  }

  class Interner {
    var indexes: map<string, nat>
    var strings: seq<string>

    ghost predicate Valid()
      reads this
    {
      Bijection(indexes, strings)
    }

    /** `Interner::new`: both tables start empty. */
    constructor ()
      ensures Valid()
      ensures indexes == map[] && strings == []
    {
      indexes := map[];
      strings := [];
    }

    /** `Interner::intern`: a known string gets its existing handle and nothing
        changes; a new string is appended and recorded at index `strings.len()`. */
    method Intern(s: string) returns (h: InternedStr)
      requires Valid()
      modifies this
      ensures Valid()
      ensures s in indexes && h.index < |strings| && GetStr(h) == s
      ensures s in old(indexes) ==>
        h == InternedStr(old(indexes)[s]) && indexes == old(indexes) && strings == old(strings)
      ensures s !in old(indexes) ==>
        && h == InternedStr(|old(strings)|)
        && strings == old(strings) + [s]
        && indexes == old(indexes)[s := |old(strings)|]
    {
      if s in indexes {
        h := InternedStr(indexes[s]);
      } else {
        var index := |strings|;
        AppendKeepsBijection(indexes, strings, s);
        indexes := indexes[s := index];
        strings := strings + [s];
        h := InternedStr(index);
      }
    }

    /** `Interner::get_str`: the string behind a handle; a handle past the end
        of the vector is a panic in the source, so it is excluded here. */
    function GetStr(h: InternedStr): (s: string)
      reads this
      requires Valid() && h.index < |strings|
      ensures s in indexes && indexes[s] == h.index
    {
      strings[h.index]
    }
  }

  /** Interning twice returns the same handle and leaves the tables as the
      first call left them. */
  method InternIsIdempotent(interner: Interner, s: string) returns (h1: InternedStr, h2: InternedStr)
    requires interner.Valid()
    modifies interner
    ensures interner.Valid() && h1 == h2 && h1.index < |interner.strings| && interner.GetStr(h1) == s
  {
    h1 := interner.Intern(s);
    ghost var strings, indexes := interner.strings, interner.indexes;
    h2 := interner.Intern(s);
    assert interner.strings == strings && interner.indexes == indexes;
  }
}
