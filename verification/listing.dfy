/** Lists of records keyed by a numeric `id`, as the dashboards keep them in
    component state: the `some(e => e.id === id)` membership query, the
    `filter(e => e.id !== id)` removal and the `[...list, {...item, id:
    list.length + 1}]` append. */
module Listing {

  datatype Keyed<T> = Keyed(id: int, item: T)

  /** `list.some(e => e.id === id)`. */
  function HasId<T>(s: seq<Keyed<T>>, id: int): (r: bool)
    ensures r <==> exists i :: 0 <= i < |s| && s[i].id == id
  {
    if s == [] then false
    else
      assert forall i :: 1 <= i < |s| ==> s[i] == s[1..][i - 1];
      s[0].id == id || HasId(s[1..], id)
  }

  /** `list.filter(e => e.id !== id)`: nothing with that id is left, every
      other entry is kept, and nothing new appears. */
  function RemoveId<T(==)>(s: seq<Keyed<T>>, id: int): (r: seq<Keyed<T>>)
    ensures |r| <= |s|
    ensures forall i :: 0 <= i < |r| ==> r[i].id != id
    ensures forall e :: e in r ==> e in s
    ensures forall i :: 0 <= i < |s| && s[i].id != id ==> s[i] in r
  {
    if s == [] then []
    else
      assert s == [s[0]] + s[1..];
      if s[0].id == id then RemoveId(s[1..], id) else [s[0]] + RemoveId(s[1..], id)
  }

  /** The number of entries carrying `id`. */
  function CountId<T>(s: seq<Keyed<T>>, id: int): (r: nat)
    ensures r <= |s|
    ensures r == 0 <==> !HasId(s, id)
  {
    if s == [] then 0
    else (if s[0].id == id then 1 else 0) + CountId(s[1..], id)
  }

  /** No two entries share an id. */
  predicate DistinctIds<T>(s: seq<Keyed<T>>) {
    forall i, j :: 0 <= i < j < |s| ==> s[i].id != s[j].id
  }

  /** `[...list, {...item, id: list.length + 1}]`. */
  function AppendNext<T>(s: seq<Keyed<T>>, item: T): (r: seq<Keyed<T>>)
    ensures |r| == |s| + 1 && r[..|s|] == s
    ensures r[|s|] == Keyed(|s| + 1, item)
  {
    s + [Keyed(|s| + 1, item)]
  }

  /** Removal acts on each part of a list separately, so the entries that
      stay keep their relative order. */
  lemma {:induction false} RemoveIdConcat<T>(s: seq<Keyed<T>>, t: seq<Keyed<T>>, id: int)
    ensures RemoveId(s + t, id) == RemoveId(s, id) + RemoveId(t, id)
  {
    if s != [] {
      assert (s + t)[1..] == s[1..] + t;
      RemoveIdConcat(s[1..], t, id);
    } else {
      assert s + t == t;
    }
  }

  /** Removing an id that is absent changes nothing. */
  lemma {:induction false} RemoveAbsent<T>(s: seq<Keyed<T>>, id: int)
    requires !HasId(s, id)
    ensures RemoveId(s, id) == s
  {
    if s != [] {
      assert !HasId(s[1..], id);
      RemoveAbsent(s[1..], id);
    }
  }

  /** After removal, the ids present are the old ones except `id`. */
  lemma {:induction false} HasIdAfterRemove<T>(s: seq<Keyed<T>>, id: int, x: int)
    ensures HasId(RemoveId(s, id), x) <==> x != id && HasId(s, x)
  {
    if s != [] {
      HasIdAfterRemove(s[1..], id, x);
      assert HasId(s, x) <==> s[0].id == x || HasId(s[1..], x);
      if s[0].id != id {
        assert RemoveId(s, id) == [s[0]] + RemoveId(s[1..], id);
        assert HasId(RemoveId(s, id), x) <==> s[0].id == x || HasId(RemoveId(s[1..], id), x);
      }
    }
  }

  /** Removal shortens the list by the number of entries carrying the id. */
  lemma {:induction false} RemoveIdLength<T>(s: seq<Keyed<T>>, id: int)
    ensures |RemoveId(s, id)| == |s| - CountId(s, id)
  {
    if s != [] {
      RemoveIdLength(s[1..], id);
    }
  }

  /** With distinct ids, an id that is present occurs exactly once. */
  lemma {:induction false} CountDistinct<T>(s: seq<Keyed<T>>, id: int)
    requires DistinctIds(s) && HasId(s, id)
    ensures CountId(s, id) == 1
  {
    assert DistinctIds(s[1..]) by {
      assert forall i :: 0 <= i < |s[1..]| ==> s[1..][i] == s[i + 1];
    }
    if s[0].id == id {
      assert !HasId(s[1..], id);
    } else {
      CountDistinct(s[1..], id);
    }
  }

  /** Removal never creates a duplicate id. */
  lemma RemoveKeepsDistinct<T>(s: seq<Keyed<T>>, id: int)
    requires DistinctIds(s)
    ensures DistinctIds(RemoveId(s, id))
    decreases |s|
  {
    if s != [] {
      assert DistinctIds(s[1..]) by {
        assert forall i :: 0 <= i < |s[1..]| ==> s[1..][i] == s[i + 1];
      }
      RemoveKeepsDistinct(s[1..], id);
      if s[0].id != id {
        var rest := RemoveId(s[1..], id);
        assert !HasId(s[1..], s[0].id);
        HasIdAfterRemove(s[1..], id, s[0].id);
        assert !HasId(rest, s[0].id);
        assert RemoveId(s, id) == [s[0]] + rest;
      }
    }
  }

  /** Appending an entry adds exactly its id. */
  lemma HasIdAppend<T>(s: seq<Keyed<T>>, e: Keyed<T>, x: int)
    ensures HasId(s + [e], x) <==> HasId(s, x) || e.id == x
  {
    var t := s + [e];
    assert t[|s|] == e;
    assert forall i :: 0 <= i < |s| ==> t[i] == s[i];
  }

  /** Removing an id from a one-entry list. */
  lemma RemoveSingle<T>(e: Keyed<T>, id: int)
    ensures RemoveId([e], id) == if e.id == id then [] else [e]
  {
    assert [e][1..] == [];
  }

  /** Appending an id not yet present keeps the ids distinct. */
  lemma AppendKeepsDistinct<T>(s: seq<Keyed<T>>, e: Keyed<T>)
    requires DistinctIds(s) && !HasId(s, e.id)
    ensures DistinctIds(s + [e])
  {
  }

  /** The `length + 1` rule does not give fresh ids once something has been
      removed: from ids 1, 2, 3, deleting 1 and appending gives 2, 3, 3. */
  lemma NextIdCollidesAfterRemove<T>(a: T, b: T, c: T, d: T)
    ensures var s := [Keyed(1, a), Keyed(2, b), Keyed(3, c)];
      var after := AppendNext(RemoveId(s, 1), d);
      DistinctIds(s) && |after| == 3 && after[1].id == 3 && after[2].id == 3 && !DistinctIds(after)
  {
    var s := [Keyed(1, a), Keyed(2, b), Keyed(3, c)];
    var t := [Keyed(2, b), Keyed(3, c)];
    assert s[1..] == t && t[1..] == [Keyed(3, c)] && t[1..][1..] == [];
    assert RemoveId(t[1..], 1) == [Keyed(3, c)];
    assert RemoveId(t, 1) == t;
    assert RemoveId(s, 1) == t;
    var after := AppendNext(t, d);
    assert after[1].id == after[2].id == 3;
  }

  /** Without removals, `length + 1` ids are exactly 1, 2, ..., n. */
  lemma AppendNextNumbers<T>(s: seq<Keyed<T>>, item: T)
    requires forall i :: 0 <= i < |s| ==> s[i].id == i + 1
    ensures var r := AppendNext(s, item);
      (forall i :: 0 <= i < |r| ==> r[i].id == i + 1) && DistinctIds(r)
  {
  }

  /** `list.filter(e => p(e)).length`. */
  function CountWhere<T>(s: seq<Keyed<T>>, p: T -> bool): (r: nat)
    ensures r <= |s|
    ensures r == 0 <==> forall i :: 0 <= i < |s| ==> !p(s[i].item)
  {
    if s == [] then 0
    else
      assert forall i :: 1 <= i < |s| ==> s[i] == s[1..][i - 1];
      (if p(s[0].item) then 1 else 0) + CountWhere(s[1..], p)
  }

  /** `list.reduce((sum, e) => sum + f(e), 0)`. */
  function SumOf<T>(s: seq<Keyed<T>>, f: T -> int): int {
    if s == [] then 0 else f(s[0].item) + SumOf(s[1..], f)
  }

  /** Counting over two parts of a list adds up. */
  lemma {:induction false} CountConcat<T>(s: seq<Keyed<T>>, t: seq<Keyed<T>>, p: T -> bool)
    ensures CountWhere(s + t, p) == CountWhere(s, p) + CountWhere(t, p)
  {
    if s == [] {
      assert s + t == t;
    } else {
      assert (s + t)[1..] == s[1..] + t;
      CountConcat(s[1..], t, p);
    }
  }

  /** Summing over two parts of a list adds up. */
  lemma {:induction false} SumConcat<T>(s: seq<Keyed<T>>, t: seq<Keyed<T>>, f: T -> int)
    ensures SumOf(s + t, f) == SumOf(s, f) + SumOf(t, f)
  {
    if s == [] {
      assert s + t == t;
    } else {
      assert (s + t)[1..] == s[1..] + t;
      SumConcat(s[1..], t, f);
    }
  }

  /** Two tests that split every entry between them count up to the length. */
  lemma {:induction false} CountPartition<T>(s: seq<Keyed<T>>, p: T -> bool, q: T -> bool)
    requires forall i :: 0 <= i < |s| ==> p(s[i].item) != q(s[i].item)
    ensures CountWhere(s, p) + CountWhere(s, q) == |s|
  {
    if s != [] {
      assert forall i :: 1 <= i < |s| ==> s[i] == s[1..][i - 1];
      CountPartition(s[1..], p, q);
    }
  }

  /** Two tests that no entry passes both count up to at most the length. */
  lemma {:induction false} CountDisjoint<T>(s: seq<Keyed<T>>, p: T -> bool, q: T -> bool)
    requires forall i :: 0 <= i < |s| ==> !(p(s[i].item) && q(s[i].item))
    ensures CountWhere(s, p) + CountWhere(s, q) <= |s|
  {
    if s != [] {
      assert forall i :: 1 <= i < |s| ==> s[i] == s[1..][i - 1];
      CountDisjoint(s[1..], p, q);
    }
  }

  /** Summing a non-negative measure never goes below zero. */
  lemma {:induction false} SumNonNegative<T>(s: seq<Keyed<T>>, f: T -> int)
    requires forall i :: 0 <= i < |s| ==> f(s[i].item) >= 0
    ensures SumOf(s, f) >= 0
  {
    if s != [] {
      assert forall i :: 1 <= i < |s| ==> s[i] == s[1..][i - 1];
      SumNonNegative(s[1..], f);
    }
  }

  /** Removing the only entry with an id leaves the entries around it, in
      order. */
  lemma RemoveUnique<T>(before: seq<Keyed<T>>, e: Keyed<T>, after: seq<Keyed<T>>)
    requires !HasId(before, e.id) && !HasId(after, e.id)
    ensures RemoveId(before + [e] + after, e.id) == before + after
  {
    RemoveIdConcat(before + [e], after, e.id);
    RemoveIdConcat(before, [e], e.id);
    RemoveAbsent(before, e.id);
    RemoveAbsent(after, e.id);
    RemoveSingle(e, e.id);
    assert before + [] == before;
  }

  /** Removing the only entry with an id takes exactly its share off a sum. */
  lemma RemoveUniqueSum<T>(before: seq<Keyed<T>>, e: Keyed<T>, after: seq<Keyed<T>>, f: T -> int)
    requires !HasId(before, e.id) && !HasId(after, e.id)
    ensures SumOf(RemoveId(before + [e] + after, e.id), f) == SumOf(before + [e] + after, f) - f(e.item)
  {
    RemoveUnique(before, e, after);
    SumConcat(before, after, f);
    SumConcat(before + [e], after, f);
    SumConcat(before, [e], f);
    assert [e][1..] == [];
  }
}
