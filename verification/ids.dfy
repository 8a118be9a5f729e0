/** Results, identifiers and digests shared by every component. */
module Ids {

  datatype Option<+T> = None | Some(value: T)

  datatype Result<+T, +E> = Ok(value: T) | Err(error: E)

  function Concat<T>(parts: seq<seq<T>>): seq<T> {
    if parts == [] then [] else Concat(parts[..|parts| - 1]) + parts[|parts| - 1]
  }

  lemma ConcatSnoc<T>(parts: seq<seq<T>>, last: seq<T>)
    ensures Concat(parts + [last]) == Concat(parts) + last
  {
    assert (parts + [last])[..|parts|] == parts;
  }

  lemma ConcatAssoc<T>(a: seq<T>, b: seq<T>, c: seq<T>)
    ensures (a + b) + c == a + (b + c)
  {
  }

  lemma TakeDrop<T>(s: seq<T>, n: nat)
    requires n <= |s|
    ensures s[..n] + s[n..] == s
  {
  }

  lemma SplitSlice<T>(s: seq<T>, a: nat, b: nat)
    requires a <= b <= |s|
    ensures s == (s[..a] + s[a..b]) + s[b..]
  {
  }

  lemma SliceOfTail<T>(s: seq<T>, i: nat, a: nat, b: nat)
    requires i <= a <= b <= |s|
    ensures s[i..][a - i..b - i] == s[a..b]
  {
  }

  lemma SliceOfHead<T>(s: seq<T>, i: nat, a: nat, b: nat)
    requires a <= b <= i <= |s|
    ensures s[..i][a..b] == s[a..b]
  {
  }

  lemma SnocInit<T>(s: seq<T>, last: T)
    ensures (s + [last])[..|s|] == s
  {
  }

  lemma PrefixIsTake<T>(p: seq<T>, s: seq<T>)
    requires p <= s
    ensures p == s[..|p|]
  {
  }

  lemma InitLast<T>(s: seq<T>)
    requires s != []
    ensures s[..|s| - 1] + [s[|s| - 1]] == s
  {
  }

  /** Where the first element that passes `found` stands, or the length of the list. */
  function FirstIndex<T>(found: T -> bool, s: seq<T>): (i: nat)
    ensures i <= |s|
    ensures i < |s| ==> found(s[i])
    ensures forall k :: 0 <= k < i ==> !found(s[k])
  {
    if s == [] || found(s[0]) then 0 else
      var i := FirstIndex(found, s[1..]);
      assert forall k :: 0 < k < i + 1 ==> s[k] == s[1..][k - 1];
      i + 1
  }

  /** The elements that pass `keep`, in order. */
  function Filter<T>(keep: T -> bool, s: seq<T>): seq<T> {
    if s == [] then [] else
      var rest, last := Filter(keep, s[..|s| - 1]), s[|s| - 1];
      if keep(last) then rest + [last] else rest
  }

  lemma FilterSnoc<T>(keep: T -> bool, s: seq<T>, last: T)
    ensures Filter(keep, s + [last]) == if keep(last) then Filter(keep, s) + [last] else Filter(keep, s)
  {
    SnocInit(s, last);
  }

  lemma {:induction false} FilterAppend<T>(keep: T -> bool, a: seq<T>, b: seq<T>)
    ensures Filter(keep, a + b) == Filter(keep, a) + Filter(keep, b)
  {
    if b == [] {
      assert a + b == a;
    } else {
      var rest, last := b[..|b| - 1], b[|b| - 1];
      FilterAppend(keep, a, rest);
      ConcatAssoc(a, rest, [last]);
      assert rest + [last] == b;
      FilterSnoc(keep, a + rest, last);
      ConcatAssoc(Filter(keep, a), Filter(keep, rest), [last]);
    }
  }

  lemma {:induction false} FilterAll<T>(keep: T -> bool, s: seq<T>)
    requires forall i :: 0 <= i < |s| ==> keep(s[i])
    ensures Filter(keep, s) == s
  {
    if s != [] {
      FilterAll(keep, s[..|s| - 1]);
    }
  }

  lemma {:induction false} FilterNone<T>(keep: T -> bool, s: seq<T>)
    requires forall i :: 0 <= i < |s| ==> !keep(s[i])
    ensures Filter(keep, s) == []
  {
    if s != [] {
      FilterNone(keep, s[..|s| - 1]);
    }
  }

  lemma FilterSkip<T>(keep: T -> bool, a: seq<T>, b: seq<T>)
    requires forall i :: 0 <= i < |a| ==> !keep(a[i])
    ensures Filter(keep, a + b) == Filter(keep, b)
    ensures Filter(keep, b + a) == Filter(keep, b)
  {
    FilterNone(keep, a);
    FilterAppend(keep, a, b);
    FilterAppend(keep, b, a);
  }

  lemma FilterInside<T>(keep: T -> bool, s: seq<T>, a: nat, b: nat)
    requires a <= b <= |s|
    requires forall i :: 0 <= i < |s| ==> (keep(s[i]) <==> a <= i < b)
    ensures Filter(keep, s) == s[a..b]
  {
    assert Filter(keep, s[a..b]) == s[a..b] by {
      forall i | 0 <= i < b - a ensures keep(s[a..b][i]) {
        assert s[a..b][i] == s[a + i];
      }
      FilterAll(keep, s[a..b]);
    }
    assert Filter(keep, s) == Filter(keep, s[..a] + s[a..b]) by {
      SplitSlice(s, a, b);
      FilterSkip(keep, s[b..], s[..a] + s[a..b]);
    }
    FilterSkip(keep, s[..a], s[a..b]);
  }

  /** Splitting a concatenation at part `i`. */
  lemma {:induction false} ConcatSplit<T>(parts: seq<seq<T>>, i: nat)
    requires i < |parts|
    ensures Concat(parts[..i + 1]) == Concat(parts[..i]) + parts[i]
    ensures Concat(parts[..i + 1]) <= Concat(parts)
    ensures |Concat(parts[..i])| + |parts[i]| <= |Concat(parts)|
  {
    assert parts[..i + 1][..i] == parts[..i];
    var last := |parts| - 1;
    if i == last {
      assert parts[..i + 1] == parts;
    } else {
      ConcatSplit(parts[..last], i);
      assert parts[..last][..i + 1] == parts[..i + 1] && parts[..last][..i] == parts[..i];
      assert Concat(parts) == Concat(parts[..last]) + parts[last];
    }
  }

  /** What is left of an identifier string after trimming: nothing, or a name. */
  datatype Id = Blank | Named(code: nat)

  /** A digest string: either a well-formed SHA-256 hex digest or something else. */
  datatype Digest = Malformed | SHA256(code: nat)

  /** An identifier list in the form the ledger stores: no blanks, no repeats. */
  ghost predicate Canonical(ids: seq<Id>) {
    && Id.Blank !in ids
    && forall i, j :: 0 <= i < j < |ids| ==> ids[i] != ids[j]
  }

  /** The non-blank values, first occurrence first (`uniqueNonEmpty`). */
  function Unique(values: seq<Id>): (ids: seq<Id>)
    ensures |ids| <= |values|
  {
    if values == [] then [] else
      var ids := Unique(values[..|values| - 1]);
      var value := values[|values| - 1];
      if value == Id.Blank || value in ids then ids else ids + [value]
  }

  method CollectUnique(values: seq<Id>) returns (ids: seq<Id>)
    ensures ids == Unique(values)
  {
    var seen: set<Id> := {};
    ids := [];
    for i := 0 to |values|
      invariant ids == Unique(values[..i])
      invariant seen == set id | id in ids
    {
      assert values[..i + 1][..i] == values[..i];
      if values[i] != Id.Blank && values[i] !in seen {
        seen := seen + {values[i]};
        ids := ids + [values[i]];
      }
    }
    assert values[..|values|] == values;
  }

  lemma {:induction false} UniqueMembers(values: seq<Id>)
    ensures Canonical(Unique(values))
    ensures forall id :: id in Unique(values) <==> id != Id.Blank && id in values
  {
    if values != [] {
      UniqueMembers(values[..|values| - 1]);
      assert values == values[..|values| - 1] + [values[|values| - 1]];
    }
  }

  /** Cleaning a list that is already canonical changes nothing. */
  lemma {:induction false} UniqueFixpoint(ids: seq<Id>)
    requires Canonical(ids)
    ensures Unique(ids) == ids
  {
    if ids != [] {
      var rest := ids[..|ids| - 1];
      assert ids == rest + [ids[|ids| - 1]];
      UniqueFixpoint(rest);
    }
  }

  /** `id` stands at `n`, and nowhere before. */
  ghost predicate FirstAt(values: seq<Id>, id: Id, n: nat) {
    n < |values| && values[n] == id && forall k :: 0 <= k < n ==> values[k] != id
  }

  /** Cleaning keeps the order in which the values first occur. */
  lemma {:induction false} UniqueKeepsOrder(values: seq<Id>, i: nat, j: nat) returns (m: nat, n: nat)
    requires i < j < |Unique(values)|
    ensures m < n && FirstAt(values, Unique(values)[i], m) && FirstAt(values, Unique(values)[j], n)
  {
    var rest, last := values[..|values| - 1], values[|values| - 1];
    if j < |Unique(rest)| {
      m, n := UniqueKeepsOrder(rest, i, j);
    } else {
      m := FirstPlace(rest, i);
      n := |values| - 1;
      UniqueMembers(rest);
      assert forall k :: 0 <= k < n ==> values[k] == rest[k] && rest[k] in rest;
    }
  }

  lemma {:induction false} FirstPlace(values: seq<Id>, i: nat) returns (m: nat)
    requires i < |Unique(values)|
    ensures FirstAt(values, Unique(values)[i], m)
  {
    var rest := values[..|values| - 1];
    if i < |Unique(rest)| {
      m := FirstPlace(rest, i);
    } else {
      m := |values| - 1;
      UniqueMembers(rest);
      assert forall k :: 0 <= k < m ==> values[k] == rest[k] && rest[k] in rest;
    }
  }

  lemma CanonicalConcat(a: seq<Id>, b: seq<Id>)
    requires Canonical(a) && Canonical(b)
    requires forall id :: id in a ==> id !in b
    ensures Canonical(a + b)
  {
    forall i, j | 0 <= i < j < |a + b| ensures (a + b)[i] != (a + b)[j] {
      if i < |a| <= j {
        assert a[i] in a && b[j - |a|] in b;
      }
    }
  }

  lemma CanonicalParts(a: seq<Id>, b: seq<Id>)
    requires Canonical(a + b)
    ensures Canonical(a) && Canonical(b)
    ensures forall id :: id in a ==> id !in b
  {
    assert forall i :: 0 <= i < |a| ==> (a + b)[i] == a[i];
    assert forall i :: 0 <= i < |b| ==> (a + b)[|a| + i] == b[i];
    forall id | id in a ensures id !in b {
      var i :| 0 <= i < |a| && a[i] == id;
      forall j | 0 <= j < |b| ensures b[j] != id {
        assert (a + b)[i] != (a + b)[|a| + j];
      }
    }
  }
}
