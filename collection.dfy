/** A MongoDB collection as the routes see it: documents in natural (insertion)
    order, each with a distinct id. Ids come from a counter, so they ascend along the
    sequence; that makes the sequence a map from id to document that also remembers
    the order in which find and findOne scan. */
module Collection {
  import opened Wrappers

  predicate Ascending<T>(docs: seq<T>, id: T -> nat) {
    forall i, j :: 0 <= i < j < |docs| ==> id(docs[i]) < id(docs[j])
  }

  predicate Below<T>(docs: seq<T>, id: T -> nat, bound: nat) {
    forall i :: 0 <= i < |docs| ==> id(docs[i]) < bound
  }

  /** No two documents share a key (a unique index). */
  predicate Distinct<T, K(==)>(docs: seq<T>, key: T -> K) {
    forall i, j :: 0 <= i < j < |docs| ==> key(docs[i]) != key(docs[j])
  }

  lemma AppendDistinct<T, K>(docs: seq<T>, key: T -> K, d: T)
    requires Distinct(docs, key) && forall i :: 0 <= i < |docs| ==> key(docs[i]) != key(d)
    ensures Distinct(docs + [d], key)
  {
  }

  /** Under a unique index, the head's key occurs nowhere in the tail. */
  lemma DistinctTail<T, K>(docs: seq<T>, key: T -> K)
    requires Distinct(docs, key) && |docs| > 0
    ensures Distinct(docs[1..], key)
    ensures forall x :: x in docs[1..] ==> key(x) != key(docs[0])
  {
    forall x | x in docs[1..] ensures key(x) != key(docs[0]) {
      var j :| 0 <= j < |docs[1..]| && docs[1..][j] == x;
      assert docs[j + 1] == x;
    }
  }

  /** A document whose key occurs nowhere in a uniquely keyed sequence can head it. */
  lemma ConsDistinct<T, K>(d: T, rest: seq<T>, key: T -> K)
    requires Distinct(rest, key) && forall x :: x in rest ==> key(x) != key(d)
    ensures Distinct([d] + rest, key)
  {
    var r := [d] + rest;
    assert forall k :: 0 < k < |r| ==> r[k] == rest[k - 1];
  }

  /** Appending a document whose id exceeds every stored id keeps ids ascending. */
  lemma AppendAscending<T>(docs: seq<T>, id: T -> nat, d: T)
    requires Ascending(docs, id) && Below(docs, id, id(d))
    ensures Ascending(docs + [d], id) && Below(docs + [d], id, id(d) + 1)
  {
  }

  /** findById: the document with that id, if any. */
  function Lookup<T>(docs: seq<T>, id: T -> nat, key: nat): (r: Option<T>)
    ensures r.Some? ==> r.value in docs && id(r.value) == key
    ensures r.None? <==> forall i :: 0 <= i < |docs| ==> id(docs[i]) != key
  {
    if |docs| == 0 then None
    else if id(docs[0]) == key then Some(docs[0])
    else Lookup(docs[1..], id, key)
  }

  /** With distinct ids, a document found by its id is the only one with it. */
  lemma LookupUnique<T>(docs: seq<T>, id: T -> nat, i: nat)
    requires Ascending(docs, id) && i < |docs|
    ensures Lookup(docs, id, id(docs[i])) == Some(docs[i])
  {
    if i > 0 {
      LookupUnique(docs[1..], id, i - 1);
    }
  }

  /** findByIdAndDelete: every document except the one with that id, in order. */
  function Without<T(!new)>(docs: seq<T>, id: T -> nat, key: nat): (r: seq<T>)
    ensures forall x :: x in r <==> x in docs && id(x) != key
    ensures |r| <= |docs|
    ensures Ascending(docs, id) ==> Ascending(r, id)
    ensures forall b :: Below(docs, id, b) ==> Below(r, id, b)
  {
    if |docs| == 0 then []
    else
      var rest := Without(docs[1..], id, key);
      assert forall x :: x in docs <==> x == docs[0] || x in docs[1..];
      if id(docs[0]) == key then rest
      else
        if Ascending(docs, id) then
          AscendingTail(docs, id);
          AscendingCons(docs[0], rest, id);
          [docs[0]] + rest
        else
          [docs[0]] + rest
  }

  lemma AscendingTail<T>(docs: seq<T>, id: T -> nat)
    requires Ascending(docs, id) && |docs| > 0
    ensures Ascending(docs[1..], id)
    ensures forall x :: x in docs[1..] ==> id(docs[0]) < id(x)
  {
    forall x | x in docs[1..] ensures id(docs[0]) < id(x) {
      var j :| 0 <= j < |docs[1..]| && docs[1..][j] == x;
      assert docs[j + 1] == x;
    }
  }

  lemma AscendingCons<T>(d: T, rest: seq<T>, id: T -> nat)
    requires Ascending(rest, id) && forall x :: x in rest ==> id(d) < id(x)
    ensures Ascending([d] + rest, id)
  {
    var r := [d] + rest;
    assert forall k :: 0 < k < |r| ==> r[k] == rest[k - 1];
  }

  /** Deleting a present id removes exactly one document. */
  lemma WithoutRemovesOne<T(!new)>(docs: seq<T>, id: T -> nat, key: nat)
    requires Ascending(docs, id) && Lookup(docs, id, key).Some?
    ensures |Without(docs, id, key)| == |docs| - 1
  {
    if id(docs[0]) == key {
      assert Without(docs[1..], id, key) == docs[1..] by {
        WithoutAbsent(docs[1..], id, key);
      }
    } else {
      WithoutRemovesOne(docs[1..], id, key);
    }
  }

  /** Deleting an absent id changes nothing. */
  lemma WithoutAbsent<T(!new)>(docs: seq<T>, id: T -> nat, key: nat)
    requires forall i :: 0 <= i < |docs| ==> id(docs[i]) != key
    ensures Without(docs, id, key) == docs
  {
    if |docs| > 0 {
      WithoutAbsent(docs[1..], id, key);
    }
  }

  /** findByIdAndUpdate: the document with that id replaced by d, the rest untouched. */
  function ReplaceById<T>(docs: seq<T>, id: T -> nat, key: nat, d: T): (r: seq<T>)
    requires id(d) == key
    ensures |r| == |docs|
    ensures forall i :: 0 <= i < |docs| ==> r[i] == if id(docs[i]) == key then d else docs[i]
  {
    if |docs| == 0 then []
    else [if id(docs[0]) == key then d else docs[0]] + ReplaceById(docs[1..], id, key, d)
  }

  /** Replacing a document keeps the ids, so it keeps them ascending. */
  lemma ReplaceKeepsIds<T>(docs: seq<T>, id: T -> nat, key: nat, d: T)
    requires id(d) == key
    ensures Ascending(docs, id) ==> Ascending(ReplaceById(docs, id, key, d), id)
    ensures forall b :: Below(docs, id, b) ==> Below(ReplaceById(docs, id, key, d), id, b)
  {
    var r := ReplaceById(docs, id, key, d);
    assert forall i :: 0 <= i < |docs| ==> id(r[i]) == id(docs[i]);
  }

  /** findOne with a filter: the first document in natural order that matches. */
  function First<T>(docs: seq<T>, keep: T -> bool): (r: Option<T>)
    ensures r.Some? ==> r.value in docs && keep(r.value)
    ensures r.Some? ==> exists i :: 0 <= i < |docs| && docs[i] == r.value && forall j :: 0 <= j < i ==> !keep(docs[j])
    ensures r.None? <==> forall i :: 0 <= i < |docs| ==> !keep(docs[i])
  {
    if |docs| == 0 then None
    else if keep(docs[0]) then
      assert docs[0] == docs[0];
      Some(docs[0])
    else
      var r := First(docs[1..], keep);
      assert r.Some? ==> exists i :: 0 <= i < |docs| && docs[i] == r.value && forall j :: 0 <= j < i ==> !keep(docs[j]) by {
        if r.Some? {
          var i :| 0 <= i < |docs[1..]| && docs[1..][i] == r.value && forall j :: 0 <= j < i ==> !keep(docs[1..][j]);
          assert docs[i + 1] == r.value;
          assert forall j :: 0 <= j < i + 1 ==> !keep(docs[j]) by {
            forall j | 0 <= j < i + 1 ensures !keep(docs[j]) {
              if j > 0 {
                assert docs[j] == docs[1..][j - 1];
              }
            }
          }
        }
      }
      r
  }

  /** find with a filter: the documents that match, in natural order. */
  function Where<T(!new)>(docs: seq<T>, keep: T -> bool): (r: seq<T>)
    ensures forall x :: x in r <==> x in docs && keep(x)
    ensures |r| <= |docs|
  {
    if |docs| == 0 then []
    else
      assert forall x :: x in docs <==> x == docs[0] || x in docs[1..];
      (if keep(docs[0]) then [docs[0]] else []) + Where(docs[1..], keep)
  }

  /** Filtering keeps a unique index unique. */
  lemma {:induction false} WhereDistinct<T(!new), K>(docs: seq<T>, keep: T -> bool, key: T -> K)
    requires Distinct(docs, key)
    ensures Distinct(Where(docs, keep), key)
  {
    if |docs| > 0 {
      WhereDistinct(docs[1..], keep, key);
      var rest := Where(docs[1..], keep);
      assert forall x :: x in rest ==> key(x) != key(docs[0]) by {
        forall x | x in rest ensures key(x) != key(docs[0]) {
          var j :| 0 <= j < |docs[1..]| && docs[1..][j] == x;
          assert docs[j + 1] == x;
        }
      }
      if keep(docs[0]) {
        var r := [docs[0]] + rest;
        assert forall k :: 0 < k < |r| ==> r[k] in rest;
      }
    }
  }
}
