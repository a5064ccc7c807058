/** How Mongoose reports `required` failures inside an array of subdocuments: each
    failing path is named `<array>.<index>.<path>`, and a document is rejected when any
    element misses a required path. */
module Schema {
  import opened Text

  function ElementPath(field: string, i: nat, path: string): string {
    field + "." + Decimal(i) + "." + path
  }

  /** The failing paths of the elements from position i on, given the required paths
      each element misses. */
  function ElementViolations<T>(field: string, elems: seq<T>, missing: T -> set<string>, i: nat): set<string>
    requires i <= |elems|
    decreases |elems| - i
  {
    if i == |elems| then {}
    else
      var here := set f | f in missing(elems[i]) :: ElementPath(field, i, f);
      here + ElementViolations(field, elems, missing, i + 1)
  }

  /** The elements from position i on raise no violation exactly when none misses a
      required path. */
  lemma {:induction false} ElementViolationsEmpty<T>(field: string, elems: seq<T>, missing: T -> set<string>, i: nat)
    requires i <= |elems|
    ensures ElementViolations(field, elems, missing, i) == {} <==> forall k :: i <= k < |elems| ==> missing(elems[k]) == {}
    decreases |elems| - i
  {
    if i < |elems| {
      ElementViolationsEmpty(field, elems, missing, i + 1);
      if missing(elems[i]) != {} {
        var f :| f in missing(elems[i]);
        assert ElementPath(field, i, f) in ElementViolations(field, elems, missing, i);
      }
    }
  }
}
