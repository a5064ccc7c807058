/** The analytics router (routes/analyticsRoutes.js): the collection of stored events
    and the four handlers over it. */
module AnalyticsStore {
  import opened Wrappers
  import opened Collection
  import opened AnalyticsSchema
  import opened AnalyticsReports

  /** A stored event with the id the database assigned it. */
  datatype Stored = Stored(id: nat, event: Event)

  function IdOf(s: Stored): nat {
    s.id
  }

  function Events(docs: seq<Stored>): (es: seq<Event>)
    ensures |es| == |docs| && forall i :: 0 <= i < |docs| ==> es[i] == docs[i].event
  {
    seq(|docs|, i requires 0 <= i < |docs| => docs[i].event)
  }

  /** The names of the failing paths, as the 400 response lists them. */
  function PathNames(v: set<SchemaPath>): (names: set<string>)
    ensures forall p :: p in v ==> PathName(p) in names
    ensures forall n :: n in names ==> exists p :: p in v && PathName(p) == n
  {
    set p | p in v :: PathName(p)
  }

  const NotFound := "Not found"
  const Deleted := "Deleted successfully"

  class EventStore {
    var docs: seq<Stored>
    var nextId: nat

    /** Ids are distinct and below the counter, and only validated events are stored. */
    ghost predicate Valid()
      reads this
    {
      && Ascending(docs, IdOf) && Below(docs, IdOf, nextId)
      && forall i :: 0 <= i < |docs| ==> WellFormed(docs[i].event)
    }

    constructor ()
      ensures Valid() && docs == [] && nextId == 0
    {
      docs := [];
      nextId := 0;
    }

    /** POST /: validate the body; store the event and answer 201 with it, or answer
        400 with the failing paths and store nothing. */
    method Ingest(body: Payload) returns (r: Response<Stored>)
      requires Valid()
      modifies this
      ensures Valid()
      ensures Validate(body).Valid? ==>
        && r == Success(201, Stored(old(nextId), Validate(body).event))
        && docs == old(docs) + [r.value] && nextId == old(nextId) + 1
      ensures Validate(body).Rejected? ==>
        r == Invalid(400, PathNames(Validate(body).violations)) && docs == old(docs) && nextId == old(nextId)
    {
      var v := Validate(body);
      if v.Rejected? {
        return Invalid(400, PathNames(v.violations));
      }
      var saved := Stored(nextId, v.event);
      AppendAscending(docs, IdOf, saved);
      docs := docs + [saved];
      nextId := nextId + 1;
      r := Success(201, saved);
    }

    /** GET /:id: the stored event with that id, or 404. */
    method Get(id: nat) returns (r: Response<Stored>)
      requires Valid()
      ensures r.Success? <==> exists i :: 0 <= i < |docs| && docs[i].id == id
      ensures r.Success? ==> r.status == 200 && r.value in docs && r.value.id == id
      ensures r.Failure? ==> r == Failure(404, NotFound)
    {
      var found := Lookup(docs, IdOf, id);
      if found.None? {
        return Failure(404, NotFound);
      }
      r := Success(200, found.value);
    }

    /** DELETE /:id: remove the event with that id, or answer 404 and change nothing. */
    method Delete(id: nat) returns (r: Response<string>)
      requires Valid()
      modifies this
      ensures Valid() && nextId == old(nextId)
      ensures r.Success? <==> exists i :: 0 <= i < |old(docs)| && old(docs)[i].id == id
      ensures r.Success? ==> r == Success(200, Deleted) && docs == Without(old(docs), IdOf, id)
      ensures r.Failure? ==> r == Failure(404, NotFound) && docs == old(docs)
    {
      var found := Lookup(docs, IdOf, id);
      if found.None? {
        return Failure(404, NotFound);
      }
      docs := Without(docs, IdOf, id);
      r := Success(200, Deleted);
    }

    /** GET /reports: the report over every stored event. */
    method Reports(kind: Option<string>, timezone: Option<string>, cal: Calendar)
      returns (r: Response<ReportBody>)
      requires Valid()
      ensures r == Report(kind, timezone, cal, Events(docs))
    {
      r := Report(kind, timezone, cal, Events(docs));
    }
  }

  /** A deleted event is gone and every other event is still there. */
  lemma DeleteRemovesOnlyThat(docs: seq<Stored>, id: nat)
    requires Ascending(docs, IdOf) && Lookup(docs, IdOf, id).Some?
    ensures Lookup(Without(docs, IdOf, id), IdOf, id).None?
    ensures forall d :: d in docs && d.id != id ==> d in Without(docs, IdOf, id)
    ensures |Without(docs, IdOf, id)| == |docs| - 1
  {
    WithoutRemovesOne(docs, IdOf, id);
  }

  /** An ingested event can be fetched back by the id it was given. */
  lemma IngestThenGet(docs: seq<Stored>, s: Stored)
    requires Ascending(docs, IdOf) && Below(docs, IdOf, s.id)
    ensures Lookup(docs + [s], IdOf, s.id) == Some(s)
  {
    AppendAscending(docs, IdOf, s);
    LookupUnique(docs + [s], IdOf, |docs|);
  }
}
