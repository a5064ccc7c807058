/** Customer order queries: the schema of models/Query.js and the handlers of
    routes/queryRoutes.js over a store of queries.

    Create checks the customer, then the order, then lets the schema validate the
    document; a schema failure surfaces as a 500 with the failing paths. The status
    always starts as "pending"; the status update accepts one of five values. */
module Queries {
  import opened Wrappers
  import opened Collection
  import opened Schema

  // ---------------------------------------------------------------- schema

  datatype Status = Pending | Confirmed | Shipped | Delivered | Cancelled

  function StatusName(s: Status): string {
    match s
    case Pending => "pending"
    case Confirmed => "confirmed"
    case Shipped => "shipped"
    case Delivered => "delivered"
    case Cancelled => "cancelled"
  }

  /** The status check of the update: the status named exactly, or none (an absent
      or differently spelled value). */
  function ParseStatus(s: Option<string>): (r: Option<Status>)
    ensures r.Some? <==> s.Some? && s.value in {"pending", "confirmed", "shipped", "delivered", "cancelled"}
    ensures r.Some? ==> StatusName(r.value) == s.value
  {
    if s == Some("pending") then Some(Pending)
    else if s == Some("confirmed") then Some(Confirmed)
    else if s == Some("shipped") then Some(Shipped)
    else if s == Some("delivered") then Some(Delivered)
    else if s == Some("cancelled") then Some(Cancelled)
    else None
  }

  /** Every status's name parses back to it. */
  lemma ParseStatusName(st: Status)
    ensures ParseStatus(Some(StatusName(st))) == Some(st)
  {
  }

  datatype Customer = Customer(name: string, email: string, phone: string, address: string)

  datatype Item = Item(
    productId: nat,
    productName: string,
    size: Option<string>,
    color: Option<string>,
    quantity: int,
    price: int,
    thumbnail: string)

  datatype Order = Order(items: seq<Item>, totalAmount: int, itemCount: int)

  /** A stored query. `createdAt` and `updatedAt` come from the schema's timestamps. */
  datatype Query = Query(
    id: nat,
    customer: Customer,
    order: Order,
    additionalMessage: string,
    status: Status,
    timestamp: int,
    createdAt: int,
    updatedAt: int)

  function QueryId(q: Query): nat {
    q.id
  }

  /** What the schema's `required` String paths demand of a stored query (a required
      String rejects the empty string). */
  predicate WellFormed(q: Query) {
    && q.customer.name != "" && q.customer.email != "" && q.customer.phone != ""
    && q.customer.address != ""
    && forall i :: 0 <= i < |q.order.items| ==>
         q.order.items[i].productName != "" && q.order.items[i].thumbnail != ""
  }

  // ---------------------------------------------------------------- request body

  datatype CustomerInput = CustomerInput(name: Option<string>, email: Option<string>, phone: Option<string>, address: Option<string>)

  datatype ItemInput = ItemInput(
    productId: Option<nat>,
    productName: Option<string>,
    size: Option<string>,
    color: Option<string>,
    quantity: Option<int>,
    price: Option<int>,
    thumbnail: Option<string>)

  datatype OrderInput = OrderInput(items: Option<seq<ItemInput>>, totalAmount: Option<int>, itemCount: Option<int>)

  /** The body of POST /. A falsy `timestamp` (absent, null, 0, "") is None. The
      `status` path is never passed on to the store. */
  datatype QueryInput = QueryInput(
    customer: Option<CustomerInput>,
    order: Option<OrderInput>,
    additionalMessage: Option<string>,
    timestamp: Option<int>,
    status: Option<string>)

  /** The route's first guard: a customer with a truthy name, email, phone and address. */
  predicate CustomerGiven(b: QueryInput) {
    && b.customer.Some?
    && Truthy(b.customer.value.name) && Truthy(b.customer.value.email)
    && Truthy(b.customer.value.phone) && Truthy(b.customer.value.address)
  }

  /** The route's second guard: an order with a non-empty items array. */
  predicate OrderGiven(b: QueryInput) {
    b.order.Some? && b.order.value.items.Some? && |b.order.value.items.value| > 0
  }

  /** The item has every path the schema requires: productId, productName,
      quantity, price and thumbnail; size and color are optional. */
  predicate HasRequired(it: ItemInput) {
    && it.productId.Some? && Truthy(it.productName) && it.quantity.Some?
    && it.price.Some? && Truthy(it.thumbnail)
  }

  /** The required paths of one item that are missing. */
  function ItemMissing(it: ItemInput): (m: set<string>)
    ensures m == {} <==> HasRequired(it)
  {
    (if it.productId.None? then {"productId"} else {})
    + (if !Truthy(it.productName) then {"productName"} else {})
    + (if it.quantity.None? then {"quantity"} else {})
    + (if it.price.None? then {"price"} else {})
    + (if !Truthy(it.thumbnail) then {"thumbnail"} else {})
  }

  /** The schema's verdict on a body that passed both guards: the failing paths. */
  function Violations(b: QueryInput): (v: set<string>)
    requires OrderGiven(b)
    ensures v == {} <==> Admissible(b)
  {
    var o := b.order.value;
    ElementViolationsEmpty("order.items", o.items.value, ItemMissing, 0);
    ElementViolations("order.items", o.items.value, ItemMissing, 0)
    + (if o.totalAmount.None? then {"order.totalAmount"} else {})
    + (if o.itemCount.None? then {"order.itemCount"} else {})
  }

  /** A body the schema accepts once both guards have passed. */
  predicate Admissible(b: QueryInput)
    requires OrderGiven(b)
  {
    var o := b.order.value;
    && o.totalAmount.Some? && o.itemCount.Some?
    && forall k :: 0 <= k < |o.items.value| ==> ItemMissing(o.items.value[k]) == {}
  }

  function ToItem(it: ItemInput): (r: Item)
    requires ItemMissing(it) == {}
    ensures r.productName != "" && r.thumbnail != ""
  {
    Item(it.productId.value, it.productName.value, it.size, it.color, it.quantity.value, it.price.value, it.thumbnail.value)
  }

  function ToItems(items: seq<ItemInput>): (r: seq<Item>)
    requires forall k :: 0 <= k < |items| ==> ItemMissing(items[k]) == {}
    ensures |r| == |items|
    ensures forall k :: 0 <= k < |items| ==> r[k] == ToItem(items[k])
  {
    if |items| == 0 then [] else [ToItem(items[0])] + ToItems(items[1..])
  }

  /** The document the create route stores, with the id and the clock supplied: the
      customer and order as given, the message defaulting to "", the timestamp to now,
      the status to pending. */
  function Build(b: QueryInput, id: nat, now: int): (q: Query)
    requires CustomerGiven(b) && OrderGiven(b) && Admissible(b)
    ensures WellFormed(q)
    ensures q.id == id && q.status == Pending
    ensures q.createdAt == now && q.updatedAt == now
    ensures q.additionalMessage == if Truthy(b.additionalMessage) then b.additionalMessage.value else ""
    ensures q.timestamp == b.timestamp.GetOr(now)
    ensures q.customer.name == b.customer.value.name.value && q.customer.email == b.customer.value.email.value
    ensures q.customer.phone == b.customer.value.phone.value && q.customer.address == b.customer.value.address.value
    ensures q.order.totalAmount == b.order.value.totalAmount.value
    ensures q.order.itemCount == b.order.value.itemCount.value
    ensures |q.order.items| == |b.order.value.items.value|
    ensures forall k :: 0 <= k < |q.order.items| ==> q.order.items[k] == ToItem(b.order.value.items.value[k])
  {
    var c := b.customer.value;
    var o := b.order.value;
    Query(
      id,
      Customer(c.name.value, c.email.value, c.phone.value, c.address.value),
      Order(ToItems(o.items.value), o.totalAmount.value, o.itemCount.value),
      if Truthy(b.additionalMessage) then b.additionalMessage.value else "",
      Pending,
      b.timestamp.GetOr(now),
      now,
      now)
  }

  /** Neither `itemCount` nor `totalAmount` is checked against the items: one item
      stored with a count of 7 and a total of 0 is accepted. */
  lemma TotalsNotChecked()
    ensures var it := ItemInput(Some(1), Some("shirt"), None, None, Some(1), Some(500), Some("t.jpg"));
      var b := QueryInput(
        Some(CustomerInput(Some("a"), Some("a@b"), Some("1"), Some("x"))),
        Some(OrderInput(Some([it]), Some(0), Some(7))), None, None, None);
      OrderGiven(b) && Admissible(b) && |Build(b, 0, 0).order.items| == 1
      && Build(b, 0, 0).order.itemCount == 7 && Build(b, 0, 0).order.totalAmount == 0
  {
    var it := ItemInput(Some(1), Some("shirt"), None, None, Some(1), Some(500), Some("t.jpg"));
    assert ItemMissing(it) == {};
  }

  /** A status sent in the create body is ignored: the stored query is pending. */
  lemma CreateIgnoresStatus(b: QueryInput, s: Option<string>, id: nat, now: int)
    requires CustomerGiven(b) && OrderGiven(b) && Admissible(b)
    ensures Build(b.(status := s), id, now) == Build(b, id, now)
    ensures Build(b.(status := s), id, now).status == Pending
  {
  }

  /** The status update as findByIdAndUpdate applies it under `timestamps`: the new
      status and the update time, nothing else. */
  function WithStatus(q: Query, s: Status, now: int): (r: Query)
    ensures r.status == s && r.updatedAt == now
    ensures r.(status := q.status, updatedAt := q.updatedAt) == q
    ensures WellFormed(q) ==> WellFormed(r)
  {
    q.(status := s, updatedAt := now)
  }

  // ---------------------------------------------------------------- listing order

  /** The listing order: by creation time, newest first. */
  predicate NewestFirst(qs: seq<Query>) {
    forall i, j :: 0 <= i < j < |qs| ==> qs[i].createdAt >= qs[j].createdAt
  }

  /** A query created no earlier than every query of a newest-first list can head it. */
  lemma ConsNewest(q: Query, qs: seq<Query>)
    requires NewestFirst(qs) && forall x :: x in qs ==> x.createdAt <= q.createdAt
    ensures NewestFirst([q] + qs)
  {
    var r := [q] + qs;
    assert forall k :: 0 < k < |r| ==> r[k] == qs[k - 1] && r[k] in qs;
  }

  /** The head of a newest-first list is at least as new as every later query. */
  lemma NewestHead(qs: seq<Query>)
    requires NewestFirst(qs) && |qs| > 0
    ensures NewestFirst(qs[1..])
    ensures forall x :: x in qs ==> x.createdAt <= qs[0].createdAt
  {
    forall x | x in qs ensures x.createdAt <= qs[0].createdAt {
      var j :| 0 <= j < |qs| && qs[j] == x;
    }
  }

  function InsertNewest(q: Query, sorted: seq<Query>): (r: seq<Query>)
    requires NewestFirst(sorted)
    ensures NewestFirst(r)
    ensures multiset(r) == multiset(sorted) + multiset{q}
  {
    if |sorted| == 0 then [q]
    else if q.createdAt >= sorted[0].createdAt then
      NewestHead(sorted);
      ConsNewest(q, sorted);
      [q] + sorted
    else
      NewestHead(sorted);
      var rest := InsertNewest(q, sorted[1..]);
      InsertedBelow(q, sorted, rest);
      ConsNewest(sorted[0], rest);
      assert sorted == [sorted[0]] + sorted[1..];
      [sorted[0]] + rest
  }

  /** Inserting an older query into the tail keeps everything below the head. */
  lemma InsertedBelow(q: Query, sorted: seq<Query>, rest: seq<Query>)
    requires |sorted| > 0 && q.createdAt < sorted[0].createdAt
    requires forall x :: x in sorted ==> x.createdAt <= sorted[0].createdAt
    requires multiset(rest) == multiset(sorted[1..]) + multiset{q}
    ensures forall x :: x in rest ==> x.createdAt <= sorted[0].createdAt
  {
    forall x | x in rest ensures x.createdAt <= sorted[0].createdAt {
      assert x in multiset(rest);
      if x != q {
        assert x in multiset(sorted[1..]);
        assert x in sorted[1..];
        var j :| 0 <= j < |sorted[1..]| && sorted[1..][j] == x;
        assert sorted[j + 1] == x;
      }
    }
  }

  /** The listing: the same queries, reordered newest first. */
  function SortNewestFirst(qs: seq<Query>): (r: seq<Query>)
    ensures NewestFirst(r)
    ensures multiset(r) == multiset(qs)
  {
    if |qs| == 0 then []
    else
      assert qs == [qs[0]] + qs[1..];
      InsertNewest(qs[0], SortNewestFirst(qs[1..]))
  }

  // ---------------------------------------------------------------- the store

  const CustomerRequired := "Customer details are required"
  const OrderRequired := "Order details are required"
  const Created := "Query created & email sent to all admins"
  const NotFound := "Query not found"
  const InvalidStatus := "Invalid status value"
  const Deleted := "Query deleted successfully"

  /** The JSON body of a create or delete: a message and the query concerned. */
  datatype Receipt = Receipt(message: string, query: Query)

  class QueryStore {
    var docs: seq<Query>
    var nextId: nat

    ghost predicate Valid()
      reads this
    {
      && Ascending(docs, QueryId) && Below(docs, QueryId, nextId)
      && forall k :: 0 <= k < |docs| ==> WellFormed(docs[k])
    }

    constructor()
      ensures Valid() && docs == []
    {
      docs := [];
      nextId := 0;
    }

    /** POST /. */
    method Create(b: QueryInput, now: int) returns (r: Response<Receipt>)
      requires Valid()
      modifies this
      ensures Valid()
      ensures !CustomerGiven(b) ==> r == Failure(400, CustomerRequired) && docs == old(docs) && nextId == old(nextId)
      ensures CustomerGiven(b) && !OrderGiven(b) ==> r == Failure(400, OrderRequired) && docs == old(docs) && nextId == old(nextId)
      ensures CustomerGiven(b) && OrderGiven(b) && !Admissible(b) ==>
        r == Invalid(500, Violations(b)) && docs == old(docs) && nextId == old(nextId)
      ensures CustomerGiven(b) && OrderGiven(b) && Admissible(b) ==>
        && r == Success(201, Receipt(Created, Build(b, old(nextId), now)))
        && docs == old(docs) + [Build(b, old(nextId), now)]
        && nextId == old(nextId) + 1
    {
      if !CustomerGiven(b) {
        return Failure(400, CustomerRequired);
      }
      if !OrderGiven(b) {
        return Failure(400, OrderRequired);
      }
      if !Admissible(b) {
        return Invalid(500, Violations(b));
      }
      var q := Build(b, nextId, now);
      AppendAscending(docs, QueryId, q);
      docs := docs + [q];
      nextId := nextId + 1;
      r := Success(201, Receipt(Created, q));
    }

    /** GET /: every query, newest first. */
    method List() returns (r: seq<Query>)
      requires Valid()
      ensures NewestFirst(r) && multiset(r) == multiset(docs)
    {
      r := SortNewestFirst(docs);
    }

    /** GET /:id. */
    method Get(id: nat) returns (r: Response<Query>)
      requires Valid()
      ensures Lookup(docs, QueryId, id).Some? ==> r == Success(200, Lookup(docs, QueryId, id).value)
      ensures Lookup(docs, QueryId, id).None? ==> r == Failure(404, NotFound)
      ensures r.Success? ==> r.value in docs && r.value.id == id && WellFormed(r.value)
    {
      match Lookup(docs, QueryId, id)
      case Some(q) => r := Success(200, q);
      case None => r := Failure(404, NotFound);
    }

    /** PATCH /:id/status: the status is checked before the lookup. */
    method SetStatus(id: nat, status: Option<string>, now: int) returns (r: Response<Query>)
      requires Valid()
      modifies this
      ensures Valid() && nextId == old(nextId)
      ensures ParseStatus(status).None? ==> r == Failure(400, InvalidStatus) && docs == old(docs)
      ensures ParseStatus(status).Some? && Lookup(old(docs), QueryId, id).None? ==>
        r == Failure(404, NotFound) && docs == old(docs)
      ensures ParseStatus(status).Some? && Lookup(old(docs), QueryId, id).Some? ==>
        var q := WithStatus(Lookup(old(docs), QueryId, id).value, ParseStatus(status).value, now);
        r == Success(200, q) && docs == ReplaceById(old(docs), QueryId, id, q)
    {
      var s := ParseStatus(status);
      if s.None? {
        return Failure(400, InvalidStatus);
      }
      match Lookup(docs, QueryId, id)
      case None =>
        r := Failure(404, NotFound);
      case Some(q) =>
        var u := WithStatus(q, s.value, now);
        ReplaceKeepsIds(docs, QueryId, id, u);
        docs := ReplaceById(docs, QueryId, id, u);
        r := Success(200, u);
    }

    /** DELETE /:id. */
    method Delete(id: nat) returns (r: Response<Receipt>)
      requires Valid()
      modifies this
      ensures Valid() && nextId == old(nextId)
      ensures Lookup(old(docs), QueryId, id).None? ==> r == Failure(404, NotFound) && docs == old(docs)
      ensures Lookup(old(docs), QueryId, id).Some? ==>
        && r == Success(200, Receipt(Deleted, Lookup(old(docs), QueryId, id).value))
        && docs == Without(old(docs), QueryId, id)
    {
      match Lookup(docs, QueryId, id)
      case None =>
        r := Failure(404, NotFound);
      case Some(q) =>
        docs := Without(docs, QueryId, id);
        r := Success(200, Receipt(Deleted, q));
    }
  }

  /** A status update touches only the query it names: every other query is kept
      as it was, and the updated one differs only in status and update time. */
  lemma SetStatusTouchesOne(docs: seq<Query>, id: nat, s: Status, now: int)
    requires Ascending(docs, QueryId) && Lookup(docs, QueryId, id).Some?
    ensures var q := WithStatus(Lookup(docs, QueryId, id).value, s, now);
      && (forall k :: 0 <= k < |docs| && docs[k].id != id ==> ReplaceById(docs, QueryId, id, q)[k] == docs[k])
      && Lookup(ReplaceById(docs, QueryId, id, q), QueryId, id) == Some(q)
  {
    var old_q := Lookup(docs, QueryId, id).value;
    var q := WithStatus(old_q, s, now);
    var k :| 0 <= k < |docs| && docs[k] == old_q;
    ReplaceKeepsIds(docs, QueryId, id, q);
    LookupUnique(ReplaceById(docs, QueryId, id, q), QueryId, k);
  }

  /** A deleted query is gone, and a second delete of the same id finds nothing. */
  lemma DeleteThenGone(docs: seq<Query>, id: nat)
    requires Ascending(docs, QueryId)
    ensures Lookup(Without(docs, QueryId, id), QueryId, id).None?
  {
  }
}
