/** The order service: `/orders` filtered list, lookup, create and status
    update. It never checks that `customer_id` names an existing customer. */
module OrderService {
  import opened Wrappers
  import opened JsNumber
  import opened Js
  import opened Adapter
  import opened Http
  import opened Contract

  /** GET /orders: an equality filter on `customer_id` when the `customerId`
      query parameter is truthy, and on `status` when `status` is truthy, in
      that order; no other parameter is looked at. */
  function ListFilters(query: JsObject): (fs: seq<Filter>)
    ensures |fs| <= 2
    ensures Eq("customer_id", Get(query, "customerId")) in fs <==> Truthy(Get(query, "customerId"))
    ensures Eq("status", Get(query, "status")) in fs <==> Truthy(Get(query, "status"))
    ensures forall f :: f in fs ==>
              f == Eq("customer_id", Get(query, "customerId")) || f == Eq("status", Get(query, "status"))
  {
    var customerId := Get(query, "customerId");
    var status := Get(query, "status");
    (if Truthy(customerId) then [Eq("customer_id", customerId)] else [])
    + (if Truthy(status) then [Eq("status", status)] else [])
  }

  /** A row passes every equality filter. */
  predicate Selects(row: JsObject, fs: seq<Filter>) {
    forall i :: 0 <= i < |fs| ==> Get(row, fs[i].column) == fs[i].value
  }

  /** What the list query returns: the rows whose customer id and status
      equal the truthy query parameters; a falsy parameter filters nothing. */
  lemma ListSelection(query: JsObject, row: JsObject)
    ensures Selects(row, ListFilters(query)) <==>
              && (Truthy(Get(query, "customerId")) ==> Get(row, "customer_id") == Get(query, "customerId"))
              && (Truthy(Get(query, "status")) ==> Get(row, "status") == Get(query, "status"))
  {
    var fs := ListFilters(query);
    if Truthy(Get(query, "customerId")) {
      assert fs[0] == Eq("customer_id", Get(query, "customerId"));
    }
    if Truthy(Get(query, "status")) {
      assert fs[|fs| - 1] == Eq("status", Get(query, "status"));
    }
  }

  /** Query parameters other than `customerId` and `status` do not affect the list. */
  lemma ListIgnoresOtherParameters(q1: JsObject, q2: JsObject)
    requires Get(q1, "customerId") == Get(q2, "customerId") && Get(q1, "status") == Get(q2, "status")
    ensures ListFilters(q1) == ListFilters(q2)
  {
  }

  /** GET /orders: the query only shapes the store call; the response
      depends on the outcome alone. */
  function List(query: JsObject, o: RowsOutcome): (r: Response)
    ensures r.status == 500 <==> o.Failed?
    ensures o.Succeeded? ==> r == Response(200, RowsJson(o.data))
  {
    Serve(Call(SelectWhere(Order, ListFilters(query))), Listed(o))
  }

  /** GET /orders/:id: one select by id. */
  function Lookup(o: RowOutcome): Response {
    Found(Order, o)
  }

  /** The status a new order gets when the body's status is falsy. */
  const DefaultStatus: JsValue := Str("pending")

  /** POST /orders, before the store: a truthy customer id and a total that
      is neither undefined nor null, then a total that coerces to a
      non-negative number. The row is exactly the customer id as sent, the
      coerced total and the status, falsy statuses becoming "pending". */
  function PlanCreate(body: JsObject): (s: Step)
    ensures s.Reject? <==>
              || !Truthy(Get(body, "customer_id"))
              || Get(body, "total_amount") == Undefined || Get(body, "total_amount") == Null
              || !IsNonNegativeNumber(Get(body, "total_amount"))
    ensures s.Reject? ==>
              s.response == BadRequest(
                if !Truthy(Get(body, "customer_id")) || Get(body, "total_amount") in {Undefined, Null}
                then CustomerAndTotalRequired else TotalInvalid)
    ensures s.Call? ==> s.call.Insert? && s.call.table == Order
    ensures s.Call? ==> s.call.row.Keys == {"customer_id", "total_amount", "status"}
    ensures s.Call? ==> s.call.row["customer_id"] == Get(body, "customer_id")
    ensures s.Call? ==> s.call.row["total_amount"] == AsNumber(Get(body, "total_amount"))
    ensures s.Call? ==>
              s.call.row["status"] == (if Truthy(Get(body, "status")) then Get(body, "status") else DefaultStatus)
    ensures s.Call? ==> Truthy(s.call.row["status"]) && IsNonNegativeNumber(s.call.row["total_amount"])
  {
    var customerId := Get(body, "customer_id");
    var total := Get(body, "total_amount");
    var status := Get(body, "status");
    if !Truthy(customerId) || total == Undefined || total == Null then Reject(BadRequest(CustomerAndTotalRequired))
    else if IsNaN(total) || IsNegative(ToNumber(total)) then Reject(BadRequest(TotalInvalid))
    else
      Call(Insert(Order, map[
        "customer_id" := customerId,
        "total_amount" := AsNumber(total),
        "status" := if Truthy(status) then status else DefaultStatus]))
  }

  /** POST /orders: no 409 branch, every store error is a 500. */
  function Create(body: JsObject, o: RowOutcome): (r: Response)
    ensures r.status == 201 || r.status == 400 || r.status == 500
    ensures r.status == 400 <==> PlanCreate(body).Reject?
    ensures r.status == 201 <==> PlanCreate(body).Call? && o.Succeeded?
    ensures r.status == 500 <==> PlanCreate(body).Call? && o.Failed?
  {
    Serve(PlanCreate(body), Created(Order, o, None))
  }

  lemma CreateRejectsBeforeStore(body: JsObject, o1: RowOutcome, o2: RowOutcome)
    ensures Create(body, o1).status == 400 <==> PlanCreate(body).Reject?
    ensures PlanCreate(body).Reject? ==> Create(body, o1) == Create(body, o2)
    ensures Create(body, o1).status != 409
  {
  }

  /** The inserted row, sent again as a body, is accepted and yields the same row. */
  lemma CreatedRowRevalidates(body: JsObject)
    requires PlanCreate(body).Call?
    ensures PlanCreate(PlanCreate(body).call.row) == PlanCreate(body)
  {
    var row := PlanCreate(body).call.row;
    assert Get(row, "customer_id") == Get(body, "customer_id");
    assert Get(row, "total_amount") == AsNumber(Get(body, "total_amount"));
    assert Get(row, "status") == row["status"];
  }

  /** PATCH /orders/:id/status, before the store: a falsy status is a 400;
      otherwise the update sets the status and nothing else. */
  function PlanStatus(id: string, body: JsObject): (s: Step)
    ensures s.Reject? <==> !Truthy(Get(body, "status"))
    ensures s.Reject? ==> s.response == BadRequest(StatusRequired)
    ensures s.Call? ==> s.call.UpdateById? && s.call.table == Order && s.call.id == id
    ensures s.Call? ==> s.call.changes.Keys == {"status"} && s.call.changes["status"] == Get(body, "status")
  {
    var status := Get(body, "status");
    if !Truthy(status) then Reject(BadRequest(StatusRequired))
    else Call(UpdateById(Order, id, map["status" := status]))
  }

  /** PATCH /orders/:id/status: no 409 branch. */
  function SetStatus(id: string, body: JsObject, o: RowOutcome): (r: Response)
    ensures r.status == 200 || r.status == 400 || r.status == 404 || r.status == 500
    ensures r.status == 400 <==> !Truthy(Get(body, "status"))
    ensures r.status == 200 <==> Truthy(Get(body, "status")) && o.Succeeded? && o.data.Some?
    ensures r.status == 404 <==>
              Truthy(Get(body, "status")) && ((o.Failed? && NoRowAffected(o.error)) || o == Succeeded(None))
    ensures r.status == 500 <==> Truthy(Get(body, "status")) && o.Failed? && !NoRowAffected(o.error)
  {
    Serve(PlanStatus(id, body), Updated(Order, UpdateStatus, o, None))
  }

  lemma SetStatusRejectsBeforeStore(id: string, body: JsObject, o1: RowOutcome, o2: RowOutcome)
    ensures SetStatus(id, body, o1).status == 400 <==> PlanStatus(id, body).Reject?
    ensures PlanStatus(id, body).Reject? ==> SetStatus(id, body, o1) == SetStatus(id, body, o2)
  {
  }

  /** Updating the status of an order the store cannot find is a 404, whether
      the store reports the miss by code, by message or with null data. */
  lemma SetStatusOfMissingOrder(id: string, body: JsObject, e: StoreError)
    requires Truthy(Get(body, "status"))
    requires NoRowAffected(e)
    ensures SetStatus(id, body, Failed(e)).status == 404
    ensures SetStatus(id, body, Succeeded(None)).status == 404
  {
  }
}
