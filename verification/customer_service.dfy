/** The customer service: `/customers` list, lookup, create, update, delete. */
module CustomerService {
  import opened Wrappers
  import opened Js
  import opened Adapter
  import opened Http
  import opened Contract

  /** GET /customers: one unfiltered select. */
  function List(o: RowsOutcome): Response {
    Listed(o)
  }

  /** GET /customers/:id: one select by id. */
  function Lookup(o: RowOutcome): Response {
    Found(Customer, o)
  }

  /** POST /customers, before the store: name and email must be truthy, and
      the inserted row is the body's name, email and address, nothing else. */
  function PlanCreate(body: JsObject): (s: Step)
    ensures s.Reject? <==> !Truthy(Get(body, "name")) || !Truthy(Get(body, "email"))
    ensures s.Reject? ==> s.response == BadRequest(NameAndEmailRequired)
    ensures s.Call? ==> s.call.Insert? && s.call.table == Customer
    ensures s.Call? ==> s.call.row.Keys == {"name", "email", "address"}
    ensures s.Call? ==> forall k :: k in s.call.row ==> s.call.row[k] == Get(body, k)
  {
    var name := Get(body, "name");
    var email := Get(body, "email");
    if !Truthy(name) || !Truthy(email) then Reject(BadRequest(NameAndEmailRequired))
    else Call(Insert(Customer, map["name" := name, "email" := email, "address" := Get(body, "address")]))
  }

  /** POST /customers: 400 for a missing name or email, before the store;
      then 201 on success, 409 for a unique violation, 500 otherwise. */
  function Create(body: JsObject, o: RowOutcome): (r: Response)
    ensures r.status == 201 || r.status == 400 || r.status == 409 || r.status == 500
    ensures r.status == 400 <==> !Truthy(Get(body, "name")) || !Truthy(Get(body, "email"))
    ensures r.status == 201 <==> PlanCreate(body).Call? && o.Succeeded?
    ensures r.status == 409 <==> PlanCreate(body).Call? && o.Failed? && UniqueViolation(o.error)
    ensures r.status == 409 ==> r.body == ErrorJson(EmailTaken)
  {
    Serve(PlanCreate(body), Created(Customer, o, Some(EmailTaken)))
  }

  /** A 400 from POST is exactly a rejected plan, and it does not depend on
      anything the store could answer: no store call was made. */
  lemma CreateRejectsBeforeStore(body: JsObject, o1: RowOutcome, o2: RowOutcome)
    ensures Create(body, o1).status == 400 <==> PlanCreate(body).Reject?
    ensures PlanCreate(body).Reject? ==> Create(body, o1) == Create(body, o2) == BadRequest(NameAndEmailRequired)
  {
  }

  /** Only name, email and address reach the store: an `id` or any other
      field the client adds changes nothing. */
  lemma CreateIgnoresOtherFields(b1: JsObject, b2: JsObject)
    requires forall k :: k in {"name", "email", "address"} ==> Get(b1, k) == Get(b2, k)
    ensures PlanCreate(b1) == PlanCreate(b2)
  {
    assert Get(b1, "name") == Get(b2, "name");
    assert Get(b1, "email") == Get(b2, "email");
    assert Get(b1, "address") == Get(b2, "address");
  }

  /** The inserted row, sent again as a body, is accepted and yields the same row. */
  lemma CreatedRowRevalidates(body: JsObject)
    requires PlanCreate(body).Call?
    ensures PlanCreate(PlanCreate(body).call.row) == PlanCreate(body)
  {
    var row := PlanCreate(body).call.row;
    assert Get(row, "name") == Get(body, "name");
    assert Get(row, "email") == Get(body, "email");
    assert Get(row, "address") == Get(body, "address");
  }

  /** An accepted POST that hits the unique constraint is a 409 "email taken". */
  lemma DuplicateEmailIsConflict(body: JsObject, e: StoreError)
    requires PlanCreate(body).Call? && UniqueViolation(e)
    ensures Create(body, Failed(e)) == Response(409, ErrorJson(EmailTaken))
  {
  }

  /** PUT /customers/:id: the partial update. A truthy name or email is
      included; an address is included whenever it is not undefined, so
      `null` and `""` clear it; nothing else is. */
  function Updates(body: JsObject): (u: JsObject)
    ensures "name" in u <==> Truthy(Get(body, "name"))
    ensures "email" in u <==> Truthy(Get(body, "email"))
    ensures "address" in u <==> Get(body, "address") != Undefined
    ensures u.Keys <= {"name", "email", "address"}
    ensures forall k :: k in u ==> u[k] == Get(body, k)
  {
    var name := Get(body, "name");
    var email := Get(body, "email");
    var address := Get(body, "address");
    var u0: JsObject := map[];
    var u1 := if Truthy(name) then u0["name" := name] else u0;
    var u2 := if Truthy(email) then u1["email" := email] else u1;
    if address != Undefined then u2["address" := address] else u2
  }

  /** Building the update from its own result changes nothing. */
  lemma UpdatesIdempotent(body: JsObject)
    ensures Updates(Updates(body)) == Updates(body)
  {
    var u := Updates(body);
    var v := Updates(u);
    assert v.Keys == u.Keys;
  }

  /** PUT /customers/:id, before the store: 400 when there is nothing to update. */
  function PlanUpdate(id: string, body: JsObject): (s: Step)
    ensures s.Reject? <==>
              !Truthy(Get(body, "name")) && !Truthy(Get(body, "email")) && Get(body, "address") == Undefined
    ensures s.Reject? ==> s.response == BadRequest(NothingToUpdate)
    ensures s.Call? ==> s.call == UpdateById(Customer, id, Updates(body)) && |s.call.changes| > 0
  {
    var u := Updates(body);
    if |u| == 0 then Reject(BadRequest(NothingToUpdate))
    else Call(UpdateById(Customer, id, u))
  }

  /** PUT /customers/:id: 400 for an empty update, before the store; then
      404 for a missing row, 409 for a unique violation, 500 otherwise. */
  function Update(id: string, body: JsObject, o: RowOutcome): (r: Response)
    ensures r.status == 200 || r.status == 400 || r.status == 404 || r.status == 409 || r.status == 500
    ensures r.status == 400 <==> |Updates(body)| == 0
    ensures r.status == 200 <==> |Updates(body)| > 0 && o.Succeeded? && o.data.Some?
    ensures r.status == 404 <==>
              |Updates(body)| > 0 && ((o.Failed? && NoRowAffected(o.error)) || o == Succeeded(None))
    ensures r.status == 409 <==>
              |Updates(body)| > 0 && o.Failed? && !NoRowAffected(o.error) && UniqueViolation(o.error)
  {
    Serve(PlanUpdate(id, body), Updated(Customer, Operation.Update, o, Some(EmailTaken)))
  }

  /** A 400 from PUT is exactly an empty update, answered without the store. */
  lemma UpdateRejectsBeforeStore(id: string, body: JsObject, o1: RowOutcome, o2: RowOutcome)
    ensures Update(id, body, o1).status == 400 <==> PlanUpdate(id, body).Reject?
    ensures PlanUpdate(id, body).Reject? ==> Update(id, body, o1) == Update(id, body, o2) == BadRequest(NothingToUpdate)
  {
  }

  /** DELETE /customers/:id: one delete by id returning the deleted row. */
  function Remove(o: RowOutcome): Response {
    Removed(Customer, o)
  }
}
