/** The product service: `/products` list, lookup, create, update, delete,
    with `Number(...)` coercion of price and stock. */
module ProductService {
  import opened Wrappers
  import opened JsNumber
  import opened Js
  import opened Adapter
  import opened Http
  import opened Contract

  /** GET /products: one unfiltered select. */
  function List(o: RowsOutcome): Response {
    Listed(o)
  }

  /** GET /products/:id: one select by id. */
  function Lookup(o: RowOutcome): Response {
    Found(Product, o)
  }

  /** The stock a product is created with when the body has none. */
  const DefaultStock: JsValue := Num(Finite(0.0))

  /** POST /products, before the store. The checks run in order: a truthy
      name and a price that is neither undefined nor null; then a price that
      coerces to a non-negative number; then, if a stock is given, the same
      for the stock. The row holds the name and description as sent and the
      coerced price and stock, the stock defaulting to 0. */
  function PlanCreate(body: JsObject): (s: Step)
    ensures s.Reject? <==>
              || !Truthy(Get(body, "name")) || Get(body, "price") == Undefined || Get(body, "price") == Null
              || !IsNonNegativeNumber(Get(body, "price"))
              || (Get(body, "stock") != Undefined && !IsNonNegativeNumber(Get(body, "stock")))
    ensures !Truthy(Get(body, "name")) || Get(body, "price") == Undefined || Get(body, "price") == Null ==>
              s == Reject(BadRequest(NameAndPriceRequired))
    ensures s.Reject? && s.response != BadRequest(NameAndPriceRequired) ==>
              s.response == BadRequest(if IsNonNegativeNumber(Get(body, "price")) then StockInvalid else PriceInvalid)
    ensures s.Call? ==> s.call.Insert? && s.call.table == Product
    ensures s.Call? ==> s.call.row.Keys == {"name", "description", "price", "stock"}
    ensures s.Call? ==> s.call.row["name"] == Get(body, "name") && s.call.row["description"] == Get(body, "description")
    ensures s.Call? ==> s.call.row["price"] == AsNumber(Get(body, "price"))
    ensures s.Call? ==>
              s.call.row["stock"] == (if Get(body, "stock") == Undefined then DefaultStock else AsNumber(Get(body, "stock")))
    ensures s.Call? ==> IsNonNegativeNumber(s.call.row["price"]) && IsNonNegativeNumber(s.call.row["stock"])
  {
    var name := Get(body, "name");
    var price := Get(body, "price");
    var stock := Get(body, "stock");
    if !Truthy(name) || price == Undefined || price == Null then Reject(BadRequest(NameAndPriceRequired))
    else if IsNaN(price) || IsNegative(ToNumber(price)) then Reject(BadRequest(PriceInvalid))
    else if stock != Undefined && (IsNaN(stock) || IsNegative(ToNumber(stock))) then Reject(BadRequest(StockInvalid))
    else
      Call(Insert(Product, map[
        "name" := name,
        "description" := Get(body, "description"),
        "price" := AsNumber(price),
        "stock" := if stock != Undefined then AsNumber(stock) else DefaultStock]))
  }

  /** POST /products: no 409 branch, every store error is a 500. */
  function Create(body: JsObject, o: RowOutcome): (r: Response)
    ensures r.status == 201 || r.status == 400 || r.status == 500
    ensures r.status == 400 <==> PlanCreate(body).Reject?
    ensures r.status == 201 <==> PlanCreate(body).Call? && o.Succeeded?
    ensures r.status == 500 <==> PlanCreate(body).Call? && o.Failed?
  {
    Serve(PlanCreate(body), Created(Product, o, None))
  }

  lemma CreateRejectsBeforeStore(body: JsObject, o1: RowOutcome, o2: RowOutcome)
    ensures Create(body, o1).status == 400 <==> PlanCreate(body).Reject?
    ensures PlanCreate(body).Reject? ==> Create(body, o1) == Create(body, o2)
  {
  }

  /** The inserted row, sent again as a body, is accepted and yields the same row. */
  lemma CreatedRowRevalidates(body: JsObject)
    requires PlanCreate(body).Call?
    ensures PlanCreate(PlanCreate(body).call.row) == PlanCreate(body)
  {
    var row := PlanCreate(body).call.row;
    assert Get(row, "name") == Get(body, "name");
    assert Get(row, "description") == Get(body, "description");
    assert Get(row, "price") == AsNumber(Get(body, "price"));
  }

  /** A required price given as `""`, blank text, `false` or an empty array
      passes both price checks and is stored as 0. */
  lemma BlankPriceIsStoredAsZero(body: JsObject, blank: string)
    requires Truthy(Get(body, "name")) && Get(body, "stock") == Undefined
    requires AllWhiteSpace(blank)
    requires Get(body, "price") == Str(blank) || Get(body, "price") == Bool(false) || Get(body, "price") == Composite(blank)
    ensures PlanCreate(body).Call? && PlanCreate(body).call.row["price"] == Num(Finite(0.0))
  {
    ZeroLike(Get(body, "price"), blank);
    ZeroPriceIsAccepted(body);
  }

  lemma ZeroPriceIsAccepted(body: JsObject)
    requires Truthy(Get(body, "name")) && Get(body, "stock") == Undefined
    requires Get(body, "price") != Undefined && Get(body, "price") != Null
    requires ToNumber(Get(body, "price")) == Finite(0.0)
    ensures PlanCreate(body).Call? && PlanCreate(body).call.row["price"] == Num(Finite(0.0))
  {
  }

  /** PUT /products/:id: the partial update. A truthy name and a defined
      description are copied; a defined price or stock must coerce to a
      non-negative number (price checked first) and is stored coerced. */
  function Updates(body: JsObject): (r: Result<JsObject, Text>)
    ensures r.Failure? <==>
              || (Get(body, "price") != Undefined && !IsNonNegativeNumber(Get(body, "price")))
              || (Get(body, "stock") != Undefined && !IsNonNegativeNumber(Get(body, "stock")))
    ensures r.Failure? ==>
              r.error == (if Get(body, "price") != Undefined && !IsNonNegativeNumber(Get(body, "price"))
                          then PriceInvalid else StockInvalid)
    ensures r.Success? ==> r.value.Keys <= {"name", "description", "price", "stock"}
    ensures r.Success? ==> ("name" in r.value <==> Truthy(Get(body, "name")))
    ensures r.Success? && "name" in r.value ==> r.value["name"] == Get(body, "name")
    ensures r.Success? ==> ("description" in r.value <==> Get(body, "description") != Undefined)
    ensures r.Success? && "description" in r.value ==> r.value["description"] == Get(body, "description")
    ensures r.Success? ==> ("price" in r.value <==> Get(body, "price") != Undefined)
    ensures r.Success? && "price" in r.value ==> r.value["price"] == AsNumber(Get(body, "price"))
    ensures r.Success? ==> ("stock" in r.value <==> Get(body, "stock") != Undefined)
    ensures r.Success? && "stock" in r.value ==> r.value["stock"] == AsNumber(Get(body, "stock"))
  {
    var name := Get(body, "name");
    var description := Get(body, "description");
    var price := Get(body, "price");
    var stock := Get(body, "stock");
    var u0: JsObject := map[];
    var u1 := if Truthy(name) then u0["name" := name] else u0;
    var u2 := if description != Undefined then u1["description" := description] else u1;
    if price != Undefined && (IsNaN(price) || IsNegative(ToNumber(price))) then Failure(PriceInvalid)
    else
      var u3 := if price != Undefined then u2["price" := AsNumber(price)] else u2;
      if stock != Undefined && (IsNaN(stock) || IsNegative(ToNumber(stock))) then Failure(StockInvalid)
      else Success(if stock != Undefined then u3["stock" := AsNumber(stock)] else u3)
  }

  /** An accepted update, sent again as a body, is accepted unchanged. */
  lemma UpdatesIdempotent(body: JsObject)
    requires Updates(body).Success?
    ensures Updates(Updates(body).value) == Updates(body)
  {
    var u := Updates(body).value;
    var v := Updates(u);
    assert v.Success?;
    assert v.value.Keys == u.Keys;
  }

  /** A `null` price or stock in an update is not rejected: it is stored as 0. */
  lemma NullUpdateStoresZero(body: JsObject, field: string)
    requires field == "price" || field == "stock"
    requires Get(body, field) == Null
    requires Get(body, if field == "price" then "stock" else "price") == Undefined
    ensures Updates(body).Success? && Updates(body).value[field] == Num(Finite(0.0))
  {
    ZeroLike(Null, "");
  }

  /** PUT /products/:id, before the store: a failed field check, or nothing
      to update, is a 400. */
  function PlanUpdate(id: string, body: JsObject): (s: Step)
    ensures s.Reject? <==> Updates(body).Failure? || Updates(body) == Success(map[])
    ensures Updates(body).Failure? ==> s == Reject(BadRequest(Updates(body).error))
    ensures Updates(body) == Success(map[]) <==> s == Reject(BadRequest(NothingToUpdate))
    ensures Updates(body) == Success(map[]) <==>
              && !Truthy(Get(body, "name")) && Get(body, "description") == Undefined
              && Get(body, "price") == Undefined && Get(body, "stock") == Undefined
    ensures s.Call? ==> s.call == UpdateById(Product, id, Updates(body).value)
  {
    match Updates(body)
    case Failure(t) => Reject(BadRequest(t))
    case Success(u) =>
      if |u| == 0 then Reject(BadRequest(NothingToUpdate))
      else Call(UpdateById(Product, id, u))
  }

  /** PUT /products/:id: no 409 branch. */
  function Update(id: string, body: JsObject, o: RowOutcome): (r: Response)
    ensures r.status == 200 || r.status == 400 || r.status == 404 || r.status == 500
    ensures r.status == 400 <==> PlanUpdate(id, body).Reject?
    ensures r.status == 200 <==> PlanUpdate(id, body).Call? && o.Succeeded? && o.data.Some?
    ensures r.status == 404 <==>
              PlanUpdate(id, body).Call? && ((o.Failed? && NoRowAffected(o.error)) || o == Succeeded(None))
    ensures r.status == 500 <==> PlanUpdate(id, body).Call? && o.Failed? && !NoRowAffected(o.error)
  {
    Serve(PlanUpdate(id, body), Updated(Product, Operation.Update, o, None))
  }

  lemma UpdateRejectsBeforeStore(id: string, body: JsObject, o1: RowOutcome, o2: RowOutcome)
    ensures Update(id, body, o1).status == 400 <==> PlanUpdate(id, body).Reject?
    ensures PlanUpdate(id, body).Reject? ==> Update(id, body, o1) == Update(id, body, o2)
  {
  }

  /** Unlike the customer service, the product handlers never answer 409:
      a unique violation from the store is a plain 500. */
  lemma NeverConflict(id: string, body: JsObject, o: RowOutcome)
    ensures Create(body, o).status != 409
    ensures Update(id, body, o).status != 409
  {
  }

  /** DELETE /products/:id: one delete by id returning the deleted row. */
  function Remove(o: RowOutcome): Response {
    Removed(Product, o)
  }
}
