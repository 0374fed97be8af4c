/**
  The outcome-to-response mappings the three resource services share. Each
  service instantiates them with its resource (which picks the message) and,
  for writes, with the message it answers a unique-constraint violation with
  (`None` when the handler has no 409 branch).
*/
module Contract {
  import opened Wrappers
  import opened Js
  import opened Adapter
  import opened Http

  /** GET /{collection}: any store error is a 500; otherwise the rows, possibly none. */
  function Listed(o: RowsOutcome): (r: Response)
    ensures r.status == 500 <==> o.Failed?
    ensures r.status == 500 ==> r.body == ErrorJson(InternalError)
    ensures o.Succeeded? ==> r.status == 200 && r.body == RowsJson(o.data)
  {
    match o
    case Failed(_) => Response(500, ErrorJson(InternalError))
    case Succeeded(rows) => Response(200, RowsJson(rows))
  }

  /** GET /{collection}/{id}. */
  function Found(res: Resource, o: RowOutcome): (r: Response)
    ensures r.status == 200 || r.status == 404 || r.status == 500
    ensures r.status == 200 <==> o.Succeeded? && o.data.Some?
    ensures r.status == 200 ==> r.body == RowJson(o.data.value)
    ensures r.status == 404 <==> (o.Failed? && NoRowMatched(o.error)) || o == Succeeded(None)
    ensures r.status == 404 ==> r.body == MessageJson(NotFound(res))
    ensures r.status == 500 ==> r.body == ErrorJson(InternalError)
  {
    match o
    case Failed(e) =>
      if NoRowMatched(e) then Response(404, MessageJson(NotFound(res)))
      else Response(500, ErrorJson(InternalError))
    case Succeeded(None) => Response(404, MessageJson(NotFound(res)))
    case Succeeded(Some(row)) => Response(200, RowJson(row))
  }

  /** POST /{collection}: 201 with whatever the store returned, 409 for a
      unique violation when the handler maps one, 500 otherwise. */
  function Created(res: Resource, o: RowOutcome, conflict: Option<Text>): (r: Response)
    ensures r.status == 201 || r.status == 409 || r.status == 500
    ensures r.status == 201 <==> o.Succeeded?
    ensures o == Succeeded(None) ==> r.body == NullJson
    ensures o.Succeeded? && o.data.Some? ==> r.body == RowJson(o.data.value)
    ensures r.status == 409 <==> o.Failed? && UniqueViolation(o.error) && conflict.Some?
    ensures r.status == 409 ==> r.body == ErrorJson(conflict.value)
    ensures r.status == 500 ==> r.body == ErrorJson(InternalErrorOn(Create, res))
  {
    match o
    case Failed(e) =>
      if conflict.Some? && UniqueViolation(e) then Response(409, ErrorJson(conflict.value))
      else Response(500, ErrorJson(InternalErrorOn(Create, res)))
    case Succeeded(None) => Response(201, NullJson)
    case Succeeded(Some(row)) => Response(201, RowJson(row))
  }

  /** PUT/PATCH: "no row affected" (by code or by message) is a 404 and is
      checked before the unique-violation code; a success without a row is a
      404 with a different message. */
  function Updated(res: Resource, op: Operation, o: RowOutcome, conflict: Option<Text>): (r: Response)
    ensures r.status == 200 || r.status == 404 || r.status == 409 || r.status == 500
    ensures r.status == 200 <==> o.Succeeded? && o.data.Some?
    ensures r.status == 200 ==> r.body == RowJson(o.data.value)
    ensures r.status == 404 <==> (o.Failed? && NoRowAffected(o.error)) || o == Succeeded(None)
    ensures o.Failed? && NoRowAffected(o.error) ==> r.body == MessageJson(NotFoundFor(op, res))
    ensures o == Succeeded(None) ==> r.body == MessageJson(NotFoundAfter(op, res))
    ensures r.status == 409 <==> o.Failed? && !NoRowAffected(o.error) && UniqueViolation(o.error) && conflict.Some?
    ensures r.status == 409 ==> r.body == ErrorJson(conflict.value)
    ensures r.status == 500 ==> r.body == ErrorJson(InternalErrorOn(op, res))
  {
    match o
    case Failed(e) =>
      if NoRowAffected(e) then Response(404, MessageJson(NotFoundFor(op, res)))
      else if conflict.Some? && UniqueViolation(e) then Response(409, ErrorJson(conflict.value))
      else Response(500, ErrorJson(InternalErrorOn(op, res)))
    case Succeeded(None) => Response(404, MessageJson(NotFoundAfter(op, res)))
    case Succeeded(Some(row)) => Response(200, RowJson(row))
  }

  /** DELETE /{collection}/{id}: every store error is a 500, never a 404; only
      a success without a row is a 404. */
  function Removed(res: Resource, o: RowOutcome): (r: Response)
    ensures r.status == 200 || r.status == 404 || r.status == 500
    ensures r.status == 500 <==> o.Failed?
    ensures r.status == 500 ==> r.body == ErrorJson(InternalErrorOn(Delete, res))
    ensures r.status == 404 <==> o == Succeeded(None)
    ensures r.status == 404 ==> r.body == MessageJson(NotFoundFor(Delete, res))
    ensures r.status == 200 ==> o.Succeeded? && o.data.Some? && r.body == DeletedJson(res, o.data.value)
  {
    match o
    case Failed(_) => Response(500, ErrorJson(InternalErrorOn(Delete, res)))
    case Succeeded(None) => Response(404, MessageJson(NotFoundFor(Delete, res)))
    case Succeeded(Some(row)) => Response(200, DeletedJson(res, row))
  }

  /** Not-found canonicalization: for a point lookup, the store reporting "no
      row" and the store returning no data are the same response. */
  lemma LookupNotFoundIsCanonical(res: Resource, message: string)
    ensures Found(res, Failed(StoreError(NoSingleRowCode, message))) == Found(res, Succeeded(None))
  {
  }

  /** Store-side detail never reaches the client: two store errors of the
      same kind give identical responses, whatever their codes and messages. */
  lemma ErrorDetailIsHidden(res: Resource, op: Operation, conflict: Option<Text>, e1: StoreError, e2: StoreError)
    ensures NoRowMatched(e1) == NoRowMatched(e2) ==> Found(res, Failed(e1)) == Found(res, Failed(e2))
    ensures UniqueViolation(e1) == UniqueViolation(e2) ==>
              Created(res, Failed(e1), conflict) == Created(res, Failed(e2), conflict)
    ensures NoRowAffected(e1) == NoRowAffected(e2) && UniqueViolation(e1) == UniqueViolation(e2) ==>
              Updated(res, op, Failed(e1), conflict) == Updated(res, op, Failed(e2), conflict)
    ensures Removed(res, Failed(e1)) == Removed(res, Failed(e2))
    ensures Listed(Failed(e1)) == Listed(Failed(e2))
  {
  }

  /** The message check makes a unique violation whose message mentions
      "exactly one row" a 404, not a 409. */
  lemma NotFoundTakesPrecedence(res: Resource, op: Operation, t: Text, message: string)
    requires Includes(message, NotExactlyOneRow)
    ensures Updated(res, op, Failed(StoreError(UniqueViolationCode, message)), Some(t)).status == 404
  {
  }
}
