/**
  HTTP responses as the services and the gateway produce them, and the
  two-stage shape of every handler: decide (reject, or pick the store call),
  then map the store's outcome to a response.
*/
module Http {
  import opened Js
  import opened Adapter

  /** The write operations that have their own messages. */
  datatype Operation = Create | Update | UpdateStatus | Delete

  /** The fixed message strings of the services and the gateway, one
      constructor per distinct string (the strings themselves are opaque). */
  datatype Text =
    | InternalError                              // generic server error (list, get by id)
    | InternalErrorOn(op: Operation, r: Resource)  // server error while creating/updating/deleting
    | NotFound(r: Resource)                      // get by id found nothing
    | NotFoundFor(op: Operation, r: Resource)    // nothing to update/delete
    | NotFoundAfter(op: Operation, r: Resource)  // update reported success without a row
    | Deleted(r: Resource)                       // deletion confirmation
    | NameAndEmailRequired
    | EmailTaken
    | NothingToUpdate
    | NameAndPriceRequired
    | PriceInvalid
    | StockInvalid
    | CustomerAndTotalRequired
    | TotalInvalid
    | StatusRequired
    | EndpointNotFound                           // gateway catch-all

  /** Response bodies. */
  datatype Body =
    | ErrorJson(error: Text)                     // { "error": text }
    | MessageJson(message: Text)                 // { "message": text }
    | RowJson(row: JsObject)                     // the record itself
    | NullJson                                   // JSON null
    | RowsJson(rows: seq<JsObject>)              // an array of records
    | DeletedJson(r: Resource, row: JsObject)    // { "message": Deleted(r), "deleted<R>": row }
    | PlainText(text: string)                    // a non-JSON body

  datatype Response = Response(status: int, body: Body)

  /** What a handler decides before touching the store: answer now, or make
      exactly this store call. */
  datatype Step = Reject(response: Response) | Call(call: StoreCall)

  /** Runs a handler: a rejection is the response; otherwise the response is
      the mapping of the store call's outcome. */
  function Serve(step: Step, onOutcome: Response): Response {
    match step
    case Reject(response) => response
    case Call(_) => onOutcome
  }

  function BadRequest(t: Text): Response {
    Response(400, ErrorJson(t))
  }
}
