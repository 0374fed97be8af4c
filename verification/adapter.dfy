/**
  The persistence adapter as the services see it: the one store call each
  handler makes, and the `{ data, error }` pair that call resolves to. The
  store itself (rows, id assignment, constraints) is outside the model; an
  outcome is whatever the store answered.
*/
module Adapter {
  import opened Wrappers
  import opened Js

  /** The three collections, one per resource service. */
  datatype Resource = Customer | Product | Order

  /** `error` as reported by the query builder: a machine-readable code and a message. */
  datatype StoreError = StoreError(code: string, message: string)

  /** The `{ data, error }` pair: a non-null `error`, or the returned data. */
  datatype Outcome<D> = Failed(error: StoreError) | Succeeded(data: D)

  /** Outcome of a `.single()` call: one row, or `null` data. */
  type RowOutcome = Outcome<Option<JsObject>>

  /** Outcome of a list query: the matching rows. */
  type RowsOutcome = Outcome<seq<JsObject>>

  /** An equality predicate `.eq(column, value)`. */
  datatype Filter = Eq(column: string, value: JsValue)

  /** The single store call a handler makes once its input is accepted. */
  datatype StoreCall =
    | SelectWhere(table: Resource, filters: seq<Filter>)
    | SelectById(table: Resource, id: string)
    | Insert(table: Resource, row: JsObject)
    | UpdateById(table: Resource, id: string, changes: JsObject)
    | DeleteById(table: Resource, id: string)

  /** PostgREST: `.single()` matched no row (or more than one). */
  const NoSingleRowCode := "PGRST116"
  /** PostgreSQL: unique constraint violation. */
  const UniqueViolationCode := "23505"
  /** Message fragment the update handlers also read as "no such row". */
  const NotExactlyOneRow := "exactly one row"

  /** A point lookup found nothing. */
  predicate NoRowMatched(e: StoreError) {
    e.code == NoSingleRowCode
  }

  /** An update touched no row, by code or by message. */
  predicate NoRowAffected(e: StoreError) {
    e.code == NoSingleRowCode || Includes(e.message, NotExactlyOneRow)
  }

  predicate UniqueViolation(e: StoreError) {
    e.code == UniqueViolationCode
  }
}
