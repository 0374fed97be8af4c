# E-commerce gateway and resource services, modelled in Dafny

This project models the request-handling core of a small e-commerce backend: an
API gateway that routes `/api/customers`, `/api/products` and `/api/orders` to
three resource services, and the customer, product and order services
themselves. Each service handler validates its input, makes one call to a
remote store through a query builder, and maps the store's `{ data, error }`
answer to an HTTP response.

The model is functional. Each handler is split in two:

- a **plan** (`PlanCreate`, `PlanUpdate`, `PlanStatus`, `ListFilters`) that either
  rejects the request with a 400 or names the single store call to make, with its
  exact payload;
- an **outcome mapping** (module `Contract`) from the store's answer to a
  `Response`, shared by the three services and instantiated with the service's
  resource and its unique-violation message (or none).

`Http.Serve` joins the two parts. So "a 400 makes no store call" becomes
provable: a rejected request's response does not depend on any store outcome.

JavaScript values are the `Js.JsValue` datatype. `Js.Truthy` is what `if (x)`,
`!x` and `x || d` test. `Js.ToNumber` is `Number(x)`, over
`NaN | Finite(real) | Infinite(sign)`. Strings are read by the StringToNumber
algorithm of ECMAScript (section 7.1.4.1.1): white-space trimming, decimals with
fraction and exponent, `Infinity`, and `0x`/`0o`/`0b` literals. `isNaN` is
`ToNumber(x).NaN?`. So `null`, `false`, `""` and blank strings all read as 0,
exactly as in JavaScript.

Modules: `Wrappers` (Option, Result), `JsNumber`, `Js`, `Adapter` (store calls,
outcomes, the PostgREST/PostgreSQL codes `PGRST116` and `23505`), `Http`
(message texts, bodies, responses), `Contract`, `CustomerService`,
`ProductService`, `OrderService`, `Gateway`.

The store calls with no decision in them are fixed, and their handlers are
just the `Contract` mappings:

- `GET /{collection}` is `Contract.Listed`.
- `GET /{collection}/:id` is `Contract.Found` with the service's resource.
- `DELETE /{collection}/:id` is `Contract.Removed`.

The per-service `List`, `Lookup` and `Remove` functions name these. The same
code appears at product-service/server.js:22-54 and 132-150 and at
order-service/server.js:45-63. The `Contract` rows below cite the customer
service's copy.

## Model

| member | source | states |
|---|---|---|
| JsNumber.DecimalRoundTrip | product-service/server.js:72 | `Number(...)` of the decimal spelling of any natural number is that number, as JavaScript's StringToNumber gives it |
| JsNumber.BlankIsZero | product-service/server.js:63-66 | an empty or all-white-space string converts to 0, so the `isNaN` guard lets it through |
| Js.ZeroLike | product-service/server.js:60-66 | `null`, `false`, blank strings and composites converting to blank text convert to 0 and pass the non-negative-number guard |
| Js.AsNumber | product-service/server.js:72 | `Number(v)` is always a number with the same numeric reading, and it passes the guard exactly when `v` does |
| JsNumber.StringToNumber | product-service/server.js:63-72 | definition, no contract: ECMAScript StringToNumber (trim, then a decimal, `Infinity` or `0x`/`0o`/`0b` literal, else NaN); its properties are the `DecimalRoundTrip` and `BlankIsZero` rows |
| Js.Truthy | customer-service/server.js:64 | definition, no contract: JavaScript's ToBoolean, which `if (x)`, `!x` and `x \|\| d` test |
| Js.ToNumber | product-service/server.js:63-72 | definition, no contract: JavaScript's `Number(x)`, with `undefined` NaN, `null` and `false` 0, `true` 1, strings by StringToNumber; its properties are the `ZeroLike` and `AsNumber` rows |
| Js.Includes | customer-service/server.js:110 | `message.includes(sub)` holds exactly when `sub` occurs at some index of `message` |
| Contract.Listed | customer-service/server.js:27-31 | a list answers 500 exactly on a store error; otherwise 200 with the rows, possibly none |
| Contract.Found | customer-service/server.js:43-56 | lookup: 200 with the row exactly when one is returned; 404 exactly for code PGRST116 or null data; 500 for every other error |
| Contract.LookupNotFoundIsCanonical | customer-service/server.js:43-54 | a PGRST116 error and null data give the identical 404 response |
| Contract.Created | customer-service/server.js:74-83 | create: 201 exactly on success; 409 exactly for code 23505 when the handler maps conflicts; every other error 500 |
| Contract.Updated | customer-service/server.js:109-123 | update: 404 exactly for PGRST116, a message containing "exactly one row", or null data; 409 only after that test; other errors 500; 200 with the row |
| Contract.NotFoundTakesPrecedence | customer-service/server.js:110-115 | a 23505 error whose message mentions "exactly one row" is a 404, not a 409 |
| Contract.Removed | customer-service/server.js:137-152 | delete: every store error is 500, never 404; null data is 404; otherwise 200 with the message and the deleted row |
| Contract.ErrorDetailIsHidden | customer-service/server.js:109-117 | two store errors of the same kind give identical responses, so no code or message reaches the client |
| CustomerService.PlanCreate | customer-service/server.js:62-70 | POST rejects with 400 exactly when name or email is falsy; the insert row has exactly the keys name, email and address, with the body's values |
| CustomerService.CreateRejectsBeforeStore | customer-service/server.js:64-66 | a POST answers 400 exactly when its plan rejects, and then the same whatever the store would have answered |
| CustomerService.CreateIgnoresOtherFields | customer-service/server.js:62-70 | bodies that agree on name, email and address give the same plan; a client-sent id changes nothing |
| CustomerService.CreatedRowRevalidates | customer-service/server.js:62-70 | the inserted row, posted again, is accepted and gives the same insert |
| CustomerService.DuplicateEmailIsConflict | customer-service/server.js:74-78 | an accepted POST that hits the unique constraint answers 409 "email taken" |
| CustomerService.Updates | customer-service/server.js:92-95 | the update has name exactly if truthy, email exactly if truthy, address exactly if not undefined (null included), and no other key, all with the body's values |
| CustomerService.UpdatesIdempotent | customer-service/server.js:92-95 | building the update from its own result gives it back |
| CustomerService.PlanUpdate | customer-service/server.js:92-99 | PUT rejects with 400 exactly when name and email are falsy and address is undefined; otherwise one update by id with a non-empty change set |
| CustomerService.UpdateRejectsBeforeStore | customer-service/server.js:97-99 | an empty update answers 400 whatever the store would have answered |
| CustomerService.Create | customer-service/server.js:61-84 | POST answers 400 exactly for a falsy name or email, 201 exactly for an accepted body the store inserts, 409 "email taken" exactly for an accepted body hitting code 23505, and 500 otherwise |
| CustomerService.Update | customer-service/server.js:87-124 | PUT answers 400 exactly for an empty change set, 200 exactly when the store returns the row, 404 exactly for a miss (code, message or null data), 409 exactly for another unique violation, and 500 otherwise |
| ProductService.PlanCreate | product-service/server.js:58-72 | POST rejects exactly for a falsy name, an undefined, null, NaN or negative price, or a defined NaN or negative stock, with the message of the first failing check; the row holds the coerced price and stock, stock 0 when absent, both non-negative |
| ProductService.CreateRejectsBeforeStore | product-service/server.js:60-68 | a POST answers 400 exactly when its plan rejects, independently of the store |
| ProductService.CreatedRowRevalidates | product-service/server.js:60-72 | the inserted row, posted again, is accepted and gives the same insert |
| ProductService.BlankPriceIsStoredAsZero | product-service/server.js:60-72 | a price of `""`, blank text, `false` or an empty array passes both price checks and is stored as 0 |
| ProductService.ZeroPriceIsAccepted | product-service/server.js:60-72 | any defined, non-null price converting to 0 is accepted and stored as 0 |
| ProductService.Updates | product-service/server.js:89-103 | the update fails exactly for a defined price or stock that is NaN or negative (price first); else it has name if truthy, description if defined, price and stock if defined, coerced, and nothing else |
| ProductService.UpdatesIdempotent | product-service/server.js:89-103 | an accepted update, sent again, is accepted unchanged |
| ProductService.NullUpdateStoresZero | product-service/server.js:92-103 | a null price or stock in an update is stored as 0 rather than rejected |
| ProductService.PlanUpdate | product-service/server.js:89-108 | PUT rejects exactly for a failing field check or when name is falsy and description, price and stock are all undefined |
| ProductService.UpdateRejectsBeforeStore | product-service/server.js:106-108 | an empty or invalid update answers 400 whatever the store would have answered |
| ProductService.Create | product-service/server.js:57-82 | POST answers 400 exactly when its plan rejects, 201 exactly for an accepted body the store inserts, and 500 for every store error |
| ProductService.Update | product-service/server.js:85-129 | PUT answers 400 exactly when its plan rejects, 200 exactly when the store returns the row, 404 exactly for a miss, and 500 for every other store error |
| ProductService.NeverConflict | product-service/server.js:76-123 | neither product create nor product update ever answers 409 |
| OrderService.ListFilters | order-service/server.js:25-33 | a customer_id filter exactly when customerId is truthy, a status filter exactly when status is truthy, nothing else |
| OrderService.ListSelection | order-service/server.js:25-35 | a row is selected exactly when it equals every truthy parameter on its column |
| OrderService.ListIgnoresOtherParameters | order-service/server.js:25-33 | queries that agree on customerId and status give the same filters |
| OrderService.List | order-service/server.js:22-42 | GET answers 500 exactly on a store error and otherwise 200 with the selected rows |
| OrderService.PlanCreate | order-service/server.js:72-85 | POST rejects exactly for a falsy customer_id or an undefined, null, NaN or negative total; the row is exactly customer_id, the coerced total and the status, falsy statuses becoming "pending" |
| OrderService.CreateRejectsBeforeStore | order-service/server.js:74-99 | a POST answers 400 exactly when its plan rejects, independently of the store, and never 409 |
| OrderService.CreatedRowRevalidates | order-service/server.js:81-85 | the inserted row, posted again, is accepted and gives the same insert |
| OrderService.Create | order-service/server.js:67-100 | POST answers 400 exactly when its plan rejects, 201 exactly for an accepted body the store inserts, and 500 for every store error |
| OrderService.PlanStatus | order-service/server.js:105-116 | PATCH rejects exactly for a falsy status; otherwise one update of that order whose changes are exactly the status |
| OrderService.SetStatusRejectsBeforeStore | order-service/server.js:107-109 | a falsy status answers 400 whatever the store would have answered |
| OrderService.SetStatusOfMissingOrder | order-service/server.js:121-130 | a miss reported by code, by message or as null data is a 404 |
| OrderService.SetStatus | order-service/server.js:103-133 | PATCH answers 400 exactly for a falsy status, 200 exactly when the store returns the row, 404 exactly for a miss, and 500 for every other store error |
| Gateway.Configure | api-gateway/server.js:10-18 | the route table exists exactly when the three service URLs are set and non-empty; it has three disjoint entries aimed at those URLs |
| Gateway.Rewrite | api-gateway/server.js:35-37 | the rewritten path lies under the mount path, keeps the remainder unchanged, and gives back the original path when the prefix is put back |
| Gateway.FirstMatch | api-gateway/server.js:32-82 | the index of the first registered prefix mounted at the path, or none exactly when no prefix is |
| Gateway.Resolve | api-gateway/server.js:32-84 | unmatched exactly when no prefix matches; otherwise forward to the first matching entry's target with that entry's rewrite |
| Gateway.Handle | api-gateway/server.js:43-84 | unmatched is 404 with the fixed body; a transport failure is 500 with "Proxy error occurred"; a delivered response is passed back unchanged |
| Gateway.AtMostOneMatch | api-gateway/server.js:32-66 | in a disjoint table no path matches two entries |
| Gateway.ResolveIsTheUniqueMatch | api-gateway/server.js:32-82 | in a disjoint table any matching entry is the one used, so registration order does not matter |
| Gateway.ServicesAreReached | api-gateway/server.js:32-70 | `/api/customers`, `/api/products` and `/api/orders`, each followed by nothing or a `/…` rest, go to their service with `/api` dropped and rest and query kept |
| Gateway.UnmatchedIsNotForwarded | api-gateway/server.js:82-84 | a path matching no entry is answered 404 whatever a backend would have answered |
| Gateway.UnknownPathIsNotFound | api-gateway/server.js:82-84 | `/api/unknown/path` gets the catch-all 404 |
| Gateway.TransportFailureHidesDetail | api-gateway/server.js:43-46 | a transport failure is 500 with the fixed text whatever the error was |

## Behaviour worth noting

- Product and order creation have no 409 branch. A unique violation there is a
  500 (`ProductService.NeverConflict`). Product update has no 409 branch either.
- Delete maps every store error to 500, including PGRST116. The 404 comes only
  from null data (`Contract.Removed`).
- The gateway tries its entries in registration order. The three prefixes are
  disjoint, so the entry it picks is the only one that matches
  (`Gateway.ResolveIsTheUniqueMatch`).
- The price, stock and total checks test `isNaN(x)` and `Number(x) < 0`, so
  every value that JavaScript converts to a non-negative number passes:
  `null`, `false`, `""` and blank strings all become 0. Product creation's
  price and order creation's total reject `undefined` and `null` explicitly,
  but not blank text or `false`; product creation's stock and both numeric
  fields of product update accept `null` as 0
  (`ProductService.BlankPriceIsStoredAsZero`, `ProductService.NullUpdateStoresZero`).

## Left out

- The query builder and the store: no rows, id assignment, constraints or
  foreign keys. A store answer is an arbitrary `Adapter.Outcome`.
- Order creation checks no customer: the only call it makes is the insert.
- Proxy library internals are not modelled: header and host rewriting
  (`changeOrigin`), request and response streaming, and the per-request log
  line. Express matches prefixes case-insensitively; the model matches
  case-sensitively.
- Environment loading, `process.exit`, `app.listen`, port defaults, request
  logging and all console output are not modelled. This includes each
  service's own check that its store URL and key are set; those are I/O and
  process start-up.
- Express body and query parsing is not modelled. `req.body` is taken to be an
  object; a missing body would make destructuring throw.
- A store error is taken to carry a string message. A missing message would
  make `includes` throw, which is not modelled.
- JSON serialisation of responses and payloads is not modelled. For example,
  `undefined` keys are dropped and `Infinity` becomes `null`. The customer
  insert row keeps an `address` key even when its value is `undefined`.
- Floating point is not modelled. Numbers are exact reals, so IEEE-754
  rounding, overflow to infinity and underflow to zero are absent. For
  instance `"-1e-400"` is negative here, while JavaScript reads it as `-0`.
- Arrays and objects are represented by the string they convert to
  (`Composite`). Two composites with the same conversion are one value.
- Js.ToNumber: never throws. In JavaScript, converting an object whose
  `toString` and `valueOf` are not callable (such as `{"toString":1}` in a JSON
  body) throws a TypeError. At product-service/server.js:63, 66, 93 and 99 and
  order-service/server.js:77 that exception escapes the handler, which then
  sends no response; the model instead converts such a body through its
  `Composite` text.
- The message strings are opaque constructors of `Http.Text`, not their text.
