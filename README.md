# Product and user tables: submission reconciler and edit sessions

This project models the logic inside the two React table components of the
admin front end, `tableProducts.js` and `tableUsers.js`. It does not model
their rendering. There are two parts.

- **The product submit handler** (`handleOk` in the product table). It looks
  up the chosen user by `_id` in the loaded `usuarios` list, and stops with
  "user not found" before any request when there is no match. It then builds
  one of two payloads. An update embeds a nine-field copy of the user; a
  create sends only the user's email. Both coerce `stock` with `parseInt`.
  The payload goes out through `updateProduct` (a PATCH to the edited
  product's `_id`) or through `createProduct` (a POST). Module
  `ProductReconciler` states this as pure functions and lemmas. Module
  `JsNumber` models `parseInt` as section 19.2.5 of ECMA-262 defines it.
  Module `Api` gives the JSON body that axios sends.
- **The two components' state**. Each component is a class:
  `TableProducts.ProductTable` and `TableUsers.UserTable`. The class fields
  are the components' `useState` fields (`data`, `loading`, `isModalOpen`,
  `editingProduct`/`editingUser`, `usuarios`, `formLoading`). Two more
  fields record effects: `requests`, the log of HTTP requests sent, and
  `pending`, a ghost multiset of awaits still waiting for a reply.
  - Every `async` handler is split at its `await`. The first method (for
    example `CreateProduct`) runs up to the request. `ResumeCreateProduct`
    then takes the reply (`Received(value)` or `Failed(message)`) and runs
    the rest.
  - Each method states the new value of every field, including the fields
    it leaves as they were.
  - `Valid()` holds throughout. It says that each cached list is the initial
    `[]` or the last list a successful fetch delivered (ghost histories
    `productLists`/`userLists`). It also says that `loading` and
    `formLoading` are set only while a request that clears them is pending.
  - Module `Scenarios` runs whole sessions on fresh tables, such as an edit
    whose PATCH fails, or a delete followed by a failing refetch, and states
    the outcome.

The model follows the code in these respects:

- A non-numeric `stock` is not rejected. `parseInt` gives NaN, which
  `JSON.stringify` writes as `null`, and the request is sent anyway.
- No busy flag stops overlapping fetches or submissions. The model lets
  pending replies arrive in any order.
- `createProduct`/`createUser` success does not clear the edit target; only
  the update handlers do.
- `updateProduct`/`updateUser` read `editing._id` inside their `try`. With no
  target, this throws a TypeError that the `catch` absorbs: no request is
  sent and `finally` clears `formLoading`. The submit handlers never reach
  this path, but the methods model it.

## Model

| member | source | states |
|---|---|---|
| JsNumber.ParseIntDecimalRoundTrip | auth0/src/components/tableProducts.js:150 | the canonical decimal spelling of any natural n parses back to n |
| JsNumber.ParseInt | auth0/src/components/tableProducts.js:150 | a number comes out only when a decimal digit follows the leading white space and at most one sign; a negative result needs a written "-", and after a "-" the result is never positive |
| JsNumber.ParseIntOfDecimal | auth0/src/components/tableProducts.js:168 | leading white space, one optional sign, the digits of n and a tail that is not a further digit (and, when n is 0, not an "x" or "X") parse to ±n |
| JsNumber.ParseIntTruncatesFraction | auth0/src/components/tableProducts.js:168 | a stock typed as "n.f" is sent as n |
| JsNumber.ParseIntNoDigits | auth0/src/components/tableProducts.js:150 | text with no digit after the white space and the optional sign ("-abc", "+", "") is NaN, which is still sent |
| JsNumber.ParseIntHexPrefix | auth0/src/components/tableProducts.js:150 | after the white space, a "0x" or "0X" prefix makes parseInt read the rest in radix 16 (NaN when no hexadecimal digit follows) |
| JsNumber.ParseIntHexExample | auth0/src/components/tableProducts.js:150 | one instance of the hexadecimal switch: "0x1A" is 26 |
| Entities.Snapshot | auth0/src/components/tableProducts.js:151-161 | the embedded user, as JSON, is exactly the user's record cut down to the nine keys `_id` … `rol` |
| Api.ProductPayload.Body | auth0/src/components/tableProducts.js:145-170 | a create body has exactly nombre, precio, stock, email; an update body has exactly nombre, precio, stock, usuario |
| ProductReconciler.Find | auth0/src/components/tableProducts.js:136 | the lookup finds nothing exactly when no loaded user has the id, and otherwise a loaded user with that id |
| ProductReconciler.FindReturnsFirstMatch | auth0/src/components/tableProducts.js:136 | among users sharing the id, the first one in the list is found |
| ProductReconciler.Reconcile | auth0/src/components/tableProducts.js:143-171 | the payload copies the name and carries parseFloat of the price and parseInt of the stock; it is an update payload exactly when a product is being edited, embedding the user cut down to the nine keys, and otherwise carries the user's email |
| ProductReconciler.Submission | auth0/src/components/tableProducts.js:134-180 | no request exactly when no loaded user has the chosen id; otherwise a POST of a create payload when nothing is being edited, or a PATCH of an update payload to the edited product's id |
| ProductReconciler.CreateSubmission | auth0/src/components/tableProducts.js:163-170 | creating sends exactly nombre (verbatim), precio, stock = parseInt(text) and the first matching user's email |
| ProductReconciler.UpdateSubmission | auth0/src/components/tableProducts.js:145-162 | updating PATCHes the edited product's id with nombre, precio, stock and the first matching user's nine fields, and no top-level email |
| ProductReconciler.SubmissionStockRoundTrip | auth0/src/components/tableProducts.js:145-170 | in both branches a stock typed as the decimal spelling of n is sent as the number n |
| ProductReconciler.PayloadAsymmetry | auth0/src/components/tableProducts.js:143-171 | for the same user, both payloads share name, price and stock; creation carries the email alone, update the full copy with that email |
| ProductReconciler.WidgetExample | auth0/src/components/tableProducts.js:134-180 | the worked example: user "u1", "Widget"/"9.5"/"3" POSTs email "a@x.com" with stock 3, and an edit PATCHes the full copy of "u1" |
| TableProducts.ProductTable.constructor | auth0/src/components/tableProducts.js:8-13 | empty lists, every flag false, no edit target, nothing sent |
| TableProducts.ProductTable.Mount | auth0/src/components/tableProducts.js:15-18 | mounting requests both lists and sets the spinner |
| TableProducts.ProductTable.FetchProducts | auth0/src/components/tableProducts.js:21-24 | the spinner is on while the GET is out; nothing else changes |
| TableProducts.ProductTable.ResumeFetchProducts | auth0/src/components/tableProducts.js:25-30 | the list is replaced wholesale on success and kept on failure; the spinner stops either way |
| TableProducts.ProductTable.FetchUsers | auth0/src/components/tableProducts.js:34-40 | the user GET goes out; nothing else changes |
| TableProducts.ProductTable.ResumeFetchUsers | auth0/src/components/tableProducts.js:41-46 | `usuarios` is replaced on success and kept on failure |
| TableProducts.ProductTable.CreateProduct | auth0/src/components/tableProducts.js:49-52 | the button spins while the POST of exactly the given payload is out |
| TableProducts.ProductTable.ResumeCreateProduct | auth0/src/components/tableProducts.js:53-60 | success refetches and closes the modal, keeping its target; failure keeps the modal; the button stops either way |
| TableProducts.ProductTable.UpdateProduct | auth0/src/components/tableProducts.js:63-66 | the PATCH targets the edited product's id; with no target nothing is sent and the button stops |
| TableProducts.ProductTable.ResumeUpdateProduct | auth0/src/components/tableProducts.js:67-75 | success refetches, closes the modal and clears its target; failure keeps both; the button stops either way |
| TableProducts.ProductTable.DeleteProduct | auth0/src/components/tableProducts.js:78-80 | the DELETE goes out and the cached list is untouched |
| TableProducts.ProductTable.ResumeDeleteProduct | auth0/src/components/tableProducts.js:81-85 | only success refetches; the cached list is never edited here |
| TableProducts.ProductTable.ShowModal | auth0/src/components/tableProducts.js:88-91 | the target becomes the given product (none for a new one) and the modal opens |
| TableProducts.ProductTable.HandleCancel | auth0/src/components/tableProducts.js:93-96 | the modal closes and its target is cleared |
| TableProducts.ProductTable.HandleOk | auth0/src/components/tableProducts.js:134-180 | an unknown user changes nothing; otherwise exactly the request `Submission` describes is sent, through the update or the create handler by the same test |
| TableUsers.UserSubmission | auth0/src/components/tableUsers.js:83-89 | the form values are the body untouched; PUT to the edited user's id exactly when one is being edited, POST otherwise |
| TableUsers.UserTable.constructor | auth0/src/components/tableUsers.js:6-10 | empty list, every flag false, no edit target, nothing sent |
| TableUsers.UserTable.Mount | auth0/src/components/tableUsers.js:12-14 | mounting requests the list and sets the spinner |
| TableUsers.UserTable.FetchUsers | auth0/src/components/tableUsers.js:17-24 | the spinner is on while the GET is out; nothing else changes |
| TableUsers.UserTable.ResumeFetchUsers | auth0/src/components/tableUsers.js:25-32 | the list is replaced wholesale on success and kept on failure; the spinner stops either way |
| TableUsers.UserTable.CreateUser | auth0/src/components/tableUsers.js:34-37 | the button spins while the POST of the form values is out |
| TableUsers.UserTable.ResumeCreateUser | auth0/src/components/tableUsers.js:38-46 | success refetches and closes the modal, keeping its target; failure keeps the modal; the button stops either way |
| TableUsers.UserTable.UpdateUser | auth0/src/components/tableUsers.js:48-51 | the PUT targets the edited user's id; with no target nothing is sent and the button stops |
| TableUsers.UserTable.ResumeUpdateUser | auth0/src/components/tableUsers.js:52-61 | success refetches, closes the modal and clears its target; failure keeps both; the button stops either way |
| TableUsers.UserTable.DeleteUser | auth0/src/components/tableUsers.js:63-65 | the DELETE goes out and the cached list is untouched |
| TableUsers.UserTable.ResumeDeleteUser | auth0/src/components/tableUsers.js:66-70 | only success refetches; the cached list is never edited here |
| TableUsers.UserTable.ShowModal | auth0/src/components/tableUsers.js:73-76 | the target becomes the given user (none for a new one) and the modal opens |
| TableUsers.UserTable.HandleCancel | auth0/src/components/tableUsers.js:78-81 | the modal closes and its target is cleared |
| TableUsers.UserTable.HandleOk | auth0/src/components/tableUsers.js:83-89 | exactly the request `UserSubmission` describes is sent and the button spins |
| Scenarios.FailedProductEditKeepsSession | auth0/src/components/tableProducts.js:63-76 | after a failed PATCH the modal is still open on the same product and the button has stopped |
| Scenarios.SuccessfulProductEditRefetches | auth0/src/components/tableProducts.js:63-76 | after a successful PATCH the modal is closed without a target, and the table then shows exactly the refetched list |
| Scenarios.UnknownUserSendsNothing | auth0/src/components/tableProducts.js:136-141 | choosing a user missing from the loaded list sends nothing and leaves the modal and its target as they were |
| Scenarios.DeleteLeavesListToRefetch | auth0/src/components/tableProducts.js:78-86 | a successful delete leaves the cached list as it was, and so does a failing refetch after it |
| Scenarios.LastShowModalWins | auth0/src/components/tableProducts.js:88-96 | of two showModal calls the second sets the target; cancel then closes and clears it |
| Scenarios.FailedUserEditKeepsSession | auth0/src/components/tableUsers.js:48-61 | an edit sends the form values verbatim in a PUT to that user; after failure the modal stays open on the user |
| Scenarios.CreatedUserRefetches | auth0/src/components/tableUsers.js:34-46 | the button spins while the POST is out; success closes the modal and the table then shows the refetched list |

## Left out

- Rendering: the JSX, the table `columns` and their render functions, and
  the `Table`, `Modal`, `Form` and `Select` widgets. Also the Form `rules`,
  whose required-field checks antd enforces.
- The values the antd Form hands to `onFinish` are taken to be strings, one
  per field. The model does not cover the Form's `initialValues`. When a
  product is edited these come from the product record, whose `usuario` is
  an object rather than an id. So an edit that does not pick the owner again
  submits that object, `find` matches no user, and the edit stops at "Usuario
  no encontrado" with nothing sent; the model's `ProductForm.usuario` is
  always a string id and does not show this path.
- User records: `Entities.User`, `Entities.Snapshot`, `ProductReconciler.UpdateSubmission`
  and `Api.ProductPayload.Body` assume every loaded user carries all nine
  fields `_id` … `rol` as strings. In the source a missing field is copied as
  `undefined` and `JSON.stringify` drops its key, so the embedded `usuario`
  then has fewer than nine keys (and a create body has no `email` key when the
  user has no email); a non-string field is sent as the JSON value it holds.
  Users created through this app's own user form carry only `firtname`,
  `lastname`, `email` and `rol`, so for them the embedded copy lacks `area`,
  `celular`, `documento` and `domicilio`.
- `auth0/src/App.js` (login/logout gating and visibility toggles) is not part
  of this model.
- HTTP itself: URLs, the `params` header string, response decoding (a reply
  is an abstract `Received(value)` or `Failed(message)`), `notification`
  toasts and `console.log`.
- `parseFloat`: floating point is not modelled. The outbound price is the
  value `parseFloat` yields from the typed text, kept symbolic.
- `parseInt`: -0 is folded into 0, which `JSON.stringify` writes as `0`
  anyway. Results beyond 2^53 are not rounded to the nearest Number. Strings
  are sequences of Unicode scalar values, not of UTF-16 code units.
- `DecimalString` gives the decimal spelling that `String(n)` uses only below
  10^21. Exponent notation is not modelled.
- Concurrency in React's sense: batched state updates, stale closures and
  re-renders. Pending replies may resume in any order, but every handler
  runs atomically up to its `await`.
