# Data-access gateway and header path helpers: a Dafny model

This project models two pieces of the application's logic.

- **The data-access gateway** (`server/access/db.js`). It has three parts:
  - the lazily filled, process-wide connection slot (`connect`);
  - the dispatcher (`wrapped`). It routes each exported operation either to the
    connection handle or to a collection named by the call's first argument;
  - the argument normaliser (`processArguments`). It turns a truthy top-level
    `_id` of each non-array object argument into a driver ObjectID.
- **The header's path helpers** (`client/ui/header.js`): `segment(path, index)`
  and `cleanPath()`.

Everything is modelled with pure functions over immutable datatypes:

- JavaScript values are the `JsValue.JVal` datatype, together with JavaScript
  truthiness and the `typeof … === 'object'` test.
- The `db` slot is an `Option<Handle>`.
- `connect` is a state transition. Its inputs are the slot, the `verbose` flag
  and the outcome the driver's dial would have. Its output is the new slot, the
  promise's outcome and the status lines logged.
- A wrapped operation does not execute anything. It returns the driver call the
  gateway makes: the target (handle or collection), the method name and the
  normalised arguments. The gateway hands the driver's answer back unchanged.
- The driver's ObjectID constructor and `db.collection(name)` are parameters,
  bundled in `DbDispatch.Driver`. Each may fail.

Modules, one per file:

| file | module | models |
|---|---|---|
| wrappers.dfy | Wrappers | `Option`, `Result` |
| js_value.dfy | JsValue | JavaScript values, truthiness, `typeof` |
| db_connection.dfy | DbConnection | `connect` and the `db` slot |
| db_arguments.dfy | DbArguments | `processArguments` |
| db_dispatch.dfy | DbDispatch | `wrapped` and the exported operation table |
| string_split.dfy | StringSplit | `String.prototype.split` on single-character separators |
| header_path.dfy | HeaderPath | `segment`, `cleanPath` |

Three behaviours of the code worth knowing:

- **Calling an operation before connecting.** The code has no explicit
  check for a missing connection. `db` is still `false`, so `db.collection(...)`
  or `db[key].apply(...)` throws a `TypeError`. The model names this outcome
  `NotConnected`. It is raised before any other work, which is where the
  `TypeError` arises.
- **Concurrent dials.** The code does not deduplicate concurrent dials. The model
  has no single-flight guard. It treats `connect` calls as completing one after
  another.
- **A `null` argument.** `typeof null === 'object'`, so `processArguments` reads
  `null._id` and throws. The model returns `Failure(NullArgument)`; it does not
  pass `null` through.

## Model

| member | source | states |
|---|---|---|
| DbConnection.Connect | server/access/db.js:22-39 | If a handle is stored, the call returns it, does not dial, logs nothing whatever `verbose` is, and keeps the slot. Otherwise it dials once. A success stores exactly the dialled handle and resolves with it. A failure leaves the slot empty and rejects with the driver's error unchanged. Status lines appear only when `verbose` is true: "connecting", then "connected" or "failed". |
| DbConnection.StoredHandleIsKept | server/access/db.js:24 | Once a handle is stored, any later sequence of `connect` calls resolves every call with that same handle and never replaces it. |
| DbConnection.ConnectRun | server/access/db.js:12-37 | Across a sequence of `connect` calls sharing the process-wide `db` slot there is one outcome per call. A stored handle is never replaced or dropped, and every call that resolved did so with the handle the slot ends up holding. |
| DbConnection.FirstSuccessWins | server/access/db.js:24-37 | From the unconnected state, a sequence of `connect` calls ends holding exactly the handle of the first dial that succeeds, or nothing if none does. A call fails exactly when its own dial and every earlier dial failed, and then with its own dial's error. |
| DbConnection.RetryAfterFailure | server/access/db.js:28-36 | After a failed dial, a later `connect` whose dial succeeds connects with that handle. |
| JsValue.FalsyValues | server/access/db.js:71 | Of the modelled values, exactly six are falsy: `undefined`, `null`, `false`, `0`, `NaN` and `""`. Every object, array and non-empty string is truthy. |
| JsValue.TypeofObjectCases | server/access/db.js:69 | `typeof v === 'object'` holds exactly for `null`, arrays, plain objects and ObjectID instances. It fails for `undefined`, booleans, numbers, strings and functions. |
| DbArguments.NormaliseArg | server/access/db.js:68-74 | One argument fails exactly when it is `null` or when it has a truthy `_id` that the ObjectID constructor rejects. That constructor error is propagated. Arrays, primitives, functions, ObjectIDs and objects without a truthy `_id` come back unchanged; a falsy `_id` such as `""` or `0` counts as not truthy. A rewritten object keeps its keys and holds the ObjectID in `_id`. Every other field, nested `_id`s included, is unchanged. |
| DbArguments.NormaliseArgs | server/access/db.js:67-78 | The list succeeds exactly when every argument does. The result has the same length and order, and each element is treated independently. On failure, the error is that of the first failing argument. |
| DbArguments.NormaliseArgIdempotent | server/access/db.js:69-73 | If the ObjectID constructor returns any ObjectID it is given unchanged, normalising an argument a second time changes nothing. |
| DbArguments.NormaliseArgsIdempotent | server/access/db.js:67-78 | Under the same condition on the constructor, a second pass of `processArguments` over already processed arguments changes nothing. |
| DbArguments.NormaliseExamples | server/access/db.js:69-72 | An array and an object without `_id` pass through. Objects whose `_id` is `""` or `0` pass through. A `null` argument fails even after a good one. |
| DbDispatch.Wrapped | server/access/db.js:48-59 | Without a stored handle, every call fails with `NotConnected`, before anything else happens. A database-level call sends all of its normalised arguments to `key` on the handle. A collection-level call resolves the collection from the raw first argument; a resolution failure stops the call before normalisation. It then sends the normalised remaining arguments, in order, to `key` on that collection. A normalisation failure is the first one `processArguments` raises. |
| DbDispatch.Invoke | server/access/db.js:81-88 | Each exported operation is `wrapped` with its own method name. Only `collection` goes to the handle; `insert`, `update`, `updateOne`, `find`, `remove`, `findOne` and `count` go to a collection. |
| DbDispatch.OperationTable | server/access/db.js:81-88 | The table binds eight distinct method names. `collection` is the only database-level operation. |
| DbDispatch.Forwarded | server/access/db.js:53-54 | The collection name (`args[0]`) followed by the forwarded arguments (`args.slice(1)`) is exactly the call's argument list. A call with no arguments forwards none. |
| DbDispatch.CollectionNameIsNotNormalised | server/access/db.js:52-54 | For a collection-level operation, the first argument is handed raw to `db.collection`, even when it is `null` or carries a malformed `_id`. Only the remaining arguments are normalised and forwarded. |
| StringSplit.Split | client/ui/header.js:70 | `split` on a single-character separator yields one more piece than the string has separator characters. |
| StringSplit.PiecesHaveNoSeparator | client/ui/header.js:70 | No piece produced by `split` contains a separator character. |
| StringSplit.JoinSplit | client/ui/header.js:70 | Joining the pieces of `split('/')` with `/` restores the string. |
| StringSplit.FirstPiece | client/ui/header.js:79 | The first piece of a split is the longest separator-free prefix of the string. |
| HeaderPath.DropFirst | client/ui/header.js:70 | `substr(1)` removes exactly the first character, whether or not it is `/`. The empty string stays empty. |
| HeaderPath.Segment | client/ui/header.js:69-71 | The result is present exactly when the index is in range (negative indices are not) and the piece at that index of (path minus its first character) split on `/` is non-empty. It is then that piece: non-empty and free of `/`. |
| HeaderPath.SegmentsRebuildPath | client/ui/header.js:70 | The pieces `segment` indexes, joined with `/`, give back the path minus its first character. |
| HeaderPath.SegmentExamples | client/ui/header.js:70 | Worked cases on `/ab/c`: pieces 0 and 1, out-of-range indices including -1, and a first character that is not a slash. |
| HeaderPath.SegmentOfDoubledSlash | client/ui/header.js:70 | A doubled slash yields an empty piece, which reads as `null`. |
| HeaderPath.SegmentOfTrailingSlash | client/ui/header.js:70 | A trailing slash yields an empty last piece, which reads as `null`. |
| HeaderPath.CleanPath | client/ui/header.js:78-80 | The result is the prefix of the path before the first `#` or `?`, or the whole path if neither occurs. It contains neither character. |
| HeaderPath.CleanPathOfCleanPath | client/ui/header.js:79 | A path free of `#` and `?` is returned as it is. |
| HeaderPath.CleanPathIdempotent | client/ui/header.js:79 | Cleaning a cleaned path changes nothing. |
| HeaderPath.CleanPathExamples | client/ui/header.js:79 | `/p?x#y` and `/p#x?y` both clean to `/p`. |

## Left out

- I/O and asynchrony: promises, the real dial, the configuration lookup of the connection URL, and the text and levels of the log lines. The dial's outcome is an input, and a log line is a `Status` marker.
- Concurrency: several `connect` calls in flight at once, each dialling on its own, are not modelled. Calls complete one after another.
- DbConnection.StoredHandleIsKept: holds only for `connect` calls that finish one after another. In the source, overlapping calls all pass the `if (db)` test at db.js:24 and all dial; each successful dial runs `db = result`, so the last success replaces the stored handle, and an earlier caller keeps a handle the slot no longer holds.
- DbConnection.FirstSuccessWins: holds only for `connect` calls that finish one after another. With overlapping dials the source keeps the handle of the last dial to succeed, not the first.
- DbConnection.Connect: `verbose` is a boolean. The source defaults it to `true` and tests its truthiness, so `connect()` is `Connect(slot, true, dial)`, and a falsy non-boolean such as `0` behaves like `false`.
- The driver: executing the dispatched call, parsing an ObjectID from hex, and the rules `db.collection(name)` applies to names. All three are uninterpreted parameters.
- A method name missing from the target (`collection[key]` is not a function): every name in the table exists on the driver, so this case is not modelled.
- In-place mutation and aliasing: `processArguments` rewrites the caller's objects in place. If one object is passed twice, its second occurrence sees the ObjectID written by the first. The model uses value semantics and treats each occurrence on its own. Objects rewritten before a later argument throws stay rewritten in the source; in the model the failure just discards the list.
- JsValue.FalsyValues: BigInt and Symbol primitives are not modelled, so `0n` is missing from the falsy list, and numbers are reals, so `-0` is the same value as `0`.
- Prototype properties: the model (`JsValue.OwnProperty`) reads own properties only, while the JavaScript read `arg._id` also finds an inherited `_id` (and the assignment that follows then creates an own one). Inherited `_id` values, getters and other exotic objects (`Date`, `RegExp`, …) are not modelled; an ObjectID instance is the only non-plain object.
- HeaderPath.DropFirst, HeaderPath.Segment: strings are sequences of Unicode characters, not UTF-16 code units. `substr(1)` drops one code unit, so for a path whose first character lies outside the Basic Multilingual Plane the source keeps a lone surrogate that the model cannot represent, and the results differ.
- `segment` with a non-integer or non-number index: the index is an integer. JavaScript yields `undefined`, hence `null`, for fractional indices.
- `cleanPath` reading `router.path`: the path is a parameter. The router itself is not part of this model.
- The header's `init`, `created`, `toggle` and `logout`, and client/routes.js and client/component/wysiwyg-editor.js: Vue wiring, DOM listeners and a declarative route table, with no logic of their own to state.
