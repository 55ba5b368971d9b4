# PingTools job-tracking store, in Dafny

The PingTools server keeps one table, `suivis`, that maps a job token
(`ChaineAleatoire`) to a record with the fields `NomDuPoste`, `DateDebut`,
`DateFinTheorique`, `DateFinReelle` and `Statut`. Two things change the table in place:

- a POST to `/api/data`. The first event for a token creates the record, and its
  status is forced to `'En Cours'`. A later event for the same token sets
  `DateFinReelle` and sets `Statut` to the value sent, or to `'Échec'` when that
  value is missing or empty. The handler always answers 200 / `Success`;
- a tick every 60 seconds. It fails (`'Échec'`) every record still `'En Cours'`
  whose `DateFinTheorique` lies strictly before the current instant.

After each of these, the whole table is written to `data.json`. At start-up,
a missing or unreadable file gives an empty table.

Files:

- `wrappers.dfy`: module `Wrappers` holds `Option`. It stands for a request field
  that was not sent, or a date that does not parse.
- `suivi.dfy`: module `Suivi` describes the state as values: the table, and the
  end date and status a post has put on `Object.prototype` (see below).
  - `Submitted` and `Swept` are the two transitions, each with a contract that
    fully determines its result.
  - `Run` applies any sequence of events and ticks. The lemmas about it hold for
    every run.
- `server.dfy`: module `Server` holds the class `Store`. Its `suivis` and `proto`
  fields are updated in place by `Submit` and `Sweep`, and its `written` field
  records the last table written to `data.json`. Each method is proved to leave
  exactly the state that `Submitted` or `Swept` describes. `Sweep` loops over the keys and
  picks them in an arbitrary order, so its result is proved to be the same for
  every visiting order.

JavaScript details that the model keeps:

- A missing token is converted to the property name `"undefined"`.
- The test `!suivis[token]` is also false for the names every object inherits
  from `Object.prototype` (`constructor`, `__proto__`, `toString`, …) when the
  table has no own entry of that name (`InheritedNames`). The handler's two
  assignments then land on the inherited value and not on the table:
  - under `__proto__` they land on `Object.prototype` itself, which then holds
    a `DateFinReelle` and a non-empty `Statut`. The state keeps these two values
    in `proto` (type `Prototype`), next to the table. Every object inherits them,
    with two consequences. First, a later first post under the token `Statut`
    (or `DateFinReelle`, when its value is non-empty) finds a value and creates
    nothing. Second, the destructuring of a request body reads them: a body
    that lacks `Statut` or `DateFinReelle` gets the value on `Object.prototype`
    (`Read`), both for a record's update and for a later `__proto__` post;
  - under any other inherited name they land on a built-in function, or on a
    primitive string where the assignment is silently dropped (the file is not
    in strict mode). No lookup on the table changes.
- `Statut || 'Échec'` treats `""` like a missing status (`Truthy`, `Completed`).
- `new Date(x) < now` is false when `x` is missing or not a date. Such a record
  is never timed out, because `DateFinTheorique` is kept as `Option<int>`, the
  instant in milliseconds.
- `Statut` is any string. The code does not enforce a three-status lifecycle,
  and no status is terminal: a later event may overwrite any status, including
  setting it back to `'En Cours'`. The model follows the code.

## Model

| member | source | states |
|---|---|---|
| `Suivi.Submitted` | server.js:19-26 | The end date and status used are those the body's destructuring reads: the value sent, or the one on `Object.prototype` when the body lacks the field. Then exactly one of four outcomes. (1) For a token that finds nothing, the record is created with the name, start and expected end that were sent, no end date, and status `'En Cours'` whatever status was sent. (2) For an own entry, the end date is replaced by the one read (even when missing), the status by `Completed` of the one read, and the name, start and expected end are kept. (3) For `__proto__` with no own entry, the table is unchanged, and `Object.prototype` gets the end date read and the non-empty status `Completed` of the one read. (4) For any other inherited name, nothing changes. Every other entry is unchanged, no key is removed, and at most the token's key is added. |
| `Suivi.Completed` | server.js:25 | The status after a later event is never empty. It is the status sent when that status is non-empty, and `'Échec'` otherwise. |
| `Suivi.Swept` | server.js:36-40 | The sweep keeps the key set. Every record that is `'En Cours'` with an expected end strictly before `now` becomes that same record with status `'Échec'`. Every other record is unchanged in every field. Afterwards no record is overdue at `now`. |
| `Suivi.SweptIdempotent` | server.js:36-40 | A second sweep at the same instant leaves the table the first one produced. |
| `Suivi.SweptLater` | server.js:34-40 | A sweep at `t1` followed by one at `t2 >= t1` gives the same table as the sweep at `t2` alone. |
| `Suivi.RunKeepsRecords` | server.js:21-39 | Over any sequence of events and ticks, no record is ever removed. A record's name, start and expected end never change after it is created. |
| `Suivi.RunKeysArePosted` | server.js:21-22 | Over any run, every key in the table was there at the start or is the key of a posted event. |
| `Suivi.RunStatutsFromInputs` | server.js:19-38 | Over any run, a record's status is its initial status, `'En Cours'`, `'Échec'`, a non-empty status that some posted event sent, or the status `Object.prototype` held at the start. The status on `Object.prototype` comes from the same sources. |
| `Suivi.RunProtoOnlyViaProtoKey` | server.js:21-25 | Over any run with no post under `__proto__`, the values on `Object.prototype` stay as they were. Once `Object.prototype` holds a non-empty status, it keeps a non-empty one. |
| `Suivi.ScenarioOpenThenClose` | server.js:21-25 | An open event followed by a close event with status `Succès` gives status `Succès`, the end date that was sent, and the original name. |
| `Suivi.ScenarioTimeout` | server.js:21-38 | A job with no token and an expected end in the past is filed under `"undefined"` and is failed by the next tick. |
| `Suivi.ScenarioProtoShadowsStatut` | server.js:21-25 | After a post under `__proto__`, a first post under the token `Statut` leaves the table empty. |
| `Suivi.ScenarioProtoFillsMissingFields` | server.js:19-25 | After a post under `__proto__` with end date `D` and status `X`, a close post for an existing job that sends neither gives that job status `X` and end date `D`. |
| `Suivi.ScenarioProtoKeepsDate` | server.js:19-25 | A second post under `__proto__` that sends no end date keeps the one already there. A first post under the token `DateFinReelle` then creates nothing. |
| `Server.Store.constructor` | server.js:10 | The store starts from the table that was read. When the read failed, it starts from an empty table, and this is never an error. Nothing has been put on `Object.prototype` yet. |
| `Server.Store.Submit` | server.js:18-31 | The handler changes the table and the values on `Object.prototype` in place to exactly `Submitted` of their old values and the event. It then writes the whole table out and always answers 200 `Success`, so there is no error path. |
| `Server.Store.Sweep` | server.js:34-42 | The tick changes the table in place to exactly `Swept(old table, now)`, for any order in which it visits the keys, and leaves `Object.prototype` alone. It then writes the whole table out. |

## Left out

- HTTP plumbing is not modelled. This covers Express routing, JSON body parsing, the static files, the GET `/` page rendering and `app.listen` (server.js:1-8, 13-15, 44-46).
- Date parsing (`new Date(...)`) comes from the JavaScript runtime. `DateFinTheorique` is taken already parsed, as `Option<int>`.
- Timing is not modelled. `setInterval` and the wall clock become the `now` parameter of `Sweep`.
- JSON (de)serialisation of `data.json` is taken as the identity on the table. The load assumes that every value in the file is a record.
- Request fields are modelled as strings or missing. A missing field reads the inherited value, which only `Statut` and `DateFinReelle` can have. Non-string JSON values are not modelled: numbers, `null`, booleans or objects as a token or status.
- Values assigned through an inherited name are modelled only where they reach `Object.prototype`. Their effect on records that have no own `DateFinReelle` is not modelled: such a record inherits the value. The page template that might show it is not part of this model, and `data.json` holds own properties only.
- `Server.Store.Submit` does not model a failing write of `data.json`. That write throws before the acknowledgement is sent, while the model treats every write as succeeding.
- `Server.Store.Sweep` does not model a failing write of `data.json` either. That write throws inside the timer callback, and the server registers no handler for uncaught exceptions, so the throw ends the Node process.
- Fils/PingTools_API/app.js is a stub server that logs the body and answers a constant. It has no logic.
- Fils/PingTools_API/public/script.js is browser polling and DOM rendering. It has no decisions.
