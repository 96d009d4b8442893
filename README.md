# hapi MySQL plugin: pool lifecycle model

A Dafny model of the connection-pool lifecycle of `@cospired/hapi-plugin-mysql-promise`
(`lib/index.js`). The plugin keeps one process-wide MySQL pool in the module-level
`internals.pool`:

- `init(options, callback)` refuses to replace a live pool when it gets options. It accepts empty options on a live pool as a no-op. It refuses options without a `host` key and a factory that returns no pool. Otherwise it runs a liveness check: acquire one connection and release it. If that check fails, it stops the new pool.
- `stop(server, next)` normalises its arguments. It then ends the pool and discards it whatever `end()` does. It reports `end()`'s error only to a continuation.
- `attachConnection` binds one acquired connection to `request.app.db`, or answers 500 with the rejection.
- `tail` releases the bound connection at request end, if the slot is still set.
- `register` runs `init`. On an error it passes the error on and installs no hooks.

The model has four modules:

- `Wrappers` (`wrappers.dfy`): `Option` and `Result`.
- `PoolLifecycle` (`lifecycle.dfy`): the state machine as functions over a value `Machine(pool, released)`. `released` logs every `release()` call the plugin makes. The module also holds one lemma per promised outcome.
- `MysqlPlugin` (`plugin.dfy`): the source's own shape. The class `Internals` has a mutable `pool` field and a ghost release log. Its methods follow the source's branches statement by statement, and each one is proved equal to its `PoolLifecycle` function. The class `Request` holds the `request.app.db` slot. A few client methods replay the scenarios of the source's tests.
- `Traces` (`traces.dfy`): arbitrary sequences of init, stop and request events. Lemmas by induction show three things. A live pool is never swapped for another, and it lasts until a stop. Every pool is one the factory returned when init reached it. The release log gains only a subsequence of the connections the driver actually handed out, in a liveness check that ran or a request on a live pool, so nothing is released twice per handout.

The driver is not modelled. Its behaviour enters as parameters:

- `created`: the factory returns a pool or a falsy value.
- `probe` and `acquire`: `getConnection` resolves with a connection or rejects.
- `end`: `end()` resolves or rejects.

Three behaviours of the code worth noting:

- `stop` on an absent pool dereferences `internals.pool` unguarded and throws a TypeError (`PoolTypeError`). It is not a no-op. See `PoolLifecycle.SecondStopThrows`.
- The host check is `hasOwnProperty('host')`, presence only. An empty host passes (`PoolLifecycle.EmptyHostPassesValidation`).
- `getConnection`, and so `attachConnection`, also throw on an absent pool (`GetTypeError`, `TypeErrorThrown`).

## Model

| member | source | states |
|---|---|---|
| PoolLifecycle.Continuation | lib/index.js:36-40 | the continuation is `next` when given; otherwise the first argument exactly when it is a function; otherwise none |
| PoolLifecycle.Stop | lib/index.js:36-58 | throws exactly when no pool is live, then changes nothing; otherwise the pool is always absent afterwards; the continuation is called exactly when one was supplied, with `end`'s error or none |
| PoolLifecycle.Init | lib/index.js:60-98 | a live pool is never replaced; afterwards a pool is live exactly when init succeeded or refused with "There is already a pool configured"; a new pool is the factory's; only the liveness-check connection is released, and only when a new pool came up |
| PoolLifecycle.Register | lib/index.js:100-131 | hooks are installed exactly when init reported no error; the error and the state are init's |
| PoolLifecycle.GetConnection | lib/index.js:24-27 | throws exactly when no pool is live; otherwise hands back the pool's pending acquisition |
| PoolLifecycle.Attach | lib/index.js:10-22 | continues exactly when a pool is live and acquisition succeeds, with the connection bound in the slot; answers 500 with the rejection exactly when acquisition fails, slot untouched; throws exactly on an absent pool |
| PoolLifecycle.Tail | lib/index.js:29-34 | releases at most one connection, exactly one when the slot is set, and only the slot's connection |
| PoolLifecycle.ServeRequest | lib/index.js:10-34 | one request never changes the pool; it releases at most one connection, exactly when a pool is live, acquisition succeeded and the handler left the slot set, and that connection is the acquired one |
| PoolLifecycle.ReinitWithOptionsRejected | lib/index.js:62-76 | live pool and non-empty options: error "There is already a pool configured", state unchanged |
| PoolLifecycle.ReinitWithoutOptionsIsNoOp | lib/index.js:62-76 | live pool and empty options: success, state unchanged, no pool created |
| PoolLifecycle.MissingHostRejected | lib/index.js:78-81 | no pool and no `host` key: error "Options must include host property", state unchanged |
| PoolLifecycle.EmptyHostPassesValidation | lib/index.js:78-81 | the host check is presence only: an empty host string is not refused by it |
| PoolLifecycle.NoPoolFromFactory | lib/index.js:83-86 | factory returns no pool: error "No mysql pool found", pool stays absent |
| PoolLifecycle.LivenessCheckPasses | lib/index.js:88-93 | the check's connection is released exactly once, the factory's pool becomes live, init succeeds |
| PoolLifecycle.LivenessCheckFails | lib/index.js:88-97 | a failed check stops the pool whatever `end` does, leaves it absent, and passes the rejection on |
| PoolLifecycle.InitSucceedsIff | lib/index.js:60-98 | init succeeds exactly for empty options on a live pool, or with no pool, a host, a pool from the factory and a passing check |
| PoolLifecycle.FailedInitAllowsRetry | lib/index.js:60-98 | any failed init without a pool leaves it absent, so a following init with a host, a pool and a passing check succeeds |
| PoolLifecycle.StopDiscardsPool | lib/index.js:44-57 | on a live pool, stop leaves it absent and releases nothing; `next` gets `end`'s error or none; with no continuation nothing is reported |
| PoolLifecycle.StopArgumentNormalisation | lib/index.js:38-40 | a lone function becomes the continuation; a given `next` wins over the first argument; otherwise there is none |
| PoolLifecycle.SecondStopThrows | lib/index.js:44-52 | after any stop the pool is absent, so a second stop throws |
| PoolLifecycle.BoundConnectionReleasedOnce | lib/index.js:10-34 | a request whose connection stays bound continues and releases that connection exactly once |
| PoolLifecycle.ClearedSlotReleasesNothing | lib/index.js:29-34 | a handler that clears the slot: the request continues, nothing is released, state unchanged |
| PoolLifecycle.FailedAcquireResponds500 | lib/index.js:18-21 | failed acquisition: reply 500 with the rejection, slot unset, nothing released |
| MysqlPlugin.Internals.constructor | lib/index.js:6-8 | the pool starts absent and nothing is released |
| MysqlPlugin.Internals.GetConnection | lib/index.js:24-27 | the result is `GetConnection`'s for the current `pool` field: a throw exactly when it is absent, otherwise the pool's acquisition |
| MysqlPlugin.Internals.AttachConnection | lib/index.js:10-22 | the new slot and the reply are `Attach`'s for the current pool and the old slot |
| MysqlPlugin.Internals.Tail | lib/index.js:29-34 | the pool is unchanged and the release log gains exactly `Tail` of the slot |
| MysqlPlugin.Internals.Stop | lib/index.js:36-58 | the new state and the outcome are `Stop`'s of the old state |
| MysqlPlugin.Internals.Init | lib/index.js:60-98 | the new state and the callback's error are `Init`'s of the old state |
| MysqlPlugin.Internals.Register | lib/index.js:100-131 | the new state, the error and whether hooks are installed are `Register`'s of the old state |
| Traces.Step | lib/index.js:10-98 | one event never swaps a live pool for another; only stop removes a live pool; a pool that appears is the factory's, from an init that found no pool and a `host` key |
| Traces.LivePoolSurvivesUntilStop | lib/index.js:60-76 | across any events without a stop, a live pool stays the same pool |
| Traces.PoolsComeFromFactory | lib/index.js:78-86 | after any events, a live pool is the initial one or one the factory returned to an init that reached it (no live pool, a `host` key) |
| Traces.ReleasesFollowHandouts | lib/index.js:10-98 | the release log only grows, and what it gains is a subsequence of the connections the driver handed out: liveness checks of inits that got a pool, acquisitions of requests on a live pool |
| Traces.ReleasesBoundedByHandouts | lib/index.js:10-98 | the plugin never releases more connections than the driver handed out along the run, and only ones it handed out |
| Traces.RequestsReleaseRetained | lib/index.js:10-34 | on a live pool, requests keep the pool and release exactly the connections left bound to their end, in order |

## Left out

- hapi integration: `server.ext`, `server.on('tail' | 'stop')`, the `getDb` decoration, `server.log` and the `once` / `connections` registration attributes (lib/index.js:109-138). Registering only once is hapi's guarantee, not this code's. `Register` records only whether the hooks are installed.
- The mysql2 driver and `Hoek.clone`. The pool is opaque. The outcome of each of its calls is a parameter.
- Promise scheduling. The pool is deleted inside `.then` / `.catch`, after `init`'s error callback has run. The model treats `end()` as settling at once. It also treats each `init`, including its liveness check and the `stop` after a failed check, as one uninterrupted step. The same holds for each request, from `attachConnection` through the handler to `tail`. In the source, the pool is live from lib/index.js:84 until the check settles. In that window an `init({})` succeeds and requests can acquire from the pool. Between a request's acquire and its release, other inits, stops and requests can run.
- FailedInitAllowsRetry, LivenessCheckFails: hold only once the stopped pool's `end()` has settled. `callback(err)` (lib/index.js:96), and so `register`'s `next(err)` (lib/index.js:105), runs while `internals.pool` is still set. An init issued from inside that callback is refused with "There is already a pool configured" (lib/index.js:65-68).
- SecondStopThrows: holds only once the first `end()` has settled; a second `stop` in the same tick still finds the pool and does not throw.
- Queries and every HTTP response other than `attachConnection`'s 500. The request handler is user code. It is modelled only by whether it clears `request.app.db`.
- `console.log("yippee")` (lib/index.js:71).
- Register: driver rejections are taken to be truthy, as mysql2's error objects are (`Cause` excludes the empty string). A falsy rejection of the liveness check would pass the `if(err)` test at lib/index.js:104, so `register` would install its hooks and call `next()` after `init` had stopped the pool; the model does not cover that case.
- Init, Stop, Attach: a success handler that throws also runs the `.catch` branch, because `.catch` is chained after `.then` (lib/index.js:12-21, 44-57, 89-97). In `init`, a throwing `callback()` or `conn.release()` stops the pool, and then the callback runs a second time with the thrown error. In `stop`, a throwing `next()` is called a second time with that error. In `attachConnection`, a throwing `reply.continue()` also produces the 500 reply. The model covers only callbacks that return normally, so each callback is called once.
- Options that are not objects, where `Object.keys` would throw. A `next` argument to `stop` that is truthy but not a function.
- What hapi does with a TypeError thrown by `attachConnection` on an absent pool. `ServeRequest` assumes the slot stays unset, so `tail` releases nothing.
