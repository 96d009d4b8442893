/**
 * The pool-lifecycle state machine of the hapi MySQL plugin, as functions over values.
 *
 * The plugin keeps one module-level pool. `init` validates its options, asks the driver's
 * factory for a pool and runs a liveness check; `stop` ends the pool and always discards it;
 * per request, `attachConnection` binds one acquired connection to the request and `tail`
 * releases it at request end. The driver (the factory, `getConnection`, `end`) is not modelled:
 * how each of its calls turns out is a parameter.
 */
module PoolLifecycle {
  import opened Wrappers

  /** Identity of a pool object returned by the driver's factory. */
  type PoolId = nat
  /** Identity of a connection handed out by the pool. */
  type Conn = nat
  /**
   * A rejection value from the driver, passed on unchanged. It is truthy (the driver rejects
   * with error objects), so the plugin's `if (err)` tests always see it as an error.
   */
  type Cause = s: string | s != "" witness "error"
  /** Identity of a JavaScript function passed to `stop`. */
  type FnId = nat

  /** A JavaScript option value; the plugin inspects only the keys of its options. */
  datatype Value = Str(s: string) | Bool(b: bool) | Num(n: int)
  /** The options object given to `init`: its own keys and their values. */
  type Options = map<string, Value>

  const AlreadyConfiguredMsg: string := "There is already a pool configured"
  const MissingHostMsg: string := "Options must include host property"
  const NoPoolMsg: string := "No mysql pool found"

  /** What a callback receives as its error: an `Error` the plugin builds, or a driver rejection. */
  datatype Failure = PluginError(message: string) | Rejection(cause: Cause)

  /**
   * The state `init` and `stop` share: the module-level pool (absent when null, undefined or
   * deleted) and the connections on which the plugin has called `release`, in call order.
   */
  datatype Machine = Machine(pool: Option<PoolId>, released: seq<Conn>)

  // ---------------------------------------------------------------- stop

  /** The first argument of `stop`: absent, a function, or any other value (such as a server). */
  datatype Arg = Missing | Function(fn: FnId) | Other

  /** A call of the continuation, with the error it is given. */
  datatype Call = Call(fn: FnId, err: Option<Cause>)

  /** `stop` either throws a TypeError on an absent pool, or ends the pool and maybe calls back. */
  datatype StopOutcome = PoolTypeError | Ended(notified: Option<Call>)

  datatype StopStep = StopStep(after: Machine, outcome: StopOutcome)

  /**
   * The continuation `stop` uses: the second argument when given; otherwise the first, when it
   * is a function; otherwise none.
   */
  function Continuation(server: Arg, next: Option<FnId>): (k: Option<FnId>)
    ensures next.Some? ==> k == next
    ensures next.None? ==> (k.Some? <==> server.Function?)
    ensures k.Some? && next.None? ==> server == Function(k.value)
  {
    if server.Function? && next.None? then Some(server.fn) else next
  }

  /**
   * `stop(server, next)`. `end` is how the pool's `end()` settles: `None` when it resolves,
   * `Some(cause)` when it rejects.
   */
  function Stop(m: Machine, server: Arg, next: Option<FnId>, end: Option<Cause>): (r: StopStep)
    ensures r.outcome.PoolTypeError? <==> m.pool.None?
    ensures r.outcome.PoolTypeError? ==> r.after == m
    ensures r.after.pool.None? && r.after.released == m.released
    ensures r.outcome.Ended? ==> (r.outcome.notified.Some? <==> Continuation(server, next).Some?)
    ensures r.outcome.Ended? && r.outcome.notified.Some? ==>
              r.outcome.notified.value.fn == Continuation(server, next).value &&
              r.outcome.notified.value.err == end
  {
    var k := Continuation(server, next);
    if m.pool.None? then
      StopStep(m, PoolTypeError)
    else
      StopStep(Machine(None, m.released), Ended(if k.Some? then Some(Call(k.value, end)) else None))
  }

  // ---------------------------------------------------------------- init

  datatype InitStep = InitStep(after: Machine, err: Option<Failure>)

  /**
   * `init(options, callback)`. `err` is what the callback receives when it returns normally;
   * a callback that throws is not modelled (see README).
   * `created` is what the factory returns (a pool or a falsy value), `probe` how the
   * liveness check's `getConnection` settles, and `end` how the pool's `end()` settles when a
   * failed liveness check stops the pool.
   */
  function Init(m: Machine, opts: Options, created: Option<PoolId>, probe: Result<Conn, Cause>,
                end: Option<Cause>): (r: InitStep)
    // a live pool is never replaced
    ensures m.pool.Some? ==> r.after.pool == m.pool
    // afterwards a pool is live exactly when init succeeded or refused to replace a live pool
    ensures r.after.pool.Some? <==> r.err.None? || r.err == Some(PluginError(AlreadyConfiguredMsg))
    // a pool that init installs is the one the factory returned
    ensures m.pool.None? && r.after.pool.Some? ==> r.after.pool == created
    // the one connection released is the liveness check's, and only when a new pool came up
    ensures m.pool.None? && r.err.None? ==>
              probe.Ok? && r.after.released == m.released + [probe.value]
    ensures !(m.pool.None? && r.err.None?) ==> r.after.released == m.released
  {
    if m.pool.Some? then
      InitStep(m, if |opts| > 0 then Some(PluginError(AlreadyConfiguredMsg)) else None)
    else if "host" !in opts then
      InitStep(m, Some(PluginError(MissingHostMsg)))
    else if created.None? then
      InitStep(Machine(created, m.released), Some(PluginError(NoPoolMsg)))
    else
      match probe
      case Ok(conn) => InitStep(Machine(created, m.released + [conn]), None)
      case Err(cause) =>
        InitStep(Stop(Machine(created, m.released), Missing, None, end).after, Some(Rejection(cause)))
  }

  datatype RegisterStep = RegisterStep(after: Machine, err: Option<Failure>, hooksInstalled: bool)

  /**
   * The part of `register` that belongs to the lifecycle: it runs `init`; on an error it passes
   * the error to `next` and installs nothing, otherwise it installs its hooks and calls `next()`.
   */
  function Register(m: Machine, opts: Options, created: Option<PoolId>, probe: Result<Conn, Cause>,
                    end: Option<Cause>): (r: RegisterStep)
    ensures r.hooksInstalled <==> r.err.None?
    ensures r.err == Init(m, opts, created, probe, end).err
    ensures r.after == Init(m, opts, created, probe, end).after
  {
    var step := Init(m, opts, created, probe, end);
    RegisterStep(step.after, step.err, step.err.None?)
  }

  // ---------------------------------------------------------------- per request

  /** `getConnection()` throws on an absent pool, otherwise returns the pool's pending connection. */
  datatype Acquire = GetTypeError | Pending(outcome: Result<Conn, Cause>)

  function GetConnection(pool: Option<PoolId>, acquire: Result<Conn, Cause>): (r: Acquire)
    ensures r.GetTypeError? <==> pool.None?
    ensures r.Pending? ==> r.outcome == acquire
  {
    if pool.None? then GetTypeError else Pending(acquire)
  }

  /** How `attachConnection` answers the request: continue, respond with an error, or throw. */
  datatype Reply = Continue | Respond(status: nat, body: Cause) | TypeErrorThrown

  /** The request's connection slot after `attachConnection`, and its answer. */
  datatype AttachStep = AttachStep(slot: Option<Conn>, reply: Reply)

  /**
   * `attachConnection(request, reply)`: `slot` is `request.app.db` before the call, `acquire`
   * how the pool's `getConnection` settles.
   */
  function Attach(pool: Option<PoolId>, slot: Option<Conn>, acquire: Result<Conn, Cause>): (r: AttachStep)
    ensures r.reply.Continue? <==> pool.Some? && acquire.Ok?
    ensures r.reply.Continue? ==> acquire.Ok? && r.slot == Some(acquire.value)
    ensures !r.reply.Continue? ==> r.slot == slot
    ensures r.reply.Respond? <==> pool.Some? && acquire.Err?
    ensures r.reply.Respond? ==> acquire.Err? && r.reply == Respond(500, acquire.error)
    ensures r.reply.TypeErrorThrown? <==> pool.None?
  {
    match GetConnection(pool, acquire)
    case GetTypeError => AttachStep(slot, TypeErrorThrown)
    case Pending(Ok(conn)) => AttachStep(Some(conn), Continue)
    case Pending(Err(cause)) => AttachStep(slot, Respond(500, cause))
  }

  /** `tail(request)`: the connections released at request end, given the slot's value then. */
  function Tail(slot: Option<Conn>): (released: seq<Conn>)
    ensures |released| <= 1
    ensures |released| == 1 <==> slot.Some?
    ensures forall c :: c in released ==> slot == Some(c)
  {
    if slot.Some? then [slot.value] else []
  }

  datatype RequestStep = RequestStep(after: Machine, reply: Reply)

  /**
   * One request as the hooks drive it: `attachConnection` on a fresh request, then the handler
   * (which runs only when the request continued, and may clear the slot), then `tail`.
   */
  function ServeRequest(m: Machine, acquire: Result<Conn, Cause>, clears: bool): (r: RequestStep)
    ensures r.after.pool == m.pool
    ensures r.reply == Attach(m.pool, None, acquire).reply
    ensures |m.released| <= |r.after.released| <= |m.released| + 1
    ensures r.after.released[..|m.released|] == m.released
    ensures |r.after.released| == |m.released| + 1 <==> m.pool.Some? && acquire.Ok? && !clears
    ensures |r.after.released| == |m.released| + 1 ==>
              acquire.Ok? && r.after.released[|m.released|] == acquire.value
  {
    var bound := Attach(m.pool, None, acquire);
    var atEnd := if bound.reply.Continue? && clears then None else bound.slot;
    RequestStep(Machine(m.pool, m.released + Tail(atEnd)), bound.reply)
  }

  // ---------------------------------------------------------------- properties of init

  /** With a live pool, options with any key are refused and the pool is left as it was. */
  lemma ReinitWithOptionsRejected(m: Machine, opts: Options, created: Option<PoolId>,
                                  probe: Result<Conn, Cause>, end: Option<Cause>)
    requires m.pool.Some? && |opts| > 0
    ensures Init(m, opts, created, probe, end) == InitStep(m, Some(PluginError(AlreadyConfiguredMsg)))
  {
  }

  /** With a live pool, empty options succeed without creating, replacing or probing a pool. */
  lemma ReinitWithoutOptionsIsNoOp(m: Machine, created: Option<PoolId>,
                                   probe: Result<Conn, Cause>, end: Option<Cause>)
    requires m.pool.Some?
    ensures Init(m, map[], created, probe, end) == InitStep(m, None)
  {
  }

  /** Without a pool, options lacking a `host` key are refused and nothing changes. */
  lemma MissingHostRejected(m: Machine, opts: Options, created: Option<PoolId>,
                            probe: Result<Conn, Cause>, end: Option<Cause>)
    requires m.pool.None? && "host" !in opts
    ensures Init(m, opts, created, probe, end) == InitStep(m, Some(PluginError(MissingHostMsg)))
  {
  }

  /** The host check is presence only: an empty host string passes it. */
  lemma EmptyHostPassesValidation(m: Machine, opts: Options, created: Option<PoolId>,
                                  probe: Result<Conn, Cause>, end: Option<Cause>)
    requires m.pool.None? && "host" in opts && opts["host"] == Str("")
    ensures Init(m, opts, created, probe, end).err != Some(PluginError(MissingHostMsg))
  {
  }

  /** When the factory returns no pool, init is refused and the pool stays absent. */
  lemma NoPoolFromFactory(m: Machine, opts: Options, probe: Result<Conn, Cause>, end: Option<Cause>)
    requires m.pool.None? && "host" in opts
    ensures Init(m, opts, None, probe, end) == InitStep(m, Some(PluginError(NoPoolMsg)))
  {
  }

  /** A passing liveness check releases its connection once, then init succeeds. */
  lemma LivenessCheckPasses(m: Machine, opts: Options, pool: PoolId, conn: Conn, end: Option<Cause>)
    requires m.pool.None? && "host" in opts
    ensures Init(m, opts, Some(pool), Ok(conn), end) ==
            InitStep(Machine(Some(pool), m.released + [conn]), None)
  {
  }

  /**
   * A failing liveness check stops the new pool, whatever its `end` does, and passes the
   * rejection on; nothing is released.
   */
  lemma LivenessCheckFails(m: Machine, opts: Options, pool: PoolId, cause: Cause, end: Option<Cause>)
    requires m.pool.None? && "host" in opts
    ensures Init(m, opts, Some(pool), Err(cause), end) ==
            InitStep(Machine(None, m.released), Some(Rejection(cause)))
  {
  }

  /** Init reports success exactly in the no-op re-init and the fresh pool that passes its check. */
  lemma InitSucceedsIff(m: Machine, opts: Options, created: Option<PoolId>,
                        probe: Result<Conn, Cause>, end: Option<Cause>)
    ensures Init(m, opts, created, probe, end).err.None? <==>
            (m.pool.Some? && |opts| == 0) ||
            (m.pool.None? && "host" in opts && created.Some? && probe.Ok?)
  {
  }

  /**
   * Every failure of init without a pool leaves the pool absent, so a later init with a host,
   * a pool from the factory and a passing check succeeds.
   */
  lemma FailedInitAllowsRetry(m: Machine, opts: Options, created: Option<PoolId>,
                              probe: Result<Conn, Cause>, end: Option<Cause>,
                              opts': Options, pool': PoolId, conn': Conn, end': Option<Cause>)
    requires m.pool.None? && Init(m, opts, created, probe, end).err.Some?
    requires "host" in opts'
    ensures Init(m, opts, created, probe, end).after.pool.None?
    ensures Init(Init(m, opts, created, probe, end).after, opts', Some(pool'), Ok(conn'), end').err.None?
  {
  }

  // ---------------------------------------------------------------- properties of stop

  /** `stop` on a live pool always discards it, and reports `end`'s error only to a continuation. */
  lemma StopDiscardsPool(m: Machine, server: Arg, next: Option<FnId>, end: Option<Cause>)
    requires m.pool.Some?
    ensures Stop(m, server, next, end).after == Machine(None, m.released)
    ensures next.Some? ==> Stop(m, server, next, end).outcome == Ended(Some(Call(next.value, end)))
    ensures next.None? && !server.Function? ==> Stop(m, server, next, end).outcome == Ended(None)
  {
  }

  /** A function given alone is the continuation; given a second argument, the first is ignored. */
  lemma StopArgumentNormalisation(f: FnId, g: FnId, server: Arg)
    ensures Continuation(Function(f), None) == Some(f)
    ensures Continuation(server, Some(g)) == Some(g)
    ensures Continuation(Missing, None) == None && Continuation(Other, None) == None
  {
  }

  /** A second `stop` finds no pool: `internals.pool.end()` throws, and nothing is reported. */
  lemma SecondStopThrows(m: Machine, server: Arg, next: Option<FnId>, end: Option<Cause>,
                         server': Arg, next': Option<FnId>, end': Option<Cause>)
    ensures Stop(Stop(m, server, next, end).after, server', next', end').outcome == PoolTypeError
  {
  }

  // ---------------------------------------------------------------- properties of requests

  /** A request whose connection stays bound releases that connection exactly once at its end. */
  lemma BoundConnectionReleasedOnce(m: Machine, conn: Conn)
    requires m.pool.Some?
    ensures ServeRequest(m, Ok(conn), false) == RequestStep(Machine(m.pool, m.released + [conn]), Continue)
  {
  }

  /** A handler that clears the slot leaves nothing to release, and no error is raised. */
  lemma ClearedSlotReleasesNothing(m: Machine, conn: Conn)
    requires m.pool.Some?
    ensures ServeRequest(m, Ok(conn), true) == RequestStep(m, Continue)
  {
  }

  /** A failed acquisition answers 500 with the rejection, leaves the slot unset, releases nothing. */
  lemma FailedAcquireResponds500(m: Machine, cause: Cause)
    requires m.pool.Some?
    ensures Attach(m.pool, None, Err(cause)) == AttachStep(None, Respond(500, cause))
    ensures ServeRequest(m, Err(cause), false) == RequestStep(m, Respond(500, cause))
  {
  }
}
