/**
 * The plugin as the source writes it: a module-level `internals` object whose `pool` the
 * operations assign and delete, and a per-request slot `request.app.db` that is set in place.
 * Each method is proved against its function in PoolLifecycle.
 */
module MysqlPlugin {
  import opened Wrappers
  import opened PoolLifecycle

  /** A request, reduced to the slot `request.app.db` that carries its bound connection. */
  class Request {
    var db: Option<Conn>

    constructor ()
      ensures db == None
    {
      db := None;
    }
  }

  /** The module's `internals`: the shared pool, and the connections the plugin has released. */
  class Internals {
    var pool: Option<PoolId>
    ghost var released: seq<Conn>

    ghost function State(): Machine
      reads this
    {
      Machine(pool, released)
    }

    /** `internals = { pool: null }` */
    constructor ()
      ensures State() == Machine(None, [])
    {
      pool := None;
      released := [];
    }

    /** `getConnection()`: delegates to the pool, dereferencing it unguarded. */
    method GetConnection(acquire: Result<Conn, Cause>) returns (r: Acquire)
      ensures r == PoolLifecycle.GetConnection(pool, acquire)
    {
      if pool.None? {
        r := GetTypeError;
      } else {
        r := Pending(acquire);
      }
    }

    /** `attachConnection(request, reply)`: bind one acquired connection, or answer 500. */
    method AttachConnection(request: Request, acquire: Result<Conn, Cause>) returns (reply: Reply)
      modifies request
      ensures AttachStep(request.db, reply) == Attach(pool, old(request.db), acquire)
    {
      var got := GetConnection(acquire);
      match got
      case GetTypeError =>
        reply := TypeErrorThrown;
      case Pending(Ok(conn)) =>
        request.db := Some(conn);
        reply := Continue;
      case Pending(Err(cause)) =>
        reply := Respond(500, cause);
    }

    /** `tail(request)`: release the bound connection if the slot is still set. */
    method Tail(request: Request)
      modifies this
      ensures pool == old(pool)
      ensures released == old(released) + PoolLifecycle.Tail(request.db)
    {
      if request.db.Some? {
        released := released + [request.db.value];
      }
    }

    /** `stop(server, next)`: normalise the arguments, end the pool, discard it either way. */
    method Stop(server: Arg, next: Option<FnId>, end: Option<Cause>) returns (outcome: StopOutcome)
      modifies this
      ensures StopStep(State(), outcome) == PoolLifecycle.Stop(old(State()), server, next, end)
    {
      var k := next;
      if server.Function? && k.None? {
        k := Some(server.fn);
      }
      if pool.None? {
        return PoolTypeError;
      }
      // `end()` settles; both its branches delete the pool, then call back if they can
      pool := None;
      if k.Some? {
        outcome := Ended(Some(Call(k.value, end)));
      } else {
        outcome := Ended(None);
      }
    }

    /** `init(options, callback)`: `err` is what a callback that returns normally receives. */
    method Init(opts: Options, created: Option<PoolId>, probe: Result<Conn, Cause>, end: Option<Cause>)
      returns (err: Option<Failure>)
      modifies this
      ensures InitStep(State(), err) == PoolLifecycle.Init(old(State()), opts, created, probe, end)
    {
      var hasOptions := |opts| > 0;
      if pool.Some? {
        if hasOptions {
          return Some(PluginError(AlreadyConfiguredMsg));
        }
        return None;
      }
      if "host" !in opts {
        return Some(PluginError(MissingHostMsg));
      }
      pool := created;
      if pool.None? {
        return Some(PluginError(NoPoolMsg));
      }
      // the liveness check: acquire one connection, then release it
      var got := GetConnection(probe);
      match got
      case Pending(Ok(conn)) =>
        released := released + [conn];
        err := None;
      case Pending(Err(cause)) =>
        var _ := Stop(Missing, None, end);
        err := Some(Rejection(cause));
      case GetTypeError =>
        assert false;
    }

    /** `register(server, options, next)`: init, then install the hooks unless init failed. */
    method Register(opts: Options, created: Option<PoolId>, probe: Result<Conn, Cause>, end: Option<Cause>)
      returns (err: Option<Failure>, hooksInstalled: bool)
      modifies this
      ensures RegisterStep(State(), err, hooksInstalled) ==
              PoolLifecycle.Register(old(State()), opts, created, probe, end)
    {
      err := Init(opts, created, probe, end);
      if err.Some? {
        return err, false;
      }
      hooksInstalled := true;
    }
  }

  // ---------------------------------------------------------------- client scenarios

  /** Init, then init again with the same options: refused, and the first pool stays. */
  method ErrorsOnRegisteringTwice(opts: Options, pool: PoolId, conn: Conn)
    requires "host" in opts
  {
    var plugin := new Internals();
    var first := plugin.Init(opts, Some(pool), Ok(conn), None);
    assert first == None;
    var second := plugin.Init(opts, Some(pool + 1), Ok(conn + 1), None);
    assert second == Some(PluginError(AlreadyConfiguredMsg));
    assert plugin.pool == Some(pool) && plugin.released == [conn];
  }

  /** Init, then register with no options: both succeed and the hooks are installed. */
  method InitThenRegisterWithoutOptions(opts: Options, pool: PoolId, conn: Conn)
    requires "host" in opts
  {
    var plugin := new Internals();
    var first := plugin.Init(opts, Some(pool), Ok(conn), None);
    var err, installed := plugin.Register(map[], Some(pool + 1), Ok(conn + 1), None);
    assert err == None && installed;
    assert plugin.pool == Some(pool);
  }

  /** A handler that clears `request.app.db`: the request ends quietly and nothing is released. */
  method QuietWhenConnectionDeleted(opts: Options, pool: PoolId, probe: Conn, conn: Conn)
    requires "host" in opts
  {
    var plugin := new Internals();
    var err := plugin.Init(opts, Some(pool), Ok(probe), None);
    var request := new Request();
    var reply := plugin.AttachConnection(request, Ok(conn));
    assert reply == Continue && request.db == Some(conn);
    request.db := None;
    plugin.Tail(request);
    assert plugin.released == [probe];
  }

  /** The pool's `end()` rejects: the continuation given to `stop` receives that rejection. */
  method DisconnectionErrorReachesContinuation(opts: Options, pool: PoolId, conn: Conn, next: FnId)
    requires "host" in opts
  {
    var plugin := new Internals();
    var err := plugin.Init(opts, Some(pool), Ok(conn), None);
    var outcome := plugin.Stop(Other, Some(next), Some("pool end error"));
    assert outcome == Ended(Some(Call(next, Some("pool end error"))));
    assert plugin.pool == None;
  }
}
