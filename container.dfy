/**
 * One Linux container of the warden server: its identity, lifecycle state, idle
 * timeout, the pooled resources bound to it, and the lifecycle operations that a
 * request runs against it. The backend scripts and the snapshot write are not run:
 * their outcomes arrive as a `Backend` value with each request.
 */
module WardenServer {

  import opened Wrappers
  import opened Lifecycle
  import opened Pools

  /** A network allocation (an address block handed out by the network pool). */
  newtype Ip = x: int | 0 <= x

  /** A host port. */
  newtype Port = x: int | 0 <= x

  /** A numeric user identity. */
  newtype Uid = x: int | 0 <= x

  /** A request with its payload; `Other` stands for every other message type. */
  datatype Request =
    | Create(handle: string, graceTime: Option<nat>)
    | Stop(kill: bool, background: bool)
    | Destroy
    | Other

  function KindOf(r: Request): (k: Kind)
  {
    match r
    case Create(_, _) => CreateReq
    case Stop(_, _) => StopReq
    case Destroy => DestroyReq
    case Other => OtherReq
  }

  /** The one response written for a request. */
  datatype Response =
    | CreateResponse(handle: string)
    | StopResponse
    | DestroyResponse
    | ErrorResponse(message: string)

  /** The exit status of a backend script, with the error text on failure. */
  datatype CommandResult = Succeeded | Failed(message: string)

  /**
   * What the outside world does while one request is serviced: the exit status of
   * each backend script and whether writing the snapshot file succeeds.
   */
  datatype Backend = Backend(
    create: CommandResult,
    start: CommandResult,
    stop: CommandResult,
    destroy: CommandResult,
    snapshotWritten: bool)

  const NetworkExhausted := "LinuxContainer: Cannot acquire network"
  const UserIdExhausted := "LinuxContainer: Cannot acquire user ID"

  /** The error text of a failed create or start script. */
  const BackendError := "error"

  class Container {
    var state: State
    const id: string
    var handle: string
    /** Idle grace time, in seconds. */
    var idleTimeout: nat

    var network: Option<Ip>
    var ports: seq<Port>
    var userId: Option<Uid>

    /** Whether the snapshot file exists (the container is resumable). */
    var snapshotPresent: bool
    /** Whether the container is in the server's registry. */
    var registered: bool

    const networkPool: Pool<Ip>
    const portPool: Pool<Port>
    const userPool: Pool<Uid>

    /** A new container: born, its handle its id, no bindings and an empty port list. */
    constructor (id: string, graceTime: nat, networkPool: Pool<Ip>, portPool: Pool<Port>, userPool: Pool<Uid>)
      ensures state == Born && this.id == id && handle == id && idleTimeout == graceTime
      ensures network == None && ports == [] && userId == None
      ensures !snapshotPresent && !registered
      ensures this.networkPool == networkPool && this.portPool == portPool && this.userPool == userPool
    {
      state := Born;
      this.id := id;
      handle := id;
      idleTimeout := graceTime;
      network := None;
      ports := [];
      userId := None;
      snapshotPresent := false;
      registered := false;
      this.networkPool := networkPool;
      this.portPool := portPool;
      this.userPool := userPool;
    }

    /** A network allocation is either bound already or can be taken from the pool. */
    ghost predicate NetworkAvailable()
      reads this, networkPool
    {
      network.Some? || networkPool.free != {}
    }

    /** A user identity is either bound already or can be taken from the pool. */
    ghost predicate UserIdAvailable()
      reads this, userPool
    {
      userId.Some? || userPool.free != {}
    }

    /** The container holds a network and a user identity, and none of its bindings is free in a pool. */
    ghost predicate HoldsBindings()
      reads this, networkPool, portPool, userPool
    {
      && network.Some? && network.value !in networkPool.free
      && userId.Some? && userId.value !in userPool.free
      && Elems(ports) !! portPool.free
    }

    /**
     * The pool accounting of an acquisition that got past the network step. A
     * network or user identity bound before is kept and that exact value leaves its
     * pool; a missing one is replaced by a value that was free and has left it. The
     * bound ports have left the port pool. With no user identity bound and none free,
     * the user identity stays unbound and its pool untouched.
     */
    twostate predicate TookBindings()
      reads this, networkPool, portPool, userPool
    {
      && (old(network).Some? ==> network == old(network))
      && network.Some? && networkPool.free == old(networkPool.free) - {network.value}
      && (old(network).None? ==> network.value in old(networkPool.free))
      && ports == old(ports)
      && portPool.free == old(portPool.free) - Elems(ports)
      && (old(userId).Some? ==> userId == old(userId))
      && (old(UserIdAvailable()) ==>
            && userId.Some? && userPool.free == old(userPool.free) - {userId.value}
            && (old(userId).None? ==> userId.value in old(userPool.free)))
      && (!old(UserIdAvailable()) ==> userId == None && userPool.free == old(userPool.free))
    }

    /**
     * Binds the pooled resources. A binding that is already present (a container
     * resumed from a snapshot) is taken out of its pool; a missing one is acquired
     * fresh. Running out of networks fails before any other pool is touched;
     * running out of user identities fails after the network step, which stays done.
     */
    method Acquire() returns (err: Option<string>)
      modifies this`network, this`userId, networkPool, portPool, userPool
      ensures err.None? <==> old(NetworkAvailable()) && old(UserIdAvailable())
      ensures err.None? ==> HoldsBindings()
      // network exhaustion: an error and nothing touched
      ensures !old(NetworkAvailable()) ==>
        && err == Some(NetworkExhausted)
        && network == old(network) && userId == old(userId)
        && unchanged(networkPool, portPool, userPool)
      // the network, port and user identity steps, once a network is available
      ensures old(NetworkAvailable()) ==> TookBindings()
      ensures old(NetworkAvailable()) && !old(UserIdAvailable()) ==>
        err == Some(UserIdExhausted) && userId == None && unchanged(userPool)
    {
      if network.Some? {
        networkPool.Remove(network.value);
      } else {
        var p := networkPool.Acquire();
        if p.None? {
          return Some(NetworkExhausted);
        }
        network := p;
      }

      for i := 0 to |ports|
        modifies portPool
        invariant portPool.free == old(portPool.free) - Elems(ports[..i])
      {
        assert Elems(ports[..i + 1]) == Elems(ports[..i]) + {ports[i]};
        portPool.Remove(ports[i]);
      }
      assert ports[..|ports|] == ports;

      if userId.Some? {
        userPool.Remove(userId.value);
      } else {
        var u := userPool.Acquire();
        if u.None? {
          return Some(UserIdExhausted);
        }
        userId := u;
      }
      err := None;
    }

    /**
     * Returns every binding to its pool and clears it. With no bindings left it
     * changes nothing, so a second call is a no-op.
     */
    method Release()
      modifies this`network, this`ports, this`userId, networkPool, portPool, userPool
      ensures network == None && ports == [] && userId == None
      ensures networkPool.free == old(networkPool.free) + (if old(network).Some? then {old(network).value} else {})
      ensures portPool.free == old(portPool.free) + Elems(old(ports))
      ensures userPool.free == old(userPool.free) + (if old(userId).Some? then {old(userId).value} else {})
    {
      if network.Some? {
        networkPool.Release(network.value);
        network := None;
      }

      if |ports| > 0 {
        for i := 0 to |ports|
          modifies portPool
          invariant portPool.free == old(portPool.free) + Elems(ports[..i])
        {
          assert Elems(ports[..i + 1]) == Elems(ports[..i]) + {ports[i]};
          portPool.Release(ports[i]);
        }
        assert ports[..|ports|] == ports;
        ports := [];
      }

      if userId.Some? {
        userPool.Release(userId.value);
        userId := None;
      }
    }

    /** Deletes the snapshot: the container is not resumable while an operation runs. */
    method MarkDirty()
      modifies this`snapshotPresent
      ensures !snapshotPresent
    {
      snapshotPresent := false;
    }

    /** Writes the snapshot; a failed write leaves the snapshot as it was. */
    method MarkClean(written: bool)
      modifies this`snapshotPresent
      ensures snapshotPresent == (old(snapshotPresent) || written)
    {
      if written {
        snapshotPresent := true;
      }
    }

    /** The error response for a request that is illegal in the current state. */
    method WriteInvalidState() returns (resp: Response)
      ensures resp == ErrorResponse(InvalidStateMessage(state))
      ensures resp.message == "Cannot execute request in state: " + state.Name()
    {
      resp := ErrorResponse(InvalidStateMessage(state));
    }

    /**
     * Creates the container: acquire the bindings, adopt the handle and grace-time
     * overrides, run the create and then the start script. Only when all three
     * succeed does it become active and registered, and the response carries the
     * final handle; any failure leaves the state as it was and answers with an error.
     */
    method DoCreate(handleOverride: string, graceTime: Option<nat>, b: Backend) returns (resp: Response)
      modifies this`network, this`userId, this`handle, this`idleTimeout, this`state, this`registered
      modifies networkPool, portPool, userPool
      ensures resp.CreateResponse? <==>
        old(NetworkAvailable()) && old(UserIdAvailable()) && b.create.Succeeded? && b.start.Succeeded?
      ensures resp.CreateResponse? ==>
        && resp.handle == handle && state == Active && registered && HoldsBindings()
      ensures !resp.CreateResponse? ==>
        resp.ErrorResponse? && state == old(state) && registered == old(registered)
      // a failed acquisition comes first and overrides nothing
      ensures !old(NetworkAvailable()) ==>
        && resp == ErrorResponse(NetworkExhausted)
        && unchanged(networkPool, portPool, userPool) && network == old(network) && userId == old(userId)
      ensures old(NetworkAvailable()) && !old(UserIdAvailable()) ==> resp == ErrorResponse(UserIdExhausted)
      ensures !(old(NetworkAvailable()) && old(UserIdAvailable())) ==>
        handle == old(handle) && idleTimeout == old(idleTimeout)
      // after acquisition the overrides apply, whatever the scripts do
      ensures old(NetworkAvailable()) && old(UserIdAvailable()) ==>
        && HoldsBindings()
        && handle == (if handleOverride != "" then handleOverride else old(handle))
        && idleTimeout == (if graceTime.Some? then graceTime.value else old(idleTimeout))
        && (b.create.Failed? || b.start.Failed? ==> resp == ErrorResponse(BackendError))
      // the pool accounting of the acquisition, whether or not it succeeded
      ensures old(NetworkAvailable()) ==> TookBindings()
      // bindings already present are kept
      ensures old(network).Some? ==> network == old(network)
      ensures old(userId).Some? ==> userId == old(userId)
    {
      var err := Acquire();
      if err.Some? {
        return ErrorResponse(err.value);
      }

      if handleOverride != "" {
        handle := handleOverride;
      }

      if graceTime.Some? {
        idleTimeout := graceTime.value;
      }

      if b.create.Failed? {
        return ErrorResponse(BackendError);
      }

      if b.start.Failed? {
        return ErrorResponse(BackendError);
      }

      state := Active;
      registered := true;
      resp := CreateResponse(handle);
    }

    /**
     * Runs the stop script. In the foreground its failure is returned and the state
     * kept; in the background its outcome is not awaited and the container is
     * stopped at once. `kill` only shortens the script's grace window.
     */
    method StopContainer(kill: bool, background: bool, result: CommandResult) returns (err: Option<string>)
      modifies this`state
      ensures background || result.Succeeded? ==> err == None && state == Stopped
      ensures !background && result.Failed? ==> err == Some(result.message) && state == old(state)
    {
      if !background {
        if result.Failed? {
          return Some(result.message);
        }
      }
      state := Stopped;
      err := None;
    }

    /** Answers a stop request with the outcome of `StopContainer`. */
    method DoStop(kill: bool, background: bool, b: Backend) returns (resp: Response)
      modifies this`state
      ensures resp == StopResponse <==> background || b.stop.Succeeded?
      ensures resp == StopResponse ==> state == Stopped
      ensures resp != StopResponse ==> resp == ErrorResponse(b.stop.message) && state == old(state)
    {
      var err := StopContainer(kill, background, b.stop);
      if err.Some? {
        return ErrorResponse(err.value);
      }
      resp := StopResponse;
    }

    /** Runs the destroy script; only on its success is the container destroyed and unregistered. */
    method DestroyContainer(result: CommandResult) returns (err: Option<string>)
      modifies this`state, this`registered
      ensures result.Succeeded? ==> err == None && state == Destroyed && !registered
      ensures result.Failed? ==>
        err == Some(result.message) && state == old(state) && registered == old(registered)
    {
      if result.Failed? {
        return Some(result.message);
      }
      state := Destroyed;
      registered := false;
      err := None;
    }

    /** Answers a destroy request with the outcome of `DestroyContainer`. */
    method DoDestroy(b: Backend) returns (resp: Response)
      modifies this`state, this`registered
      ensures resp == DestroyResponse <==> b.destroy.Succeeded?
      ensures resp == DestroyResponse ==> state == Destroyed && !registered
      ensures resp != DestroyResponse ==>
        resp == ErrorResponse(b.destroy.message) && state == old(state) && registered == old(registered)
    {
      var err := DestroyContainer(b.destroy);
      if err.Some? {
        return ErrorResponse(err.value);
      }
      resp := DestroyResponse;
    }

    /** A born container accepts only create, bracketed by the snapshot protocol. */
    method RunBorn(r: Request, b: Backend) returns (resp: Response)
      modifies this`network, this`userId, this`handle, this`idleTimeout, this`state, this`registered
      modifies this`snapshotPresent, networkPool, portPool, userPool
      ensures r.Create? ==>
        && (resp.CreateResponse? <==> old(NetworkAvailable()) && old(UserIdAvailable())
                                      && b.create.Succeeded? && b.start.Succeeded?)
        && (resp.CreateResponse? ==> state == Active && registered && resp.handle == handle && HoldsBindings())
        && (!resp.CreateResponse? ==> resp.ErrorResponse? && state == old(state) && registered == old(registered))
        && snapshotPresent == b.snapshotWritten
        && handle == (if old(NetworkAvailable()) && old(UserIdAvailable()) && r.handle != "" then r.handle else old(handle))
        && idleTimeout == (if old(NetworkAvailable()) && old(UserIdAvailable()) && r.graceTime.Some?
                           then r.graceTime.value else old(idleTimeout))
        && (!old(NetworkAvailable()) ==>
              && resp == ErrorResponse(NetworkExhausted)
              && unchanged(networkPool, portPool, userPool) && network == old(network) && userId == old(userId))
        && (old(NetworkAvailable()) && !old(UserIdAvailable()) ==> resp == ErrorResponse(UserIdExhausted))
        && (old(NetworkAvailable()) && old(UserIdAvailable()) && (b.create.Failed? || b.start.Failed?) ==>
              resp == ErrorResponse(BackendError))
        && (old(NetworkAvailable()) ==> TookBindings())
        && (old(network).Some? ==> network == old(network))
        && (old(userId).Some? ==> userId == old(userId))
      ensures !r.Create? ==>
        resp == ErrorResponse(InvalidStateMessage(state)) && unchanged(this, networkPool, portPool, userPool)
    {
      match r
      case Create(h, g) =>
        MarkDirty();
        resp := DoCreate(h, g, b);
        MarkClean(b.snapshotWritten);
      case _ =>
        resp := WriteInvalidState();
    }

    /** An active container accepts stop (bracketed by the snapshot protocol) and destroy (marked dirty only). */
    method RunActive(r: Request, b: Backend) returns (resp: Response)
      modifies this`state, this`registered, this`snapshotPresent
      ensures r.Stop? ==>
        && (resp == StopResponse <==> r.background || b.stop.Succeeded?)
        && (resp == StopResponse ==> state == Stopped)
        && (resp != StopResponse ==> resp == ErrorResponse(b.stop.message) && state == old(state))
        && registered == old(registered)
        && snapshotPresent == b.snapshotWritten
      ensures r.Destroy? ==>
        && (resp == DestroyResponse <==> b.destroy.Succeeded?)
        && (resp == DestroyResponse ==> state == Destroyed && !registered)
        && (resp != DestroyResponse ==>
              resp == ErrorResponse(b.destroy.message) && state == old(state) && registered == old(registered))
        && !snapshotPresent
      ensures !r.Stop? && !r.Destroy? ==>
        resp == ErrorResponse(InvalidStateMessage(state)) && unchanged(this)
    {
      match r
      case Stop(kill, background) =>
        MarkDirty();
        resp := DoStop(kill, background, b);
        MarkClean(b.snapshotWritten);
      case Destroy =>
        MarkDirty();
        resp := DoDestroy(b);
      case _ =>
        resp := WriteInvalidState();
    }

    /** A stopped container accepts only destroy, marked dirty and never clean. */
    method RunStopped(r: Request, b: Backend) returns (resp: Response)
      modifies this`state, this`registered, this`snapshotPresent
      ensures r.Destroy? ==>
        && (resp == DestroyResponse <==> b.destroy.Succeeded?)
        && (resp == DestroyResponse ==> state == Destroyed && !registered)
        && (resp != DestroyResponse ==>
              resp == ErrorResponse(b.destroy.message) && state == old(state) && registered == old(registered))
        && !snapshotPresent
      ensures !r.Destroy? ==>
        resp == ErrorResponse(InvalidStateMessage(state)) && unchanged(this)
    {
      match r
      case Destroy =>
        MarkDirty();
        resp := DoDestroy(b);
      case _ =>
        resp := WriteInvalidState();
    }

    /** A destroyed container rejects every request. */
    method RunDestroyed(r: Request) returns (resp: Response)
      ensures resp == ErrorResponse(InvalidStateMessage(state))
    {
      resp := WriteInvalidState();
    }

    /**
     * Services one request: dispatch on the state, then on the kind of request.
     * The new state is the lifecycle step of the old one (it moves, along a legal
     * edge, exactly when the request succeeded); a rejected request gets the
     * invalid-state error and changes nothing; after any accepted destroy request
     * the snapshot is absent, after create or stop it is present exactly when its
     * write succeeded.
     */
    method RunRequest(r: Request, b: Backend) returns (resp: Response)
      modifies this`network, this`userId, this`handle, this`idleTimeout, this`state, this`registered
      modifies this`snapshotPresent, networkPool, portPool, userPool
      ensures state == Step(old(state), KindOf(r), !resp.ErrorResponse?)
      ensures Dispatch(old(state), KindOf(r)) == Reject ==>
        && resp == ErrorResponse(InvalidStateMessage(old(state)))
        && unchanged(this, networkPool, portPool, userPool)
      ensures Dispatch(old(state), KindOf(r)) == RunCreate ==>
        && snapshotPresent == b.snapshotWritten
        && (resp.CreateResponse? <==> old(NetworkAvailable()) && old(UserIdAvailable())
                                      && b.create.Succeeded? && b.start.Succeeded?)
        && (resp.CreateResponse? ==> registered && resp.handle == handle && HoldsBindings())
        && (resp.ErrorResponse? ==> registered == old(registered))
        && handle == (if old(NetworkAvailable()) && old(UserIdAvailable()) && r.handle != "" then r.handle else old(handle))
        && idleTimeout == (if old(NetworkAvailable()) && old(UserIdAvailable()) && r.graceTime.Some?
                           then r.graceTime.value else old(idleTimeout))
        && (!old(NetworkAvailable()) ==>
              && resp == ErrorResponse(NetworkExhausted)
              && unchanged(networkPool, portPool, userPool) && network == old(network) && userId == old(userId))
        && (old(NetworkAvailable()) && !old(UserIdAvailable()) ==> resp == ErrorResponse(UserIdExhausted))
        && (old(NetworkAvailable()) && old(UserIdAvailable()) && (b.create.Failed? || b.start.Failed?) ==>
              resp == ErrorResponse(BackendError))
        && (old(NetworkAvailable()) ==> TookBindings())
        && (old(network).Some? ==> network == old(network))
        && (old(userId).Some? ==> userId == old(userId))
      ensures Dispatch(old(state), KindOf(r)) == RunStop ==>
        && snapshotPresent == b.snapshotWritten
        && resp == (if r.background || b.stop.Succeeded? then StopResponse else ErrorResponse(b.stop.message))
        && registered == old(registered)
      ensures Dispatch(old(state), KindOf(r)) == RunDestroy ==>
        && !snapshotPresent
        && resp == (if b.destroy.Succeeded? then DestroyResponse else ErrorResponse(b.destroy.message))
        && registered == (old(registered) && resp.ErrorResponse?)
      ensures Dispatch(old(state), KindOf(r)) != RunCreate ==>
        && unchanged(networkPool, portPool, userPool)
        && network == old(network) && ports == old(ports) && userId == old(userId)
        && handle == old(handle) && idleTimeout == old(idleTimeout)
    {
      match state
      case Born =>
        resp := RunBorn(r, b);
      case Active =>
        resp := RunActive(r, b);
      case Stopped =>
        resp := RunStopped(r, b);
      case Destroyed =>
        resp := RunDestroyed(r);
    }
  }
}
