/**
 * Clients of the container model: the behaviours the lifecycle promises, stated
 * as methods that run the model's operations and proved from their contracts alone.
 */
module Scenarios {

  import opened Wrappers
  import opened Lifecycle
  import opened Pools
  import opened WardenServer

  /** Every backend script succeeds and so does every snapshot write. */
  const AllSucceed := Backend(Succeeded, Succeeded, Succeeded, Succeeded, true)

  /**
   * Create without a handle, then stop in the foreground, then destroy: the create
   * response carries the generated id, the container ends destroyed, unregistered,
   * with no snapshot.
   */
  method CreateStopDestroy(id: string, networks: set<Ip>, freePorts: set<Port>, users: set<Uid>)
    returns (created: Response, stopped: Response, destroyed: Response,
             after: State, registered: bool, snapshot: bool)
    requires networks != {} && users != {}
    ensures created == CreateResponse(id)
    ensures stopped == StopResponse
    ensures destroyed == DestroyResponse
    ensures after == Destroyed && !registered && !snapshot
  {
    var np := new Pool(networks);
    var pp := new Pool(freePorts);
    var up := new Pool(users);
    var c := new Container(id, 2, np, pp, up);
    created := c.RunRequest(Create("", None), AllSucceed);
    assert c.state == Active;
    stopped := c.RunRequest(Stop(false, false), AllSucceed);
    assert c.state == Stopped;
    destroyed := c.RunRequest(Destroy, AllSucceed);
    after, registered, snapshot := c.state, c.registered, c.snapshotPresent;
  }

  /** A stop request to a born container is rejected and the container stays born. */
  method StopWhileBorn(id: string, b: Backend) returns (resp: Response, after: State)
    ensures resp == ErrorResponse("Cannot execute request in state: born")
    ensures after == Born
  {
    var np := new Pool<Ip>({});
    var pp := new Pool<Port>({});
    var up := new Pool<Uid>({});
    var c := new Container(id, 2, np, pp, up);
    resp := c.RunRequest(Stop(false, false), b);
    after := c.state;
  }

  /**
   * With no free network, a create request fails with the network error, the
   * container stays born and the user-identity pool is left as it was.
   */
  method CreateWithoutNetworks(id: string, users: set<Uid>, b: Backend)
    returns (resp: Response, after: State, freeUsers: set<Uid>, bound: Option<Uid>)
    ensures resp == ErrorResponse(NetworkExhausted)
    ensures after == Born
    ensures freeUsers == users && bound == None
  {
    var np := new Pool<Ip>({});
    var pp := new Pool<Port>({});
    var up := new Pool<Uid>(users);
    var c := new Container(id, 2, np, pp, up);
    resp := c.RunRequest(Create("", None), b);
    after := c.state;
    freeUsers := up.free;
    bound := c.userId;
  }

  /**
   * A fresh container sharing the pools of one that holds its bindings never
   * receives the same network or user identity, and the first keeps its bindings.
   */
  method AcquireIsExclusive(a: Container, b: Container) returns (err: Option<string>)
    requires a.networkPool == b.networkPool && a.portPool == b.portPool && a.userPool == b.userPool
    requires a.HoldsBindings()
    requires b.network == None && b.ports == [] && b.userId == None
    modifies b`network, b`userId, b.networkPool, b.portPool, b.userPool
    ensures a.HoldsBindings()
    ensures err == None ==> b.HoldsBindings() && b.network != a.network && b.userId != a.userId
  {
    err := b.Acquire();
  }

  /**
   * The same at the level of requests: a create request to a fresh container
   * sharing the pools of one that holds its bindings leaves the holder's bindings
   * out of the pools, and a successful create binds a different network and user
   * identity.
   */
  method CreateIsExclusive(a: Container, c: Container, b: Backend) returns (resp: Response)
    requires a.networkPool == c.networkPool && a.portPool == c.portPool && a.userPool == c.userPool
    requires a.HoldsBindings()
    requires c.state == Born && c.network == None && c.ports == [] && c.userId == None
    modifies c`network, c`userId, c`handle, c`idleTimeout, c`state, c`registered, c`snapshotPresent
    modifies c.networkPool, c.portPool, c.userPool
    ensures a.HoldsBindings()
    ensures resp.CreateResponse? ==> c.HoldsBindings() && c.network != a.network && c.userId != a.userId
  {
    resp := c.RunRequest(Create("", None), b);
  }

  /**
   * Destroying does not release: after a destroy request to an active container,
   * successful or not, its network, ports and user identity are still bound and
   * the pools are as they were.
   */
  method DestroyKeepsBindings(c: Container, b: Backend) returns (resp: Response)
    requires c.state == Active
    modifies c`network, c`userId, c`handle, c`idleTimeout, c`state, c`registered, c`snapshotPresent
    modifies c.networkPool, c.portPool, c.userPool
    ensures resp == DestroyResponse <==> b.destroy.Succeeded?
    ensures c.network == old(c.network) && c.ports == old(c.ports) && c.userId == old(c.userId)
    ensures unchanged(c.networkPool, c.portPool, c.userPool)
  {
    resp := c.RunRequest(Destroy, b);
  }

  /**
   * A holder releases its bindings and a fresh container sharing its pools then
   * acquires: the acquisition succeeds and the network and user-identity pools end
   * with as many free values as they started with; the port pool regains the
   * released ports.
   */
  method ReleaseThenAcquire(a: Container, b: Container) returns (err: Option<string>)
    requires a.networkPool == b.networkPool && a.portPool == b.portPool && a.userPool == b.userPool
    requires a.HoldsBindings()
    requires b.network == None && b.ports == [] && b.userId == None
    modifies a`network, a`ports, a`userId, b`network, b`userId, a.networkPool, a.portPool, a.userPool
    ensures err == None
    ensures |a.networkPool.free| == old(|a.networkPool.free|)
    ensures |a.userPool.free| == old(|a.userPool.free|)
    ensures a.portPool.free == old(a.portPool.free) + Elems(old(a.ports))
  {
    a.Release();
    err := b.Acquire();
  }

  /** Releasing twice leaves the pools and bindings exactly as releasing once. */
  method ReleaseTwice(c: Container)
    modifies c`network, c`ports, c`userId, c.networkPool, c.portPool, c.userPool
    ensures c.network == None && c.ports == [] && c.userId == None
    ensures c.networkPool.free == old(c.networkPool.free) + (if old(c.network).Some? then {old(c.network).value} else {})
    ensures c.portPool.free == old(c.portPool.free) + Elems(old(c.ports))
    ensures c.userPool.free == old(c.userPool.free) + (if old(c.userId).Some? then {old(c.userId).value} else {})
  {
    c.Release();
    c.Release();
  }
}
