# Warden container lifecycle, in Dafny

A model of the per-container lifecycle of the warden server (`go/src/warden/server/container.go`).
A `LinuxContainer` is born, created (and then active), stopped, and destroyed. Each request it
receives is dispatched on its current state and the kind of request. A request that is not legal
in the current state gets the error `Cannot execute request in state: <state>` and changes nothing.

Create binds three kinds of pooled resources: a network allocation, a list of ports and a user
identity. A container resumed from a snapshot already holds bindings, and create takes exactly
those values out of their pools. Create, stop and destroy are bracketed by the snapshot protocol:
the snapshot is deleted before each of them and written again after create and stop, but not
after destroy.

Files and modules:

- `lifecycle.dfy`, module `Lifecycle`: the states, the request kinds and the transition table
  (`Dispatch`, `Step`). It also replays a sequence of serviced requests (`Replay`), with lemmas
  that the state never goes back, that `destroyed` is terminal, and that the container leaves
  `born` only through a successful create and reaches `stopped` only from `active`.
- `pools.dfy`, module `Pools`: a pool as a class over its set of free values. It has the three
  operations the container relies on: acquire some free value, remove a given value, release one.
- `container.dfy`, module `WardenServer`: the `Container` class. Its fields are the state, id,
  handle, idle timeout, the network/ports/user-identity bindings, a snapshot-present flag, a
  registered flag and the three shared pools. Its methods are the lifecycle operations and the
  dispatch. The outcome of each backend script (create, start, stop, destroy) and of the
  snapshot write arrives with each request as a `Backend` value.
- `scenarios.dfy`, module `Scenarios`: client methods that run the model's operations. They
  check create/stop/destroy in sequence, a stop while born, a create with no free network,
  exclusive binding between two containers sharing pools (for a bare acquisition and for a
  create request), a destroy that keeps the bindings, release-then-acquire, and a double
  release.
- `wrappers.dfy`, module `Wrappers`: `Option`.

Behaviour of the code worth knowing:

- The errors of `markDirty` and `markClean` are discarded by `runBorn`, `runActive` and
  `runStopped` (container.go:288-290, 300-302, 305, 316). They do not become the request's error.
- Create and start failures are answered with the literal `error`. Stop and destroy failures
  are answered with the backend's own error text, which the model takes as part of the input.
- A failed create does not release what `Acquire` bound. If user identities run out, the
  network taken just before stays bound.
- The destroy path never calls `Release`, so bindings stay on a destroyed container.

## Model

| member | source | states |
|---|---|---|
| `Lifecycle.Dispatch` | go/src/warden/server/container.go:256-329 | Gives the transition table as iff-statements. Create runs exactly when born. Stop runs exactly when active. Destroy runs exactly when active or stopped. Every other (state, request) pair is rejected. |
| `Lifecycle.Step` | go/src/warden/server/container.go:259-274 | The state after a request is either the old state or its successor along a legal edge (born→active, active→stopped, active→destroyed, stopped→destroyed). It moves exactly when the request was accepted and answered with success. |
| `Lifecycle.ReplayNeverRegresses` | go/src/warden/server/container.go:331-447 | No sequence of requests takes the state backwards in the lifecycle order. |
| `Lifecycle.DestroyedIsTerminal` | go/src/warden/server/container.go:324-329 | A destroyed container stays destroyed, whatever sequence of requests follows. |
| `Lifecycle.LeavesBornOnlyByCreate` | go/src/warden/server/container.go:285-295 | If a sequence of requests takes a container out of `born`, it contains a create request that succeeded. |
| `Lifecycle.StoppedOnlyFromActive` | go/src/warden/server/container.go:297-303 | Any sequence of requests that ends in `stopped` from another state passes through `active`. |
| `Pools.Pool.Acquire` | go/src/warden/server/container.go:98-103 | Fails exactly when no value is free, and then leaves the pool unchanged. Otherwise returns a value that was free and removes it from the free set. |
| `Pools.Pool.Remove` | go/src/warden/server/container.go:95-96 | The given value is no longer free; nothing else changes. |
| `Pools.Pool.Release` | go/src/warden/server/container.go:128-130 | The given value is free again; nothing else changes. |
| `WardenServer.Container.constructor` | go/src/warden/server/container.go:67-89 | A new container is born, and its handle equals its id. Its idle timeout is the configured grace time. It has no network or user identity, and its port list is empty (not absent). It has no snapshot and is not registered. |
| `WardenServer.Container.Acquire` | go/src/warden/server/container.go:94-124 | Succeeds exactly when a network and a user identity are each either already bound or available. A bound network or user identity is kept, and that exact value is removed from its pool. An unbound one is replaced by a value that was free, which is then removed (these pool equations are the predicate `TookBindings`). Every bound port is removed from the port pool. With no network available, it returns the network error and touches no pool. With no user identity available, it returns the user-identity error after the network and port steps, which stay done. On success the container holds all bindings, none of them free. |
| `WardenServer.Container.Release` | go/src/warden/server/container.go:127-147 | Every bound network, port and user identity returns to its pool. The bindings become none and an empty list. |
| `WardenServer.Container.MarkDirty` | go/src/warden/server/container.go:153-162 | Afterwards there is no snapshot. |
| `WardenServer.Container.MarkClean` | go/src/warden/server/container.go:164-204 | Afterwards a snapshot is present if the write succeeded. If the write failed, the snapshot is as it was. |
| `WardenServer.Container.WriteInvalidState` | go/src/warden/server/container.go:281-283 | The response is the error `Cannot execute request in state: ` followed by the current state's name. |
| `WardenServer.Container.DoCreate` | go/src/warden/server/container.go:331-383 | Succeeds exactly when acquisition, the create script and the start script all succeed. Only then does it become active and registered, holding all its bindings, and the response carries the final handle. Any failure answers with an error and keeps the state and registration. A failed acquisition comes first and changes neither the handle nor the grace time. Once a network is available, the pools lose exactly the bound values (`TookBindings`): a kept binding's own value, a fresh value that was free, and every bound port. After acquisition, a non-empty handle override and a given grace time are adopted whatever the scripts do. |
| `WardenServer.Container.StopContainer` | go/src/warden/server/container.go:385-412 | In the background, or when the script succeeds, the container becomes stopped with no error. In the foreground, a failing script's error is returned and the state is kept. |
| `WardenServer.Container.DoStop` | go/src/warden/server/container.go:414-425 | Answers with a stop response exactly when the stop was in the background or the script succeeded, and the container is then stopped. Otherwise it answers with the script's error and the state is kept. |
| `WardenServer.Container.DestroyContainer` | go/src/warden/server/container.go:427-447 | On script success the container becomes destroyed and is unregistered. On failure the error is returned and state and registration are kept. |
| `WardenServer.Container.DoDestroy` | go/src/warden/server/container.go:449-460 | Answers with a destroy response exactly when the script succeeds, and the container is then destroyed and unregistered. Otherwise it answers with the script's error and changes neither. |
| `WardenServer.Container.RunBorn` | go/src/warden/server/container.go:285-295 | A create request runs the create operation with the outcomes `DoCreate` gives, including its pool accounting and that bindings already present are kept. The snapshot ends present exactly when its write succeeded. Any other request gets the invalid-state error and changes nothing. |
| `WardenServer.Container.RunActive` | go/src/warden/server/container.go:297-311 | A stop request stops as `DoStop` does, and the snapshot ends present exactly when its write succeeded. A destroy request destroys as `DoDestroy` does, and the snapshot ends absent. Any other request gets the invalid-state error and changes nothing. |
| `WardenServer.Container.RunStopped` | go/src/warden/server/container.go:313-322 | A destroy request destroys as `DoDestroy` does, and the snapshot ends absent. Any other request gets the invalid-state error and changes nothing. |
| `WardenServer.Container.RunDestroyed` | go/src/warden/server/container.go:324-329 | Every request gets the invalid-state error. |
| `WardenServer.Container.RunRequest` | go/src/warden/server/container.go:256-279 | The new state is `Step` of the old state, the request kind, and whether the response was a success. A rejected request gets the invalid-state error naming the old state, and leaves container and pools unchanged. An accepted create carries `DoCreate`'s outcomes, pool accounting included, and a failed one keeps the registration. Only create touches the pools, bindings, handle and grace time: stop and destroy keep the network, ports and user identity. After an accepted destroy there is no snapshot. After create or stop, the snapshot is present exactly when its write succeeded. |
| `Scenarios.CreateStopDestroy` | go/src/warden/server/container.go:285-322 | With free networks and user identities and every script succeeding, create without a handle answers with the generated id, then stop and destroy both answer with success. The container ends destroyed, unregistered and without a snapshot. |
| `Scenarios.StopWhileBorn` | go/src/warden/server/container.go:281-295 | A stop request to a born container answers `Cannot execute request in state: born`, and the container stays born. |
| `Scenarios.CreateWithoutNetworks` | go/src/warden/server/container.go:94-101 | With no free network, create answers with the network error. The container stays born, and the user-identity pool and binding are untouched. |
| `Scenarios.AcquireIsExclusive` | go/src/warden/server/container.go:94-124 | Take one container that holds its bindings and a fresh one sharing its pools. After the fresh one's acquisition, the first still holds its bindings. On success the fresh one gets a different network and user identity. |
| `Scenarios.CreateIsExclusive` | go/src/warden/server/container.go:285-290 | Take one container that holds its bindings and a fresh born one sharing its pools. After a create request to the fresh one, the first still holds its bindings. On success the fresh one gets a different network and user identity. |
| `Scenarios.DestroyKeepsBindings` | go/src/warden/server/container.go:304-306 | A destroy request to an active container answers with success exactly when the script succeeds. Either way the network, ports and user identity stay bound and the pools are unchanged: destroy does not release. |
| `Scenarios.ReleaseThenAcquire` | go/src/warden/server/container.go:94-147 | A holder releases and a fresh container sharing its pools acquires. The acquisition succeeds. The free network and user-identity pools end the same size as they started, and the port pool regains the released ports. |
| `Scenarios.ReleaseTwice` | go/src/warden/server/container.go:127-147 | Releasing twice leaves bindings and pools exactly as releasing once: the second release is a no-op. |

## Left out

- The actor loop `Run`, the rendezvous in `Execute` and the idle timer (container.go:206-254). They are concurrency and timing. Idle expiry in `Run` calls `doDestroy` in whatever state the container is in, born included, and without deleting the snapshot first. That path is not modelled.
- The backend scripts and `runCommand` are not run. Each script's exit status is an input, and so is the error text of a failing stop or destroy. The create script's environment is not modelled. That environment holds the id, the host and container addresses derived from the network, the user identity and the root filesystem path.
- StopContainer: the `kill` flag only adds a zero grace window to the stop script's arguments. Its effect belongs to the script, so the model takes it and does nothing with it.
- MarkDirty: always leaves the snapshot absent. A failure to delete an existing snapshot file is not modelled, because the source discards that error.
- MarkClean: the temporary file, JSON encoding, flush and rename are file I/O. Only their overall success is an input.
- The working directory and its removal after a destroy are not modelled, and neither is the panic if removal fails. The panic on an unknown state cannot happen with a closed set of states.
- The process-wide registry is a `registered` flag. `NextId` is replaced by the id passed to the constructor. Logging, timing and the `GetState`/`GetId`/`GetHandle` accessors are left out; the fields are read directly.
- The pool package is not part of this model. `Pool` implements only the acquire/remove/release contract the container uses. Networks, ports and user identities are non-negative integers, and `pool.IP.Add` address arithmetic is left out.
- The idle timeout is a number of seconds rather than a Go duration.
