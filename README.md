# SPDY server connection factory

A Dafny model of the server side of SPDY connection setup in Jetty
(`SPDYServerConnectionFactory` and its inner `ServerSPDYConnection`).

For each accepted endpoint the factory builds a connection and a session. The
session gets the factory's protocol version, a flow-control strategy chosen
from that version, the configured initial window size and the endpoint's remote
address. The factory then registers the session in its registry queue. When
the connection closes, its session is removed from the registry. When the
factory stops, every registered session is sent a GO_AWAY, in queue order, and
the registry is emptied. Each connection has a one-shot `connected` flag. Only
the `onOpen` call that flips it from false to true hands the connection to the
executor. The connection's `run` then tells the application listener about the
session, if a listener was supplied.

Files:

- `jvm.dfy` (module `Jvm`): Java `short` and `int`, the `(short)` narrowing
  cast, and `AtomicBoolean.compareAndSet` as a function on one flag value.
- `queue.dfy` (module `Queue`): the registry's `ConcurrentLinkedQueue` as a
  sequence in queue order. `offer` appends and `remove(o)` deletes the first
  occurrence. Lemmas cover counts, duplicates, and offer followed by remove.
- `spdy_server.dfy` (module `SpdyServer`): the classes `Factory`,
  `ServerConnection` and `Session`, plus the external `Executor`, `Listener`
  and `Connector`. The latter three keep ghost logs of the calls made to them.
  The function `OpenCalls` gives the effect of any number of `onOpen` calls on
  one connection.

Every operation is one atomic step, taken in sequence. The executor's task
queue, the listener's `onConnect` calls and the GO_AWAY broadcast are recorded
as ghost sequences (`Executor.submitted`, `Listener.connects`,
`Factory.goneAway`). This lets the contracts state what the factory asks of
these collaborators.

Notes on the code:

- The registry is a queue, not a set. `sessionOpened` appends without checking
  for a duplicate. A session therefore appears at most once only as long as
  every registration comes from `newConnection`, which always registers a fresh
  session. The contracts state when distinctness is preserved.
- `sessionOpened` never rejects a session, even after the factory has stopped.
  The comments at lines 111 and 117 mention "not stopping", but the code does
  not check for it.
- The code raises no unsupported-version error. The version is truncated to a
  `short`, and the choice of strategy is left to the flow-control factory.
- `closeSessions` iterates over the queue and then clears it. It is not an
  atomic drain.

## Model

| member | source | states |
|---|---|---|
| `Jvm.ToShort` | jetty-spdy/spdy-jetty/src/main/java/org/eclipse/jetty/spdy/SPDYServerConnectionFactory.java:51 | the stored version is the `short` congruent to the given `int` modulo 2^16; a version already in `short` range is kept as is |
| `SpdyServer.Factory.constructor` | jetty-spdy/spdy-jetty/src/main/java/org/eclipse/jetty/spdy/SPDYServerConnectionFactory.java:48-54 | stores the listener and the version truncated to a `short`; the initial window size is 65536; the registry starts empty |
| `SpdyServer.Factory.GetInitialWindowSize` | jetty-spdy/spdy-jetty/src/main/java/org/eclipse/jetty/spdy/SPDYServerConnectionFactory.java:99-102 | returns the window size that new sessions will be given |
| `SpdyServer.Factory.SetInitialWindowSize` | jetty-spdy/spdy-jetty/src/main/java/org/eclipse/jetty/spdy/SPDYServerConnectionFactory.java:104-107 | the window size for later sessions becomes the given `int`; nothing else changes |
| `SpdyServer.Factory.NewConnection` | jetty-spdy/spdy-jetty/src/main/java/org/eclipse/jetty/spdy/SPDYServerConnectionFactory.java:67-87 | returns a new, not yet connected connection that points back to a new session; the session has the factory's version, the strategy for that version, the current initial window size and the endpoint's remote address; the connection uses the connector's executor and the factory's listener; the registry gains exactly that session at its end, so a registry without duplicates stays without duplicates |
| `SpdyServer.Factory.SessionOpened` | jetty-spdy/spdy-jetty/src/main/java/org/eclipse/jetty/spdy/SPDYServerConnectionFactory.java:109-113 | always returns true and appends the session, leaving the earlier entries as they were; the registry is without duplicates afterwards exactly when it was before and did not hold the session |
| `SpdyServer.Factory.SessionClosed` | jetty-spdy/spdy-jetty/src/main/java/org/eclipse/jetty/spdy/SPDYServerConnectionFactory.java:115-120 | returns whether the session was registered; removes its first occurrence and keeps the others in order; an absent session leaves the registry unchanged; in a registry without duplicates the session is gone afterwards |
| `SpdyServer.Factory.CloseSessions` | jetty-spdy/spdy-jetty/src/main/java/org/eclipse/jetty/spdy/SPDYServerConnectionFactory.java:122-127 | sends one GO_AWAY per registry entry, in queue order, and leaves the registry empty |
| `SpdyServer.Factory.DoStop` | jetty-spdy/spdy-jetty/src/main/java/org/eclipse/jetty/spdy/SPDYServerConnectionFactory.java:129-134 | after stop every session registered before it has been sent a GO_AWAY and the registry is empty |
| `SpdyServer.Factory.GetSessions` | jetty-spdy/spdy-jetty/src/main/java/org/eclipse/jetty/spdy/SPDYServerConnectionFactory.java:136-139 | the registered sessions in queue order, as they stand at the call |
| `SpdyServer.NewFlowControlStrategy` | jetty-spdy/spdy-jetty/src/main/java/org/eclipse/jetty/spdy/SPDYServerConnectionFactory.java:89-92 | the strategy is chosen from the version alone; the factory that makes the choice is not part of this model |
| `SpdyServer.ServerConnection.constructor` | jetty-spdy/spdy-jetty/src/main/java/org/eclipse/jetty/spdy/SPDYServerConnectionFactory.java:141-150 | a new connection has the connector's executor and the given listener, no session yet, and its `connected` flag is false |
| `SpdyServer.ServerConnection.OnOpen` | jetty-spdy/spdy-jetty/src/main/java/org/eclipse/jetty/spdy/SPDYServerConnectionFactory.java:152-158 | sets the flag; the connection is handed to the executor exactly when the flag was false before, and never otherwise |
| `SpdyServer.OpenSubmitsAtMostOnce` | jetty-spdy/spdy-jetty/src/main/java/org/eclipse/jetty/spdy/SPDYServerConnectionFactory.java:152-158 | over any number of `onOpen` calls the flag is set after the first one and exactly one task is submitted from a fresh connection; a connection already connected submits none |
| `SpdyServer.OpenTwice` | jetty-spdy/spdy-jetty/src/main/java/org/eclipse/jetty/spdy/SPDYServerConnectionFactory.java:152-158 | two `onOpen` calls on a fresh connection hand it to the executor once |
| `SpdyServer.ServerConnection.OnClose` | jetty-spdy/spdy-jetty/src/main/java/org/eclipse/jetty/spdy/SPDYServerConnectionFactory.java:160-165 | removes the connection's session from its factory's registry as `sessionClosed` does; a connection without a session leaves the registry unchanged |
| `SpdyServer.ServerConnection.Run` | jetty-spdy/spdy-jetty/src/main/java/org/eclipse/jetty/spdy/SPDYServerConnectionFactory.java:167-173 | calls the listener's `onConnect` with the connection's session exactly once when there is a listener, and does nothing when there is none |
| `Queue.RemoveFirst` | jetty-spdy/spdy-jetty/src/main/java/org/eclipse/jetty/spdy/SPDYServerConnectionFactory.java:119 | the queue without the first occurrence of the element, the rest in their order; unchanged when the element is absent |
| `Queue.RemoveFirstMultiset` | jetty-spdy/spdy-jetty/src/main/java/org/eclipse/jetty/spdy/SPDYServerConnectionFactory.java:119 | a successful remove takes away exactly one occurrence and nothing else, shortening the queue by one |
| `Queue.RemoveFirstDistinct` | jetty-spdy/spdy-jetty/src/main/java/org/eclipse/jetty/spdy/SPDYServerConnectionFactory.java:115-120 | removing from a queue without duplicates keeps it without duplicates and leaves the element absent, so a second close of the same session finds nothing |
| `Queue.AppendDistinct` | jetty-spdy/spdy-jetty/src/main/java/org/eclipse/jetty/spdy/SPDYServerConnectionFactory.java:109-113 | after an append the queue is without duplicates exactly when it was before and did not hold the new element |
| `Queue.OfferThenRemove` | jetty-spdy/spdy-jetty/src/main/java/org/eclipse/jetty/spdy/SPDYServerConnectionFactory.java:109-120 | opening and then closing a session that was not registered restores the registry |
| `SpdyServer.CloseTwice` | jetty-spdy/spdy-jetty/src/main/java/org/eclipse/jetty/spdy/SPDYServerConnectionFactory.java:115-120 | closing a new connection's session twice returns true and then false, and the registry ends as it began |

## Left out

- Concurrency: the queue's weakly consistent iteration, sessions added while `closeSessions` runs, and the atomicity of `compareAndSet`. Every operation is one sequential step.
- Executor threading: the executor only records the tasks handed to it. The model does not run them or say on which thread they run.
- `super.onOpen()`, `super.onClose()` and `super.doStop()` belong to `SPDYConnection` and `AbstractConnectionFactory`, which are not part of this model.
- Parser, generator, compression factory, byte buffer pool, scheduler and input buffer size in `newConnection`: these are external collaborators with no observable effect on the registry or the notification.
- `FlowControlStrategyFactory` is not part of this model. A strategy is known only by the version it was chosen for.
- `StandardSession` is not part of this model. The model keeps its version, connection, flow-control strategy, window size and remote-address attribute. It does not keep the byte buffer pool, executor, scheduler, frame listener, generator or initial stream id (2) that the factory passes at line 78. The default window size before `setWindowSize` is not constrained, and GO_AWAY is recorded as a call, not as a state change of the session.
- `SpdyServer.Factory.CloseSessions` and `SpdyServer.Factory.DoStop` assume that every `goAway` call returns normally. In the code, an exception from `goAway` ends the loop early: the remaining sessions get no GO_AWAY, the registry is not cleared, and `super.doStop()` is skipped. The model does not capture that path.
- `SpdyServer.Factory.GetSessions` returns the registry's contents at the call. The Java unmodifiable view reads through to the live queue, so a caller holding it also sees later `offer`, `remove` and `clear` calls. The model does not capture that aliasing.
- The remote-address attribute is a single optional field instead of a string-keyed attribute map. The `"spdy/"+version` protocol name passed to the superclass is not modelled.
- `getVersion`, `getServerSessionFrameListener` and `provideServerSessionFrameListener` return fields unchanged. In the model they are read directly as the `version` and `listener` constants.
