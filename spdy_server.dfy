/**
 The server side of SPDY connection setup: a connection factory that builds one
 session per accepted endpoint, keeps every live session in a registry queue,
 removes a session when its connection closes, and on stop sends a GO_AWAY to
 every registered session before emptying the registry. Each connection tells
 the application listener about its session at most once, from a task handed to
 the connector's executor on the first `onOpen`.

 Every operation is modelled as one atomic step. The executor, the application
 listener and the session's GO_AWAY are outside the model; their calls are kept
 as ghost logs so that what the factory asks of them can be stated.
 */
module SpdyServer {
  import opened Jvm
  import opened Queue

  datatype Option<T> = None | Some(value: T)

  /** The remote address an endpoint reports for its peer. */
  type Address = string

  /** An accepted transport endpoint, as far as the factory looks at it. */
  datatype EndPoint = EndPoint(remoteAddress: Address)

  /**
   The flow-control strategy a session uses. The factory that chooses it from the
   protocol version is not part of this model, so a strategy is known only by the
   version it was chosen for.
   */
  datatype FlowControlStrategy = StrategyFor(version: int16)

  /** `newFlowControlStrategy(version)`: the strategy is a function of the version alone. */
  function NewFlowControlStrategy(version: int16): (strategy: FlowControlStrategy)
    ensures strategy.version == version
  {
    StrategyFor(version)
  }

  /** The connector's executor: records, in order, the tasks handed to it. */
  class Executor {
    ghost var submitted: seq<ServerConnection>

    constructor ()
      ensures submitted == []
    {
      submitted := [];
    }

    method Execute(task: ServerConnection)
      modifies this
      ensures submitted == old(submitted) + [task]
    {
      submitted := submitted + [task];
    }
  }

  /** The connector that accepted the endpoint; the factory uses only its executor. */
  class Connector {
    const executor: Executor

    constructor (executor: Executor)
      ensures this.executor == executor
    {
      this.executor := executor;
    }
  }

  /** The application's `ServerSessionFrameListener`: records the sessions it was told about. */
  class Listener {
    ghost var connects: seq<Session?>

    constructor ()
      ensures connects == []
    {
      connects := [];
    }

    method OnConnect(session: Session?)
      modifies this
      ensures connects == old(connects) + [session]
    {
      connects := connects + [session];
    }
  }

  /** The part of a session that the factory sets up. */
  class Session {
    const version: int16
    const connection: ServerConnection
    const flowControl: FlowControlStrategy
    var windowSize: int32
    /** The remote-address attribute, once stored. */
    var remoteAddress: Option<Address>

    constructor (version: int16, connection: ServerConnection, flowControl: FlowControlStrategy)
      ensures this.version == version && this.connection == connection
      ensures this.flowControl == flowControl
      ensures remoteAddress == None
    {
      this.version := version;
      this.connection := connection;
      this.flowControl := flowControl;
      windowSize := 65536;
      remoteAddress := None;
    }

    method SetRemoteAddress(address: Address)
      modifies this`remoteAddress
      ensures remoteAddress == Some(address)
    {
      remoteAddress := Some(address);
    }

    method SetWindowSize(size: int32)
      modifies this`windowSize
      ensures windowSize == size
    {
      windowSize := size;
    }
  }

  /**
   The connected flag and the number of tasks submitted after `calls` successive
   `onOpen` calls on one connection whose flag starts at `connected`.
   */
  function OpenCalls(connected: bool, calls: nat): (bool, nat)
    decreases calls
  {
    if calls == 0 then (connected, 0)
    else
      var (flag, won) := CompareAndSet(connected, false, true);
      var (last, tasks) := OpenCalls(flag, calls - 1);
      (last, tasks + if won then 1 else 0)
  }

  /**
   However often `onOpen` is called, the flag goes from false to true once and
   exactly one task is submitted; a connection already connected submits none.
   */
  lemma {:induction false} OpenSubmitsAtMostOnce(connected: bool, calls: nat)
    decreases calls
    ensures OpenCalls(connected, calls).0 == (connected || calls > 0)
    ensures OpenCalls(connected, calls).1 == if !connected && calls > 0 then 1 else 0
  {
    if calls > 0 {
      OpenSubmitsAtMostOnce(true, calls - 1);
    }
  }

  /** The connection of one accepted endpoint; an inner object of its factory. */
  class ServerConnection {
    const factory: Factory
    const endPoint: EndPoint
    const executor: Executor
    const listener: Listener?
    var session: Session?
    var connected: bool

    constructor (factory: Factory, connector: Connector, endPoint: EndPoint, listener: Listener?)
      ensures this.factory == factory && this.endPoint == endPoint
      ensures executor == connector.executor && this.listener == listener
      ensures session == null && !connected
    {
      this.factory := factory;
      this.endPoint := endPoint;
      executor := connector.executor;
      this.listener := listener;
      session := null;
      connected := false;
    }

    method SetSession(session: Session)
      modifies this`session
      ensures this.session == session
    {
      this.session := session;
    }

    /** `onOpen`: only the call that flips `connected` from false to true submits this connection's task. */
    method OnOpen()
      modifies this`connected, executor
      ensures (connected, |executor.submitted| - |old(executor.submitted)|) == OpenCalls(old(connected), 1)
      ensures executor.submitted == old(executor.submitted) + if old(connected) then [] else [this]
    {
      var (flag, won) := CompareAndSet(connected, false, true);
      connected := flag;
      if won {
        executor.Execute(this);
      }
    }

    /** `onClose`: removes this connection's session from the factory's registry. */
    method OnClose()
      modifies factory`sessions
      ensures factory.sessions == if session == null then old(factory.sessions)
                                  else RemoveFirst(old(factory.sessions), session)
    {
      if session != null {
        var _ := factory.SessionClosed(session);
      }
    }

    /** `run`: tells the listener, when there is one, that the session is connected. */
    method Run()
      modifies listener
      ensures listener != null ==> listener.connects == old(listener.connects) + [session]
    {
      if listener != null {
        listener.OnConnect(session);
      }
    }
  }

  /** The connection factory and its registry of live sessions. */
  class Factory {
    const version: int16
    const listener: Listener?
    var initialWindowSize: int32
    /** The registry, in queue order. */
    var sessions: seq<Session>
    /** The sessions sent a GO_AWAY, in the order it was sent. */
    ghost var goneAway: seq<Session>

    constructor (version: int32, listener: Listener?)
      ensures this.version == ToShort(version) && this.listener == listener
      ensures initialWindowSize == 65536
      ensures sessions == [] && goneAway == []
    {
      this.version := ToShort(version);
      this.listener := listener;
      initialWindowSize := 65536;
      sessions := [];
      goneAway := [];
    }

    function GetInitialWindowSize(): (size: int32)
      reads this
      ensures size == initialWindowSize
    {
      initialWindowSize
    }

    method SetInitialWindowSize(size: int32)
      modifies this`initialWindowSize
      ensures initialWindowSize == size
    {
      initialWindowSize := size;
    }

    /** `getSessions`: a read-only view of the registry. */
    function GetSessions(): (view: seq<Session>)
      reads this
      ensures view == sessions
    {
      sessions
    }

    /**
     `newConnection`: builds a connection and its session for the endpoint and
     registers the session. The session carries the configured window size, the
     endpoint's remote address, and the strategy for the factory's version.
     */
    method NewConnection(connector: Connector, endPoint: EndPoint) returns (connection: ServerConnection)
      modifies this`sessions
      ensures fresh(connection) && connection.session != null && fresh(connection.session)
      ensures connection.factory == this && connection.endPoint == endPoint
      ensures connection.executor == connector.executor && connection.listener == listener
      ensures !connection.connected
      ensures connection.session.connection == connection && connection.session.version == version
      ensures connection.session.flowControl == NewFlowControlStrategy(version)
      ensures connection.session.windowSize == initialWindowSize
      ensures connection.session.remoteAddress == Some(endPoint.remoteAddress)
      ensures sessions == old(sessions) + [connection.session]
      ensures Distinct(old(sessions)) ==> Distinct(sessions)
    {
      // provideServerSessionFrameListener hands every connection the factory's listener
      connection := new ServerConnection(this, connector, endPoint, listener);
      var strategy := NewFlowControlStrategy(version);
      var session := new Session(version, connection, strategy);
      session.SetRemoteAddress(endPoint.remoteAddress);
      session.SetWindowSize(initialWindowSize);
      connection.SetSession(session);
      var _ := SessionOpened(session);
    }

    /** `sessionOpened`: appends to the registry; an unbounded queue always accepts. */
    method SessionOpened(session: Session) returns (added: bool)
      modifies this`sessions
      ensures added && sessions == old(sessions) + [session]
      ensures Distinct(sessions) <==> Distinct(old(sessions)) && session !in old(sessions)
    {
      AppendDistinct(sessions, session);
      sessions := sessions + [session];
      added := true;
    }

    /** `sessionClosed`: removes the first occurrence, reporting whether there was one. */
    method SessionClosed(session: Session) returns (removed: bool)
      modifies this`sessions
      ensures removed == (session in old(sessions))
      ensures sessions == RemoveFirst(old(sessions), session)
      ensures removed ==> multiset(sessions) == multiset(old(sessions)) - multiset{session}
      ensures Distinct(old(sessions)) ==> Distinct(sessions) && session !in sessions
    {
      removed := session in sessions;
      RemoveFirstMultiset(sessions, session);
      if Distinct(sessions) {
        RemoveFirstDistinct(sessions, session);
      }
      sessions := RemoveFirst(sessions, session);
    }

    /** `closeSessions`: a GO_AWAY to every entry, in queue order, then an empty registry. */
    method CloseSessions()
      modifies this`sessions, this`goneAway
      ensures goneAway == old(goneAway) + old(sessions)
      ensures sessions == []
    {
      var i := 0;
      while i < |sessions|
        invariant 0 <= i <= |sessions|
        invariant sessions == old(sessions)
        invariant goneAway == old(goneAway) + sessions[..i]
      {
        goneAway := goneAway + [sessions[i]];
        i := i + 1;
      }
      sessions := [];
    }

    /** `doStop`: closes the sessions before the inherited stop. */
    method DoStop()
      modifies this`sessions, this`goneAway
      ensures goneAway == old(goneAway) + old(sessions)
      ensures sessions == []
    {
      CloseSessions();
    }
  }

  /**
   A connection opened twice submits its task once: the second `onOpen` finds the
   flag already set.
   */
  method OpenTwice(connection: ServerConnection)
    requires !connection.connected
    modifies connection`connected, connection.executor
    ensures connection.connected
    ensures connection.executor.submitted == old(connection.executor.submitted) + [connection]
  {
    connection.OnOpen();
    connection.OnOpen();
  }

  /**
   Closing the session of a fresh connection twice removes it on the first call
   and finds nothing on the second, when the registry held no duplicates.
   */
  method CloseTwice(factory: Factory, connector: Connector, endPoint: EndPoint)
    returns (first: bool, second: bool)
    requires Distinct(factory.sessions)
    modifies factory`sessions
    ensures first && !second
    ensures factory.sessions == old(factory.sessions) && Distinct(factory.sessions)
  {
    var connection := factory.NewConnection(connector, endPoint);
    first := factory.SessionClosed(connection.session);
    OfferThenRemove(old(factory.sessions), connection.session);
    second := factory.SessionClosed(connection.session);
  }
}
