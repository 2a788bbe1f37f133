/** The connection registry of the server as a transition system. Each `await`
    in `OnClientAccepted` and `ReadClientMessages` splits the code into atomic
    steps; any interleaving of the steps of different connections, and of the
    cancellation request, is a possible run. */
module ConnectionManager {
  import opened Wrappers
  import opened Core
  import opened ClientConnection

  /** What a finished read loop recorded: the socket error code of a
      `DisconnectedException` wrapping a `SocketException`, and whether the
      failure was reported as a warning. */
  datatype Exit = Exit(socketErrorCode: Option<int>, warned: bool)

  /** Where a connection's read loop is: about to check cancellation, waiting
      for `ReadMessage`, or finished. */
  datatype Phase = Checking | Awaiting | Ended(exit: Exit)

  datatype Conn = Conn(client: Client, phase: Phase)

  /** `registry` is the `Clients` snapshot; `conns` holds every connection ever
      accepted; `trace` lists the raised events in order. */
  datatype State = State(
    registry: set<ConnId>,
    conns: map<ConnId, Conn>,
    cancelled: bool,
    trace: seq<Event>)

  /** A new manager: the registry starts empty. */
  function Init(): State
  {
    State({}, map[], false, [])
  }

  /** The `catch` block: what is recorded for the exception that ended the
      read loop. */
  function Diagnose(f: Failure): (e: Exit)
    ensures e.socketErrorCode.Some? <==>
      f.Disconnected? && f.inner.Some? && f.inner.value.SocketError?
    ensures e.socketErrorCode.Some? ==> e.socketErrorCode.value == f.inner.value.errorCode
    ensures e.warned <==> f.OtherFailure?
  {
    var code :=
      match f
      case Disconnected(Some(SocketError(code))) => Some(code)
      case _ => None;
    Exit(code, !(f.OperationCanceled? || f.Disconnected?))
  }

  /** The `finally` block: remove the connection from the snapshot, then raise
      `ClientDisconnected`. */
  function Finish(s: State, c: ConnId, f: Failure): State
    requires c in s.conns
  {
    s.(registry := s.registry - {c},
       conns := s.conns[c := s.conns[c].(phase := Ended(Diagnose(f)))],
       trace := s.trace + [ClientDisconnected(c)])
  }

  /** Whether the source's control flow can take `step` now. A step that is
      not enabled leaves the state unchanged. */
  predicate Enabled(s: State, step: Step)
  {
    match step
    case Accept(c, _) => c !in s.conns
    case BeginRead(c) => c in s.conns && s.conns[c].phase == Checking
    case ReadOk(c, _) => c in s.conns && s.conns[c].phase == Awaiting
    case ReadFail(c, _) => c in s.conns && s.conns[c].phase == Awaiting
    case Cancel => true
  }

  function Next(s: State, step: Step): State
  {
    if !Enabled(s, step) then s
    else match step
      case Accept(c, ep) =>
        s.(registry := s.registry + {c},
           conns := s.conns[c := Conn(NewClient(ep), Checking)],
           trace := s.trace + [ClientConnected(c)])
      case BeginRead(c) =>
        if s.cancelled then Finish(s, c, OperationCanceled)
        else s.(conns := s.conns[c := s.conns[c].(phase := Awaiting)])
      case ReadOk(c, m) =>
        var conn := s.conns[c];
        s.(conns := s.conns[c := Conn(SetLastUsername(conn.client, Some(m.sender)), Checking)],
           trace := s.trace + [IncomingMessage(c, m)])
      case ReadFail(c, f) => Finish(s, c, f)
      case Cancel => s.(cancelled := true)
  }

  /** The state after taking `steps` in order from `s`. */
  function Run(s: State, steps: seq<Step>): State
    decreases |steps|
  {
    if |steps| == 0 then s else Run(Next(s, steps[0]), steps[1..])
  }

  /** The sender of the last message read on `c`, if any. */
  function LastSender(t: seq<Event>, c: ConnId): Option<string>
  {
    if |t| == 0 then None
    else if t[|t| - 1].IncomingMessage? && t[|t| - 1].conn == c then Some(t[|t| - 1].message.sender)
    else LastSender(t[..|t| - 1], c)
  }

  /** The number of `IncomingMessage` events raised for `c`. */
  function Incomings(t: seq<Event>, c: ConnId): nat
  {
    if |t| == 0 then 0
    else Incomings(t[..|t| - 1], c) + (if t[|t| - 1].IncomingMessage? && t[|t| - 1].conn == c then 1 else 0)
  }

  /** The registry holds exactly the connections whose read loop has not
      ended. */
  ghost predicate RegistryIsLive(s: State)
  {
    forall c :: c in s.registry <==> c in s.conns && !s.conns[c].phase.Ended?
  }

  /** Per connection, `ClientConnected` comes before every other event and
      `ClientDisconnected` after every other event. */
  ghost predicate LifecycleOrdered(t: seq<Event>)
  {
    forall i, j :: 0 <= i < j < |t| && t[i].conn == t[j].conn ==>
      !t[j].ClientConnected? && !t[i].ClientDisconnected?
  }

  /** Every event names an accepted connection, and every accepted connection
      has had its `ClientConnected`. */
  ghost predicate EventsKnown(s: State)
  {
    && (forall i :: 0 <= i < |s.trace| ==> s.trace[i].conn in s.conns)
    && (forall c :: c in s.conns ==> ClientConnected(c) in s.trace)
  }

  /** A read loop has ended exactly when its `ClientDisconnected` was raised. */
  ghost predicate EndedIffDisconnected(s: State)
  {
    forall c :: c in s.conns ==> (s.conns[c].phase.Ended? <==> ClientDisconnected(c) in s.trace)
  }

  /** `LastUsername` is the sender of the last message read on the connection. */
  ghost predicate UsernamesTrack(s: State)
  {
    forall c :: c in s.conns ==> s.conns[c].client.lastUsername == LastSender(s.trace, c)
  }

  ghost predicate Inv(s: State)
  {
    && RegistryIsLive(s)
    && EventsKnown(s)
    && LifecycleOrdered(s.trace)
    && EndedIffDisconnected(s)
    && UsernamesTrack(s)
  }

  lemma LastSenderAppend(t: seq<Event>, e: Event, c: ConnId)
    ensures LastSender(t + [e], c) ==
      if e.IncomingMessage? && e.conn == c then Some(e.message.sender) else LastSender(t, c)
    ensures Incomings(t + [e], c) ==
      Incomings(t, c) + (if e.IncomingMessage? && e.conn == c then 1 else 0)
  {
    assert (t + [e])[..|t|] == t;
  }

  lemma {:induction false} LastSenderOfStranger(t: seq<Event>, c: ConnId)
    requires forall i :: 0 <= i < |t| ==> t[i].conn != c
    ensures LastSender(t, c) == None
  {
    if |t| > 0 {
      LastSenderOfStranger(t[..|t| - 1], c);
    }
  }

  /** Facts every step keeps, invariant or not: the trace only grows, by at
      most one event; accepted connections stay known; a connection's endpoint
      never changes; an ended read loop stays ended; cancellation is never
      withdrawn. */
  lemma NextFacts(s: State, step: Step)
    ensures var s' := Next(s, step);
      && |s.trace| <= |s'.trace| <= |s.trace| + 1
      && s'.trace[..|s.trace|] == s.trace
      && (|s'.trace| > |s.trace| ==> s'.trace[|s.trace|].conn in s'.conns)
      && (|s'.trace| > |s.trace| && s'.trace[|s.trace|].ClientConnected? ==>
            s'.conns[s'.trace[|s.trace|].conn].client.lastUsername == None)
      && s.conns.Keys <= s'.conns.Keys
      && (forall c :: c in s.conns ==> s'.conns[c].client.endPoint == s.conns[c].client.endPoint)
      && (forall c :: c in s.conns && s.conns[c].phase.Ended? ==> s'.conns[c] == s.conns[c])
      && (s.cancelled ==> s'.cancelled)
  {
    var s' := Next(s, step);
    if Enabled(s, step) && !step.Cancel? && !step.BeginRead? {
      assert s'.trace[..|s.trace|] == s.trace;
    }
  }

  lemma NextPreservesInv(s: State, step: Step)
    requires Inv(s)
    ensures Inv(Next(s, step))
  {
    if Enabled(s, step) {
      match step
      case Accept(c, ep) => AcceptPreservesInv(s, c, ep);
      case BeginRead(c) =>
        if s.cancelled {
          FinishPreservesInv(s, c, OperationCanceled);
        }
      case ReadOk(c, m) => ReadOkPreservesInv(s, c, m);
      case ReadFail(c, f) => FinishPreservesInv(s, c, f);
      case Cancel =>
    }
  }

  /** Appending an event keeps the per-connection order when it is not a
      second `ClientConnected` and does not follow a `ClientDisconnected`. */
  lemma OrderedAppend(t: seq<Event>, e: Event)
    requires LifecycleOrdered(t)
    requires e.ClientConnected? ==> forall i :: 0 <= i < |t| ==> t[i].conn != e.conn
    requires forall i :: 0 <= i < |t| && t[i].conn == e.conn ==> !t[i].ClientDisconnected?
    ensures LifecycleOrdered(t + [e])
  {
    var t' := t + [e];
    forall i, j | 0 <= i < j < |t'| && t'[i].conn == t'[j].conn
      ensures !t'[j].ClientConnected? && !t'[i].ClientDisconnected?
    {
      if j < |t| {
        assert t'[i] == t[i] && t'[j] == t[j];
      } else {
        assert t'[i] == t[i] && t'[j] == e;
      }
    }
  }

  /** The shape shared by every step that raises an event: connection `c`
      gets a new record, the event `e` about `c` is appended, and the
      registry gains or loses `c` according to whether its loop has ended. */
  ghost predicate AppendStep(s: State, s': State, c: ConnId, e: Event)
  {
    && e.conn == c
    && c in s'.conns
    && s'.conns == s.conns[c := s'.conns[c]]
    && s'.trace == s.trace + [e]
    && s'.registry == (if s'.conns[c].phase.Ended? then s.registry - {c} else s.registry + {c})
  }

  lemma LiveAfterAppend(s: State, s': State, c: ConnId, e: Event)
    requires RegistryIsLive(s) && AppendStep(s, s', c, e)
    ensures RegistryIsLive(s')
  {
  }

  lemma KnownAfterAppend(s: State, s': State, c: ConnId, e: Event)
    requires EventsKnown(s) && AppendStep(s, s', c, e)
    requires c !in s.conns ==> e == ClientConnected(c)
    ensures EventsKnown(s')
  {
    assert s'.trace[|s.trace|] == e;
    forall d | d in s'.conns
      ensures ClientConnected(d) in s'.trace
    {
      if d != c {
        assert ClientConnected(d) in s.trace;
      }
    }
  }

  lemma EndedAfterAppend(s: State, s': State, c: ConnId, e: Event)
    requires EndedIffDisconnected(s) && AppendStep(s, s', c, e)
    requires c in s.conns ==> (s'.conns[c].phase.Ended? <==> s.conns[c].phase.Ended? || e.ClientDisconnected?)
    requires c !in s.conns ==> !s'.conns[c].phase.Ended? && !e.ClientDisconnected? && ClientDisconnected(c) !in s.trace
    ensures EndedIffDisconnected(s')
  {
    forall d | d in s'.conns
      ensures s'.conns[d].phase.Ended? <==> ClientDisconnected(d) in s'.trace
    {
      assert ClientDisconnected(d) in s'.trace <==> ClientDisconnected(d) in s.trace || e == ClientDisconnected(d);
    }
  }

  lemma TrackAfterAppend(s: State, s': State, c: ConnId, e: Event)
    requires UsernamesTrack(s) && AppendStep(s, s', c, e)
    requires s'.conns[c].client.lastUsername ==
      if e.IncomingMessage? then Some(e.message.sender)
      else if c in s.conns then s.conns[c].client.lastUsername
      else None
    requires c !in s.conns ==> forall i :: 0 <= i < |s.trace| ==> s.trace[i].conn != c
    ensures UsernamesTrack(s')
  {
    forall d | d in s'.conns
      ensures s'.conns[d].client.lastUsername == LastSender(s'.trace, d)
    {
      LastSenderAppend(s.trace, e, d);
      if d == c && c !in s.conns {
        LastSenderOfStranger(s.trace, c);
      }
    }
  }

  /** A step raising event `e` about `c` keeps the invariant when `e` is a
      first `ClientConnected` for a new connection, or any other event for a
      connection whose loop has not ended. */
  lemma AppendPreservesInv(s: State, s': State, c: ConnId, e: Event)
    requires Inv(s) && AppendStep(s, s', c, e)
    requires c !in s.conns ==>
      && e == ClientConnected(c)
      && s'.conns[c].client.lastUsername == None
      && !s'.conns[c].phase.Ended?
    requires c in s.conns ==>
      && !e.ClientConnected?
      && !s.conns[c].phase.Ended?
      && (s'.conns[c].phase.Ended? <==> e.ClientDisconnected?)
      && s'.conns[c].client.lastUsername ==
           if e.IncomingMessage? then Some(e.message.sender) else s.conns[c].client.lastUsername
    ensures Inv(s')
  {
    LiveAfterAppend(s, s', c, e);
    KnownAfterAppend(s, s', c, e);
    EndedAfterAppend(s, s', c, e);
    TrackAfterAppend(s, s', c, e);
    if c in s.conns {
      assert forall i :: 0 <= i < |s.trace| && s.trace[i].conn == c ==> s.trace[i] != ClientDisconnected(c);
    }
    OrderedAppend(s.trace, e);
  }

  lemma AcceptPreservesInv(s: State, c: ConnId, ep: Option<EndPoint>)
    requires Inv(s)
    requires c !in s.conns
    ensures Inv(Next(s, Accept(c, ep)))
  {
    AppendPreservesInv(s, Next(s, Accept(c, ep)), c, ClientConnected(c));
  }

  lemma ReadOkPreservesInv(s: State, c: ConnId, m: Message)
    requires Inv(s)
    requires c in s.conns && s.conns[c].phase == Awaiting
    ensures Inv(Next(s, ReadOk(c, m)))
  {
    AppendPreservesInv(s, Next(s, ReadOk(c, m)), c, IncomingMessage(c, m));
  }

  lemma FinishPreservesInv(s: State, c: ConnId, f: Failure)
    requires Inv(s)
    requires c in s.conns && !s.conns[c].phase.Ended?
    ensures Inv(Finish(s, c, f))
  {
    AppendPreservesInv(s, Finish(s, c, f), c, ClientDisconnected(c));
  }

  /** Every state reachable from a fresh manager satisfies the invariant. */
  lemma {:induction false} RunPreservesInv(s: State, steps: seq<Step>)
    requires Inv(s)
    ensures Inv(Run(s, steps))
    decreases |steps|
  {
    if |steps| > 0 {
      NextPreservesInv(s, steps[0]);
      RunPreservesInv(Next(s, steps[0]), steps[1..]);
    }
  }

  lemma ReachableInv(steps: seq<Step>)
    ensures Inv(Run(Init(), steps))
  {
    RunPreservesInv(Init(), steps);
  }

  /** The registry is exactly the set of connections that have had
      `ClientConnected` and not yet `ClientDisconnected`. */
  lemma RegistryMatchesTrace(s: State)
    requires Inv(s)
    ensures forall c :: c in s.registry <==>
      ClientConnected(c) in s.trace && ClientDisconnected(c) !in s.trace
  {
    forall c
      ensures c in s.registry <==> ClientConnected(c) in s.trace && ClientDisconnected(c) !in s.trace
    {
      if ClientConnected(c) in s.trace {
        var i :| 0 <= i < |s.trace| && s.trace[i] == ClientConnected(c);
        assert s.trace[i].conn == c;
      }
    }
  }

  /** Each connection raises `ClientConnected` at most once and
      `ClientDisconnected` at most once. */
  lemma EventsAtMostOnce(s: State, i: nat, j: nat)
    requires Inv(s)
    requires i < |s.trace| && j < |s.trace| && s.trace[i] == s.trace[j]
    requires s.trace[i].ClientConnected? || s.trace[i].ClientDisconnected?
    ensures i == j
  {
  }

  /** On accept the connection is in the registry by the time
      `ClientConnected` is raised for it, and starts with no username. */
  lemma AcceptRegistersFirst(s: State, c: ConnId, ep: Option<EndPoint>)
    requires c !in s.conns
    ensures var s' := Next(s, Accept(c, ep));
      && s'.registry == s.registry + {c}
      && s'.trace == s.trace + [ClientConnected(c)]
      && s'.conns[c] == Conn(Client(None, ep), Checking)
  {
  }

  /** However the read loop ends (the cancellation check, a disconnection, a
      cancelled or otherwise failed read), the connection leaves the registry,
      no other membership changes, and exactly one `ClientDisconnected` is
      raised after the removal. */
  lemma ReadEndRemovesThenDisconnects(s: State, step: Step)
    requires Inv(s)
    requires Enabled(s, step)
    requires step.ReadFail? || (step.BeginRead? && s.cancelled)
    ensures var s' := Next(s, step);
      && s'.registry == s.registry - {step.c}
      && step.c in s.registry
      && s'.trace == s.trace + [ClientDisconnected(step.c)]
      && ClientDisconnected(step.c) !in s.trace
      && s'.conns[step.c].phase ==
           Ended(Diagnose(if step.ReadFail? then step.failure else OperationCanceled))
  {
  }

  /** After a successful read, `LastUsername` is the message's sender before
      the `IncomingMessage` carrying that message is observed. */
  lemma ReadOkSetsUsernameFirst(s: State, c: ConnId, m: Message)
    requires Inv(s)
    requires c in s.conns && s.conns[c].phase == Awaiting
    ensures var s' := Next(s, ReadOk(c, m));
      && s'.trace == s.trace + [IncomingMessage(c, m)]
      && s'.conns[c].client.lastUsername == Some(m.sender)
      && s'.registry == s.registry
      && s'.conns[c].client.endPoint == s.conns[c].client.endPoint
  {
  }

  /** One read in flight when cancellation is requested may still complete. */
  function Budget(s: State, c: ConnId): nat
  {
    if c in s.conns && s.conns[c].phase == Awaiting then 1 else 0
  }

  lemma NextBudget(s: State, step: Step, c: ConnId)
    requires s.cancelled
    ensures Next(s, step).cancelled
    ensures Incomings(Next(s, step).trace, c) + Budget(Next(s, step), c)
         <= Incomings(s.trace, c) + Budget(s, c)
  {
    var s' := Next(s, step);
    if Enabled(s, step) && !step.Cancel? && !step.BeginRead? {
      var e := s'.trace[|s'.trace| - 1];
      assert s'.trace == s.trace + [e];
      LastSenderAppend(s.trace, e, c);
    } else if Enabled(s, step) && step.BeginRead? {
      LastSenderAppend(s.trace, ClientDisconnected(step.c), c);
    }
  }

  /** Once cancellation has been requested, no read starts any more: each
      connection raises at most one further `IncomingMessage` (from the read
      already in flight), and none at all if no read was in flight. */
  lemma {:induction false} AtMostOneMessageAfterCancel(s: State, steps: seq<Step>, c: ConnId)
    requires s.cancelled
    ensures Incomings(Run(s, steps).trace, c) + Budget(Run(s, steps), c)
         <= Incomings(s.trace, c) + Budget(s, c)
    decreases |steps|
  {
    if |steps| > 0 {
      NextBudget(s, steps[0], c);
      AtMostOneMessageAfterCancel(Next(s, steps[0]), steps[1..], c);
    }
  }
}
