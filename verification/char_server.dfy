/** The earlier registry, `CharServer`: the same add/remove discipline as the
    connection manager, but it raises no connect/disconnect events, never
    records usernames, and its constructor stores none of its arguments, so
    the cancellation token its read loop polls is the default one, which is
    never cancelled.

    `NextWith(s, step, storesToken)` models both the class as written
    (`storesToken == false`: a cancellation request never reaches the loop)
    and the evidently intended class whose constructor keeps the token
    (`storesToken == true`). */
module CharServer {
  import opened Wrappers
  import opened Core
  import opened ClientConnection
  import CM = ConnectionManager

  /** About to test `IsCancellationRequested`, waiting for `ReadMessage`, or
      finished (with whether the exit was logged as a warning). The shape
      follows the connection manager's, but `CharServer` records no socket
      error code, so a finished loop keeps only the warning flag; the state
      and its step guard are declared again over this phase. */
  datatype Phase = Checking | Awaiting | Ended(warned: bool)

  datatype Conn = Conn(client: Client, phase: Phase)

  /** `cancelled` is what the read loop's token reports. */
  datatype State = State(
    registry: set<ConnId>,
    conns: map<ConnId, Conn>,
    cancelled: bool,
    trace: seq<Event>)

  function Init(): State
  {
    State({}, map[], false, [])
  }

  /** The `catch` block: every exception except a cancellation is logged as
      a warning, a `DisconnectedException` included. */
  function Warns(f: Failure): bool
  {
    !f.OperationCanceled?
  }

  /** Against the connection manager: `CharServer` warns on every failure
      the manager warns on, and on disconnections as well. */
  lemma WarnsMoreThanManager(f: Failure)
    ensures Warns(f) <==> CM.Diagnose(f).warned || f.Disconnected?
    ensures CM.Diagnose(f).warned ==> Warns(f)
  {
  }

  function Remove(s: State, c: ConnId, warned: bool): State
    requires c in s.conns
  {
    s.(registry := s.registry - {c},
       conns := s.conns[c := s.conns[c].(phase := Ended(warned))])
  }

  predicate Enabled(s: State, step: Step)
  {
    match step
    case Accept(c, _) => c !in s.conns
    case BeginRead(c) => c in s.conns && s.conns[c].phase == Checking
    case ReadOk(c, _) => c in s.conns && s.conns[c].phase == Awaiting
    case ReadFail(c, _) => c in s.conns && s.conns[c].phase == Awaiting
    case Cancel => true
  }

  /** One step of `CharServer`. When the loop sees cancellation, `while`
      exits normally: the connection is removed without a warning. */
  function NextWith(s: State, step: Step, storesToken: bool): State
  {
    if !Enabled(s, step) then s
    else match step
      case Accept(c, ep) =>
        s.(registry := s.registry + {c}, conns := s.conns[c := Conn(NewClient(ep), Checking)])
      case BeginRead(c) =>
        if s.cancelled then Remove(s, c, false)
        else s.(conns := s.conns[c := s.conns[c].(phase := Awaiting)])
      case ReadOk(c, m) =>
        s.(conns := s.conns[c := s.conns[c].(phase := Checking)],
           trace := s.trace + [IncomingMessage(c, m)])
      case ReadFail(c, f) => Remove(s, c, Warns(f))
      case Cancel => if storesToken then s.(cancelled := true) else s
  }

  /** `CharServer` as written: the constructor drops its token. */
  function Next(s: State, step: Step): State
  {
    NextWith(s, step, false)
  }

  /** `CharServer` with the constructor storing its token. */
  function NextStoringToken(s: State, step: Step): State
  {
    NextWith(s, step, true)
  }

  function RunWith(s: State, steps: seq<Step>, storesToken: bool): State
    decreases |steps|
  {
    if |steps| == 0 then s else RunWith(NextWith(s, steps[0], storesToken), steps[1..], storesToken)
  }

  ghost predicate Inv(s: State)
  {
    && (forall c :: c in s.registry <==> c in s.conns && !s.conns[c].phase.Ended?)
    && (forall i :: 0 <= i < |s.trace| ==> s.trace[i].IncomingMessage? && s.trace[i].conn in s.conns)
    && (forall c :: c in s.conns ==> s.conns[c].client.lastUsername == None)
  }

  /** Whichever way the token is handled: the registry holds exactly the
      connections whose read loop has not ended, only `IncomingMessage` is
      ever raised, and no `LastUsername` is ever set. */
  lemma NextPreservesInv(s: State, step: Step, storesToken: bool)
    requires Inv(s)
    ensures Inv(NextWith(s, step, storesToken))
  {
    var s' := NextWith(s, step, storesToken);
    if Enabled(s, step) && step.ReadOk? {
      assert s'.trace == s.trace + [IncomingMessage(step.c, step.message)];
    }
  }

  lemma {:induction false} RunPreservesInv(s: State, steps: seq<Step>, storesToken: bool)
    requires Inv(s)
    ensures Inv(RunWith(s, steps, storesToken))
    decreases |steps|
  {
    if |steps| > 0 {
      NextPreservesInv(s, steps[0], storesToken);
      RunPreservesInv(NextWith(s, steps[0], storesToken), steps[1..], storesToken);
    }
  }

  lemma Reachable(steps: seq<Step>, storesToken: bool)
    ensures var s := RunWith(Init(), steps, storesToken);
      && (forall c :: c in s.registry <==> c in s.conns && !s.conns[c].phase.Ended?)
      && (forall e :: e in s.trace ==> e.IncomingMessage? && e.conn in s.conns)
      && (forall c :: c in s.conns ==> s.conns[c].client.lastUsername == None)
  {
    RunPreservesInv(Init(), steps, storesToken);
  }

  /** Each successful read raises one `IncomingMessage` for that connection
      and message, after those already raised; the registry does not change. */
  lemma ReadOkRaisesOnce(s: State, c: ConnId, m: Message, storesToken: bool)
    requires c in s.conns && s.conns[c].phase == Awaiting
    ensures var s' := NextWith(s, ReadOk(c, m), storesToken);
      && s'.trace == s.trace + [IncomingMessage(c, m)]
      && s'.registry == s.registry
      && s'.conns[c].client == s.conns[c].client
  {
  }

  /** A read failure of any kind removes the connection; only a cancellation
      is silent. */
  lemma ReadFailRemoves(s: State, c: ConnId, f: Failure, storesToken: bool)
    requires c in s.conns && s.conns[c].phase == Awaiting
    ensures var s' := NextWith(s, ReadFail(c, f), storesToken);
      && s'.registry == s.registry - {c}
      && s'.trace == s.trace
      && s'.conns[c].phase == Ended(!f.OperationCanceled?)
  {
  }

  /** As written, the loop's token never reports cancellation, so no read
      loop ever ends except by a failed read. */
  lemma {:induction false} AsWrittenNeverCancelled(s: State, steps: seq<Step>)
    requires !s.cancelled
    ensures !RunWith(s, steps, false).cancelled
    decreases |steps|
  {
    if |steps| > 0 {
      AsWrittenNeverCancelled(NextWith(s, steps[0], false), steps[1..]);
    }
  }

  /** The discrepancy on one run: accept a connection, request cancellation,
      then let it read. As written the read proceeds and its message is
      raised; with the token stored the loop exits and the connection is
      removed. */
  lemma CancelIgnoredAsWritten(m: Message)
    ensures RunWith(Init(), [Accept(0, None), Cancel, BeginRead(0), ReadOk(0, m)], false).trace
         == [IncomingMessage(0, m)]
    ensures RunWith(Init(), [Accept(0, None), Cancel, BeginRead(0), ReadOk(0, m)], true).trace == []
    ensures RunWith(Init(), [Accept(0, None), Cancel, BeginRead(0), ReadOk(0, m)], true).registry == {}
  {
    var steps := [Accept(0, None), Cancel, BeginRead(0), ReadOk(0, m)];
    UnfoldRun4(Init(), steps, false);
    UnfoldRun4(Init(), steps, true);
    var accepted := NextWith(Init(), Accept(0, None), false);
    assert accepted == NextWith(Init(), Accept(0, None), true);
    assert NextWith(accepted, Cancel, false) == accepted;
    var reading := NextWith(accepted, BeginRead(0), false);
    assert reading.conns[0].phase == Awaiting;
    assert NextWith(reading, ReadOk(0, m), false).trace == [IncomingMessage(0, m)];
    var cancelled := NextWith(accepted, Cancel, true);
    var removed := NextWith(cancelled, BeginRead(0), true);
    assert removed.conns[0].phase == Ended(false);
    assert NextWith(removed, ReadOk(0, m), true) == removed;
  }

  /** `n` turns of the read loop on connection 0, each reading `m`. */
  function ReadLoop(n: nat, m: Message): seq<Step>
  {
    if n == 0 then [] else [BeginRead(0), ReadOk(0, m)] + ReadLoop(n - 1, m)
  }

  /** As written, a connection that is at its loop check keeps reading for as
      many turns as it is given: each turn raises one more message. */
  lemma {:induction false} AsWrittenLoopReads(s: State, n: nat, m: Message)
    requires 0 in s.conns && s.conns[0].phase == Checking && !s.cancelled
    ensures var s' := RunWith(s, ReadLoop(n, m), false);
      && CM.Incomings(s'.trace, 0) == CM.Incomings(s.trace, 0) + n
      && 0 in s'.conns && s'.conns[0].phase == Checking && !s'.cancelled
    decreases n
  {
    if n > 0 {
      var steps := ReadLoop(n, m);
      var s1 := NextWith(s, BeginRead(0), false);
      var s2 := NextWith(s1, ReadOk(0, m), false);
      assert steps[0] == BeginRead(0) && steps[1..][0] == ReadOk(0, m);
      assert steps[1..][1..] == ReadLoop(n - 1, m);
      assert RunWith(s, steps, false) == RunWith(s2, ReadLoop(n - 1, m), false);
      CM.LastSenderAppend(s.trace, IncomingMessage(0, m), 0);
      AsWrittenLoopReads(s2, n - 1, m);
    }
  }

  /** The discrepancy for every run length: after `Cancel`, the class as
      written raises all `n` messages a connection reads, while with the
      token stored it raises none. */
  lemma CancelIgnoredForever(n: nat, m: Message)
    ensures CM.Incomings(RunWith(Init(), [Accept(0, None), Cancel] + ReadLoop(n, m), false).trace, 0) == n
    ensures CM.Incomings(RunWith(Init(), [Accept(0, None), Cancel] + ReadLoop(n, m), true).trace, 0) == 0
  {
    var steps := [Accept(0, None), Cancel] + ReadLoop(n, m);
    assert steps[0] == Accept(0, None) && steps[1..][0] == Cancel;
    assert steps[1..][1..] == ReadLoop(n, m);
    var accepted := NextWith(Init(), Accept(0, None), false);
    assert accepted == NextWith(Init(), Accept(0, None), true);
    assert RunWith(Init(), steps, false) == RunWith(NextWith(accepted, Cancel, false), ReadLoop(n, m), false);
    assert RunWith(Init(), steps, true) == RunWith(NextWith(accepted, Cancel, true), ReadLoop(n, m), true);
    AsWrittenLoopReads(accepted, n, m);
    StoredTokenStopsReading(NextWith(accepted, Cancel, true), ReadLoop(n, m), 0);
  }

  lemma UnfoldRun4(s: State, steps: seq<Step>, storesToken: bool)
    requires |steps| == 4
    ensures RunWith(s, steps, storesToken) ==
      NextWith(NextWith(NextWith(NextWith(s, steps[0], storesToken), steps[1], storesToken),
        steps[2], storesToken), steps[3], storesToken)
  {
    var s1 := NextWith(s, steps[0], storesToken);
    var s2 := NextWith(s1, steps[1], storesToken);
    var s3 := NextWith(s2, steps[2], storesToken);
    assert steps[1..][0] == steps[1] && steps[1..][1..] == steps[2..];
    assert steps[2..][0] == steps[2] && steps[2..][1..] == steps[3..];
    assert steps[3..][0] == steps[3] && steps[3..][1..] == [];
    calc {
      RunWith(s, steps, storesToken);
      RunWith(s1, steps[1..], storesToken);
      RunWith(s2, steps[2..], storesToken);
      RunWith(s3, steps[3..], storesToken);
      RunWith(NextWith(s3, steps[3], storesToken), [], storesToken);
    }
  }

  function Budget(s: State, c: ConnId): nat
  {
    if c in s.conns && s.conns[c].phase == Awaiting then 1 else 0
  }

  lemma NextBudget(s: State, step: Step, c: ConnId)
    requires s.cancelled
    ensures NextStoringToken(s, step).cancelled
    ensures CM.Incomings(NextStoringToken(s, step).trace, c) + Budget(NextStoringToken(s, step), c)
         <= CM.Incomings(s.trace, c) + Budget(s, c)
  {
    if Enabled(s, step) && step.ReadOk? {
      CM.LastSenderAppend(s.trace, IncomingMessage(step.c, step.message), c);
    }
  }

  /** With the token stored, cancellation stops every read loop: at most one
      further message per connection (the read already in flight). */
  lemma {:induction false} StoredTokenStopsReading(s: State, steps: seq<Step>, c: ConnId)
    requires s.cancelled
    ensures CM.Incomings(RunWith(s, steps, true).trace, c) + Budget(RunWith(s, steps, true), c)
         <= CM.Incomings(s.trace, c) + Budget(s, c)
    decreases |steps|
  {
    if |steps| > 0 {
      NextBudget(s, steps[0], c);
      StoredTokenStopsReading(NextWith(s, steps[0], true), steps[1..], c);
    }
  }
}
