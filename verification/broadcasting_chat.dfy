/** The broadcasting chat: a subscriber to the three events of the connection
    manager that turns each event into one message and, after yielding, sends
    it to every connection in the registry snapshot it then reads. */
module BroadcastingChat {
  import opened Wrappers
  import opened Core
  import opened ClientConnection
  import CM = ConnectionManager

  /** The sender name of the server's own notices. */
  const ServerSender: string := "<server>"

  /** The message an event handler hands to `BroadcastToAll`; `client` is the
      connection's state when the event is raised (its `ToString` is formatted
      before the handler yields). */
  function Handle(e: Event, client: Client): (m: Message)
    ensures e.IncomingMessage? ==> m == e.message
    ensures !e.IncomingMessage? ==> m.sender == ServerSender
  {
    match e
    case ClientConnected(_) => Message(ServerSender, Display(client) + " connected")
    case ClientDisconnected(_) => Message(ServerSender, Display(client) + " disconnected")
    case IncomingMessage(_, msg) => msg
  }

  predicate EndsWith(s: string, suffix: string)
  {
    |suffix| <= |s| && s[|s| - |suffix|..] == suffix
  }

  /** Reads a notice text back: whether it announces a connection (true) or a
      disconnection (false), and the connection's username and endpoint. */
  function ParseNotice(text: string): Option<(bool, Option<string>, Option<EndPoint>)>
  {
    var (connected, suffixLength) :=
      if EndsWith(text, " connected") then (true, 10)
      else if EndsWith(text, " disconnected") then (false, 13)
      else (false, 0);
    if suffixLength == 0 then None
    else match ParseDisplay(text[..|text| - suffixLength])
      case None => None
      case Some((u, ep)) => Some((connected, u, ep))
  }

  lemma StripSuffix(d: string, suffix: string)
    ensures EndsWith(d + suffix, suffix)
    ensures (d + suffix)[..|d + suffix| - |suffix|] == d
  {
    assert (d + suffix)[|d|..] == suffix;
  }

  /** A notice names the event and the connection unambiguously: the kind of
      event, the username (or its absence) and the endpoint are recovered from
      the text. */
  lemma NoticeRoundTrip(e: Event, client: Client)
    requires !e.IncomingMessage?
    requires client.endPoint.Some? ==> ValidEndPoint(client.endPoint.value)
    ensures ParseNotice(Handle(e, client).text) ==
      Some((e.ClientConnected?, client.lastUsername, client.endPoint))
  {
    var d := Display(client);
    DisplayRoundTrip(client);
    if e.ClientConnected? {
      StripSuffix(d, " connected");
    } else {
      var text := d + " disconnected";
      StripSuffix(d, " disconnected");
      assert text[|text| - 10] == 's';
    }
  }

  /** No connection is sent the message twice. */
  predicate Distinct(sends: seq<ConnId>)
  {
    forall i, j :: 0 <= i < j < |sends| ==> sends[i] != sends[j]
  }

  /** The sends of one `BroadcastToAll`: the query over `Clients` starts one
      `SendMessage` per connection of the snapshot; `Task.WhenAll` faults when
      any send to a connection in `failing` faults, and `LogBroadcasting`
      catches that fault and logs a single warning. */
  method BroadcastToAll(snapshot: set<ConnId>, failing: set<ConnId>)
    returns (sends: seq<ConnId>, delivered: set<ConnId>, warned: bool)
    ensures forall c :: c in sends <==> c in snapshot
    ensures Distinct(sends)
    ensures |sends| == |snapshot|
    ensures delivered == snapshot - failing
    ensures warned <==> snapshot * failing != {}
  {
    sends := StartSends(snapshot);
    delivered, warned := AwaitAll(sends, failing);
    if warned {
      var i :| 0 <= i < |sends| && sends[i] in failing;
      assert sends[i] in snapshot * failing;
    }
    if snapshot * failing != {} {
      var c :| c in snapshot * failing;
      assert c in sends;
    }
  }

  /** The `from client in Clients select client.SendMessage(message)` query:
      one send per connection of the snapshot, none twice. */
  method StartSends(snapshot: set<ConnId>) returns (sends: seq<ConnId>)
    ensures forall c :: c in sends <==> c in snapshot
    ensures Distinct(sends)
    ensures |sends| == |snapshot|
  {
    var rest := snapshot;
    var done: set<ConnId> := {};
    sends := [];
    while rest != {}
      invariant done + rest == snapshot && done !! rest
      invariant forall c :: c in sends <==> c in done
      invariant Distinct(sends)
      invariant |sends| == |done|
      decreases rest
    {
      var c :| c in rest;
      AppendFresh(sends, c);
      assert |done + {c}| == |done| + 1;
      sends := sends + [c];
      done := done + {c};
      rest := rest - {c};
    }
  }

  /** `Task.WhenAll` over the sends: the ones to `failing` fault, the others
      complete; the combined task faults if any send faulted. */
  method AwaitAll(sends: seq<ConnId>, failing: set<ConnId>) returns (delivered: set<ConnId>, warned: bool)
    ensures forall c :: c in delivered <==> c in sends && c !in failing
    ensures warned <==> exists i :: 0 <= i < |sends| && sends[i] in failing
  {
    delivered := {};
    warned := false;
    var i := 0;
    while i < |sends|
      invariant 0 <= i <= |sends|
      invariant forall c :: c in delivered <==> c in sends[..i] && c !in failing
      invariant warned <==> exists j :: 0 <= j < i && sends[j] in failing
    {
      assert sends[..i + 1] == sends[..i] + [sends[i]];
      if sends[i] in failing {
        warned := true;
      } else {
        delivered := delivered + {sends[i]};
      }
      i := i + 1;
    }
    assert sends[..i] == sends;
  }

  lemma AppendFresh(sends: seq<ConnId>, c: ConnId)
    requires Distinct(sends) && c !in sends
    ensures Distinct(sends + [c])
    ensures forall x :: x in sends + [c] <==> x in sends || x == c
  {
  }

  /** A message waiting behind `Task.Yield`, with the event that produced it. */
  datatype Pending = Pending(message: Message, origin: Event)

  /** A finished broadcast: the snapshot it was sent to, the connections whose
      send succeeded, and whether a warning was logged. */
  datatype Delivery = Delivery(
    message: Message,
    origin: Event,
    recipients: set<ConnId>,
    delivered: set<ConnId>,
    warned: bool)

  datatype ChatState = ChatState(server: CM.State, pending: seq<Pending>, deliveries: seq<Delivery>)

  /** Server(step): a step of the connection manager, whose event (if any) is
      handled at once. Deliver(i, failing): the `i`-th pending broadcast
      resumes after its yield, reads the registry and sends; the sends to
      `failing` fault. */
  datatype ChatStep = Server(step: Step) | Deliver(index: nat, failing: set<ConnId>)

  function Init(): ChatState
  {
    ChatState(CM.Init(), [], [])
  }

  function ChatNext(s: ChatState, step: ChatStep): ChatState
  {
    match step
    case Server(st) =>
      var srv := CM.Next(s.server, st);
      CM.NextFacts(s.server, st);
      if |srv.trace| == |s.server.trace| then s.(server := srv)
      else
        var e := srv.trace[|s.server.trace|];
        s.(server := srv,
           pending := s.pending + [Pending(Handle(e, srv.conns[e.conn].client), e)])
    case Deliver(i, failing) =>
      if i < |s.pending| then
        var p := s.pending[i];
        var snapshot := s.server.registry;
        s.(pending := s.pending[..i] + s.pending[i + 1..],
           deliveries := s.deliveries +
             [Delivery(p.message, p.origin, snapshot, snapshot - failing, snapshot * failing != {})])
      else s
  }

  /** The `Deliver` step carried out by `BroadcastToAll` itself: the pending
      broadcast resumes, reads the registry and sends through the query and
      `Task.WhenAll`. Its outcome is exactly the `Deliver` step of
      `ChatNext`, so what `BroadcastToAll` guarantees about its sends holds
      for every recorded delivery. */
  method ResumeBroadcast(s: ChatState, i: nat, failing: set<ConnId>)
    returns (s': ChatState, sends: seq<ConnId>)
    ensures s' == ChatNext(s, Deliver(i, failing))
    ensures i < |s.pending| ==> forall c :: c in sends <==> c in s.server.registry
    ensures i >= |s.pending| ==> sends == []
    ensures Distinct(sends)
  {
    if i < |s.pending| {
      var p := s.pending[i];
      var snapshot := s.server.registry;
      var delivered, warned;
      sends, delivered, warned := BroadcastToAll(snapshot, failing);
      s' := s.(pending := s.pending[..i] + s.pending[i + 1..],
               deliveries := s.deliveries + [Delivery(p.message, p.origin, snapshot, delivered, warned)]);
    } else {
      s' := s;
      sends := [];
    }
  }

  function ChatRun(s: ChatState, steps: seq<ChatStep>): ChatState
    decreases |steps|
  {
    if |steps| == 0 then s else ChatRun(ChatNext(s, steps[0]), steps[1..])
  }

  function PendingOrigins(ps: seq<Pending>): seq<Event>
  {
    seq(|ps|, i requires 0 <= i < |ps| => ps[i].origin)
  }

  function DeliveryOrigins(ds: seq<Delivery>): seq<Event>
  {
    seq(|ds|, i requires 0 <= i < |ds| => ds[i].origin)
  }

  /** The message the handler of `e` produced, in terms of the current server
      state: a connect notice is formatted before any message is read, so it
      never carries a username; a disconnect notice carries the final one. */
  function Expected(e: Event, srv: CM.State): Message
    requires e.conn in srv.conns
  {
    match e
    case ClientConnected(c) => Handle(e, NewClient(srv.conns[c].client.endPoint))
    case ClientDisconnected(c) => Handle(e, srv.conns[c].client)
    case IncomingMessage(_, m) => m
  }

  /** `m` is what the handler of `e` produced, as far as the current server
      state tells. */
  ghost predicate Explained(m: Message, e: Event, srv: CM.State)
  {
    e.conn in srv.conns && m == Expected(e, srv)
  }

  ghost predicate PendingExplained(ps: seq<Pending>, srv: CM.State)
  {
    forall i :: 0 <= i < |ps| ==> Explained(ps[i].message, ps[i].origin, srv)
  }

  ghost predicate DeliveriesExplained(ds: seq<Delivery>, srv: CM.State)
  {
    forall i :: 0 <= i < |ds| ==> Explained(ds[i].message, ds[i].origin, srv)
  }

  /** Each raised event has produced exactly one broadcast, pending or done. */
  ghost predicate OneBroadcastPerEvent(s: ChatState)
  {
    multiset(PendingOrigins(s.pending)) + multiset(DeliveryOrigins(s.deliveries))
      == multiset(s.server.trace)
  }

  /** What every finished broadcast satisfies on its own. */
  ghost predicate DeliveriesSound(ds: seq<Delivery>)
  {
    forall i :: 0 <= i < |ds| ==>
      && ds[i].delivered <= ds[i].recipients
      && (ds[i].warned <==> ds[i].delivered != ds[i].recipients)
      && (ds[i].origin.ClientDisconnected? ==> ds[i].origin.conn !in ds[i].recipients)
  }

  ghost predicate ChatInv(s: ChatState)
  {
    && CM.Inv(s.server)
    && OneBroadcastPerEvent(s)
    && PendingExplained(s.pending, s.server)
    && DeliveriesExplained(s.deliveries, s.server)
    && DeliveriesSound(s.deliveries)
  }

  /** The handler's message for an event already raised does not change as
      the server moves on: endpoints are fixed and an ended connection's
      state is final. */
  lemma ExplainedStable(m: Message, e: Event, srv: CM.State, st: Step)
    requires CM.Inv(srv)
    requires e in srv.trace
    requires Explained(m, e, srv)
    ensures Explained(m, e, CM.Next(srv, st))
  {
    CM.NextFacts(srv, st);
    if e.ClientDisconnected? {
      assert srv.conns[e.conn].phase.Ended?;
    }
  }

  lemma PendingStable(s: ChatState, st: Step)
    requires CM.Inv(s.server) && OneBroadcastPerEvent(s)
    requires PendingExplained(s.pending, s.server)
    ensures PendingExplained(s.pending, CM.Next(s.server, st))
  {
    forall i | 0 <= i < |s.pending|
      ensures Explained(s.pending[i].message, s.pending[i].origin, CM.Next(s.server, st))
    {
      assert s.pending[i].origin == PendingOrigins(s.pending)[i];
      assert s.pending[i].origin in multiset(s.server.trace);
      ExplainedStable(s.pending[i].message, s.pending[i].origin, s.server, st);
    }
  }

  lemma DeliveriesStable(s: ChatState, st: Step)
    requires CM.Inv(s.server) && OneBroadcastPerEvent(s)
    requires DeliveriesExplained(s.deliveries, s.server)
    ensures DeliveriesExplained(s.deliveries, CM.Next(s.server, st))
  {
    forall i | 0 <= i < |s.deliveries|
      ensures Explained(s.deliveries[i].message, s.deliveries[i].origin, CM.Next(s.server, st))
    {
      assert s.deliveries[i].origin == DeliveryOrigins(s.deliveries)[i];
      assert s.deliveries[i].origin in multiset(s.server.trace);
      ExplainedStable(s.deliveries[i].message, s.deliveries[i].origin, s.server, st);
    }
  }

  /** A server step appends the handler's message for the event it raised,
      if any, and changes nothing else of the chat. */
  lemma ServerStepShape(s: ChatState, st: Step)
    ensures ChatNext(s, Server(st)).server == CM.Next(s.server, st)
    ensures ChatNext(s, Server(st)).deliveries == s.deliveries
    ensures var srv := CM.Next(s.server, st);
      if |srv.trace| == |s.server.trace| then ChatNext(s, Server(st)).pending == s.pending
      else
        && srv.trace[|s.server.trace|].conn in srv.conns
        && var e := srv.trace[|s.server.trace|];
           ChatNext(s, Server(st)).pending == s.pending + [Pending(Handle(e, srv.conns[e.conn].client), e)]
  {
    CM.NextFacts(s.server, st);
  }

  /** The message handed over for a freshly raised event is explained. */
  lemma NewEventExplained(srv0: CM.State, st: Step)
    requires |CM.Next(srv0, st).trace| != |srv0.trace|
    ensures var srv := CM.Next(srv0, st);
      var e := srv.trace[|srv0.trace|];
      && e.conn in srv.conns
      && Explained(Handle(e, srv.conns[e.conn].client), e, srv)
  {
    CM.NextFacts(srv0, st);
    var srv := CM.Next(srv0, st);
    var e := srv.trace[|srv0.trace|];
    if e.ClientConnected? {
      assert srv.conns[e.conn].client == NewClient(srv.conns[e.conn].client.endPoint);
    }
  }

  lemma PendingOriginsAppend(ps: seq<Pending>, p: Pending)
    ensures PendingOrigins(ps + [p]) == PendingOrigins(ps) + [p.origin]
  {
  }

  lemma PendingExplainedAppend(ps: seq<Pending>, p: Pending, srv: CM.State)
    requires PendingExplained(ps, srv) && Explained(p.message, p.origin, srv)
    ensures PendingExplained(ps + [p], srv)
  {
    forall j | 0 <= j < |ps| + 1
      ensures Explained((ps + [p])[j].message, (ps + [p])[j].origin, srv)
    {
      if j < |ps| {
        assert (ps + [p])[j] == ps[j];
      }
    }
  }

  lemma NewPendingPreserves(s: ChatState, st: Step)
    requires OneBroadcastPerEvent(s)
    requires PendingExplained(s.pending, CM.Next(s.server, st))
    requires |CM.Next(s.server, st).trace| != |s.server.trace|
    ensures OneBroadcastPerEvent(ChatNext(s, Server(st)))
    ensures PendingExplained(ChatNext(s, Server(st)).pending, CM.Next(s.server, st))
  {
    var srv := CM.Next(s.server, st);
    ServerStepShape(s, st);
    CM.NextFacts(s.server, st);
    NewEventExplained(s.server, st);
    var e := srv.trace[|s.server.trace|];
    var p := Pending(Handle(e, srv.conns[e.conn].client), e);
    assert srv.trace == s.server.trace + [e];
    PendingOriginsAppend(s.pending, p);
    PendingExplainedAppend(s.pending, p, srv);
  }

  lemma ServerStepPreservesChatInv(s: ChatState, st: Step)
    requires ChatInv(s)
    ensures ChatInv(ChatNext(s, Server(st)))
  {
    var srv := CM.Next(s.server, st);
    ServerStepShape(s, st);
    CM.NextPreservesInv(s.server, st);
    PendingStable(s, st);
    DeliveriesStable(s, st);
    if |srv.trace| != |s.server.trace| {
      NewPendingPreserves(s, st);
    }
  }

  /** Removing one pending broadcast keeps the others explained. */
  lemma RemovePendingExplained(ps: seq<Pending>, i: nat, srv: CM.State)
    requires i < |ps|
    requires PendingExplained(ps, srv)
    ensures PendingExplained(ps[..i] + ps[i + 1..], srv)
  {
    var rest := ps[..i] + ps[i + 1..];
    forall j | 0 <= j < |rest|
      ensures Explained(rest[j].message, rest[j].origin, srv)
    {
      if j < i {
        assert rest[j] == ps[j];
      } else {
        assert rest[j] == ps[j + 1];
      }
    }
  }

  /** Appending one explained, sound delivery keeps all of them so. */
  lemma AppendDelivery(ds: seq<Delivery>, d: Delivery, srv: CM.State)
    requires DeliveriesExplained(ds, srv) && DeliveriesSound(ds)
    requires Explained(d.message, d.origin, srv)
    requires d.delivered <= d.recipients && (d.warned <==> d.delivered != d.recipients)
    requires d.origin.ClientDisconnected? ==> d.origin.conn !in d.recipients
    ensures DeliveriesExplained(ds + [d], srv) && DeliveriesSound(ds + [d])
  {
    var ds' := ds + [d];
    forall j | 0 <= j < |ds'|
      ensures Explained(ds'[j].message, ds'[j].origin, srv)
      ensures ds'[j].delivered <= ds'[j].recipients
      ensures ds'[j].warned <==> ds'[j].delivered != ds'[j].recipients
      ensures ds'[j].origin.ClientDisconnected? ==> ds'[j].origin.conn !in ds'[j].recipients
    {
      if j < |ds| {
        assert ds'[j] == ds[j];
      }
    }
  }

  /** Moving a broadcast from pending to done keeps the multiset of origins. */
  lemma MoveOrigin(ps: seq<Pending>, ds: seq<Delivery>, i: nat, d: Delivery)
    requires i < |ps| && d.origin == ps[i].origin
    ensures multiset(PendingOrigins(ps[..i] + ps[i + 1..])) + multiset(DeliveryOrigins(ds + [d]))
         == multiset(PendingOrigins(ps)) + multiset(DeliveryOrigins(ds))
  {
    var os := PendingOrigins(ps);
    assert PendingOrigins(ps[..i] + ps[i + 1..]) == os[..i] + os[i + 1..];
    assert os == os[..i] + [d.origin] + os[i + 1..];
    assert DeliveryOrigins(ds + [d]) == DeliveryOrigins(ds) + [d.origin];
  }

  /** Some send of a broadcast fails exactly when some recipient misses it. */
  lemma WarnedIffMissed(snapshot: set<ConnId>, failing: set<ConnId>)
    ensures snapshot * failing != {} <==> snapshot - failing != snapshot
  {
    if snapshot * failing != {} {
      var x :| x in snapshot * failing;
      assert x !in snapshot - failing;
    } else {
      assert forall x :: x in snapshot - failing <==> x in snapshot by {
        forall x | x in snapshot
          ensures x in snapshot - failing
        {
          assert x !in snapshot * failing;
        }
      }
    }
  }

  lemma DeliverPreservesChatInv(s: ChatState, i: nat, failing: set<ConnId>)
    requires ChatInv(s)
    ensures ChatInv(ChatNext(s, Deliver(i, failing)))
  {
    if i < |s.pending| {
      var p := s.pending[i];
      var snapshot := s.server.registry;
      var d := Delivery(p.message, p.origin, snapshot, snapshot - failing, snapshot * failing != {});
      var s' := ChatState(s.server, s.pending[..i] + s.pending[i + 1..], s.deliveries + [d]);
      assert ChatNext(s, Deliver(i, failing)) == s';
      MoveOrigin(s.pending, s.deliveries, i, d);
      assert p.origin in multiset(s.server.trace) by {
        assert p.origin == PendingOrigins(s.pending)[i];
      }
      assert Explained(p.message, p.origin, s.server);
      if p.origin.ClientDisconnected? {
        assert p.origin == ClientDisconnected(p.origin.conn);
        assert ClientDisconnected(p.origin.conn) in s.server.trace;
        CM.RegistryMatchesTrace(s.server);
        assert p.origin.conn !in snapshot;
      }
      RemovePendingExplained(s.pending, i, s.server);
      WarnedIffMissed(snapshot, failing);
      AppendDelivery(s.deliveries, d, s.server);
    }
  }

  lemma ChatNextPreservesInv(s: ChatState, step: ChatStep)
    requires ChatInv(s)
    ensures ChatInv(ChatNext(s, step))
  {
    match step
    case Server(st) => ServerStepPreservesChatInv(s, st);
    case Deliver(i, failing) => DeliverPreservesChatInv(s, i, failing);
  }

  lemma {:induction false} ChatRunPreservesInv(s: ChatState, steps: seq<ChatStep>)
    requires ChatInv(s)
    ensures ChatInv(ChatRun(s, steps))
    decreases |steps|
  {
    if |steps| > 0 {
      ChatNextPreservesInv(s, steps[0]);
      ChatRunPreservesInv(ChatNext(s, steps[0]), steps[1..]);
    }
  }

  /** What the chat invariant says about each finished broadcast, spelled
      out in the system's terms. */
  ghost predicate DeliveryPromises(ds: seq<Delivery>, srv: CM.State)
  {
    && (forall d :: d in ds && d.origin.ClientDisconnected? ==>
          d.origin.conn !in d.recipients)
    && (forall d :: d in ds && d.origin.IncomingMessage? ==>
          d.message == d.origin.message)
    && (forall d :: d in ds && d.origin.ClientConnected? ==>
          && d.origin.conn in srv.conns
          && d.message.sender == ServerSender
          && d.message.text ==
               "client@" + EndPointText(srv.conns[d.origin.conn].client.endPoint) + " connected")
    && (forall d :: d in ds ==>
          d.delivered <= d.recipients && (d.warned <==> d.delivered != d.recipients))
  }

  ghost predicate Promises(s: ChatState)
  {
    && CM.Inv(s.server)
    && multiset(PendingOrigins(s.pending)) + multiset(DeliveryOrigins(s.deliveries))
       == multiset(s.server.trace)
    && DeliveryPromises(s.deliveries, s.server)
  }

  lemma DeliveriesKeepPromises(ds: seq<Delivery>, srv: CM.State)
    requires DeliveriesExplained(ds, srv) && DeliveriesSound(ds)
    ensures DeliveryPromises(ds, srv)
  {
    forall d | d in ds
      ensures Explained(d.message, d.origin, srv)
      ensures d.delivered <= d.recipients && (d.warned <==> d.delivered != d.recipients)
      ensures d.origin.ClientDisconnected? ==> d.origin.conn !in d.recipients
    {
      var i :| 0 <= i < |ds| && ds[i] == d;
    }
  }

  lemma InitChatInv()
    ensures ChatInv(Init())
  {
    assert PendingOrigins([]) == [];
    assert DeliveryOrigins([]) == [];
  }

  /** Whatever interleaving of connections, reads, cancellation and resumed
      broadcasts has happened, every raised event has exactly one broadcast,
      a departed connection is never sent its own disconnect notice, relayed
      messages are verbatim, connect notices are anonymous, and a broadcast
      warns exactly when some recipient missed it. */
  lemma ChatReachable(steps: seq<ChatStep>)
    ensures Promises(ChatRun(Init(), steps))
  {
    InitChatInv();
    ChatRunPreservesInv(Init(), steps);
    var s := ChatRun(Init(), steps);
    DeliveriesKeepPromises(s.deliveries, s.server);
  }

  /** A broadcast reads the registry when it resumes, sends to exactly that
      snapshot (so to the sender of a relayed message whenever it is still
      connected), and whatever sends fail, the connection manager's state and
      the other broadcasts are untouched: failures never reach the raiser. */
  lemma DeliverUsesSnapshot(s: ChatState, i: nat, failing: set<ConnId>)
    requires i < |s.pending|
    ensures var s' := ChatNext(s, Deliver(i, failing));
      && s'.server == s.server
      && |s'.deliveries| == |s.deliveries| + 1
      && s'.deliveries[..|s.deliveries|] == s.deliveries
      && |s'.pending| + 1 == |s.pending|
      && s'.pending == s.pending[..i] + s.pending[i + 1..]
      && var d := s'.deliveries[|s.deliveries|];
         && d.origin == s.pending[i].origin
         && d.message == s.pending[i].message
         && d.recipients == s.server.registry
         && d.delivered == s.server.registry - failing
         && (d.origin.conn in s.server.registry ==> d.origin.conn in d.recipients)
  {
    var s' := ChatNext(s, Deliver(i, failing));
    assert s'.deliveries[..|s.deliveries|] == s.deliveries;
  }
}
