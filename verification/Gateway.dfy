/** The server's side of the agents' connections (server/src/ws/agent-gateway.ts): which requests are
    waiting on which socket, and how each of them ends. */
module Gateway {
  import opened Common

  type NodeId = nat
  type SocketId = nat
  type RequestId = string

  datatype Outcome = Result | BadResult | AgentError | TimedOut | Unavailable | NotConnected | SendFailed

  datatype Connection = Connection(nodeId: NodeId, hello: bool, pending: set<RequestId>, timers: set<RequestId>)

  /** sockets holds every connection that was ever made; conns names each node's current one. twice
      says whether some request was ever settled again. chunks are those handed to a stream's handler, and
      targets has the node each request was made to. */
  datatype State = State(conns: map<NodeId, SocketId>, sockets: map<SocketId, Connection>,
                         outcomes: map<RequestId, Outcome>, issued: set<RequestId>, twice: bool,
                         chunks: seq<(RequestId, nat)>, targets: map<RequestId, NodeId>)

  datatype Step =
    | Open(node: NodeId, socket: SocketId)
    | Hello(socket: SocketId)
    | Request(node: NodeId, id: RequestId, sent: bool)
    | Timeout(socket: SocketId, id: RequestId)
    | Response(node: NodeId, socket: SocketId, id: RequestId, outcome: Outcome)
    | Chunk(node: NodeId, socket: SocketId, id: RequestId, seq_: nat)
    | Disconnect(node: NodeId)
    | Close(node: NodeId, socket: SocketId)

  const EMPTY := State(map[], map[], map[], {}, false, [], map[])

  /** Sockets and request ids are new ones, a hello comes on a socket that was opened, and a timer
      fires only while it is set. */
  predicate Enabled(g: State, step: Step) {
    match step
    case Open(_, socket) => socket !in g.sockets
    case Hello(socket) => socket in g.sockets
    case Request(_, id, _) => id !in g.issued
    case Timeout(socket, id) => socket in g.sockets && id in g.sockets[socket].timers
    case Response(_, _, _, outcome) => outcome.Result? || outcome.BadResult? || outcome.AgentError?
    case _ => true
  }

  function Settle(g: State, id: RequestId, outcome: Outcome): State {
    g.(outcomes := g.outcomes[id := outcome], twice := g.twice || id in g.outcomes)
  }

  function SettleAll(g: State, ids: set<RequestId>, outcome: Outcome): State {
    g.(outcomes := map id | id in g.outcomes.Keys + ids :: if id in ids then outcome else g.outcomes[id],
       twice := g.twice || !(ids !! g.outcomes.Keys))
  }

  lemma SettleOneMore(g: State, ids: set<RequestId>, id: RequestId, outcome: Outcome)
    requires id !in ids
    ensures SettleAll(g, ids + {id}, outcome) == Settle(SettleAll(g, ids, outcome), id, outcome)
  {
    assert SettleAll(g, ids + {id}, outcome).outcomes == Settle(SettleAll(g, ids, outcome), id, outcome).outcomes;
  }

  function Without(g: State, socket: SocketId, id: RequestId): State
    requires socket in g.sockets
  {
    var c := g.sockets[socket];
    g.(sockets := g.sockets[socket := c.(pending := c.pending - {id}, timers := c.timers - {id})])
  }

  /** Every request that waits on a socket ends as unavailable. */
  function FailAll(g: State, socket: SocketId): State
    requires socket in g.sockets
  {
    var c := g.sockets[socket];
    SettleAll(g, c.pending, Unavailable)
    .(sockets := g.sockets[socket := c.(pending := {}, timers := c.timers - c.pending)])
  }

  function Dropped(g: State, node: NodeId): State {
    if node in g.conns && g.conns[node] in g.sockets
    then FailAll(g, g.conns[node]).(conns := g.conns - {node})
    else g
  }

  function Opened(g: State, node: NodeId, socket: SocketId): State {
    var failed := if node in g.conns && g.conns[node] in g.sockets then FailAll(g, g.conns[node]) else g;
    failed.(conns := failed.conns[node := socket], sockets := failed.sockets[socket := Connection(node, false, {}, {})])
  }

  predicate Current(g: State, node: NodeId, socket: SocketId) {
    node in g.conns && g.conns[node] == socket && socket in g.sockets
  }

  function Asked(g: State, node: NodeId, id: RequestId): State {
    g.(issued := g.issued + {id}, targets := g.targets[id := node])
  }

  function Waiting(g: State, node: NodeId, socket: SocketId, id: RequestId): State
    requires socket in g.sockets
  {
    var c := g.sockets[socket];
    Asked(g, node, id).(
       sockets := g.sockets[socket := c.(pending := c.pending + {id}, timers := c.timers + {id})])
  }

  function Requested(g: State, node: NodeId, id: RequestId, sent: bool): State {
    var asked := Asked(g, node, id);
    if !(node in g.conns && g.conns[node] in g.sockets && g.sockets[g.conns[node]].hello)
    then Settle(asked, id, NotConnected)
    else if !sent then Settle(asked, id, SendFailed)
    else Waiting(g, node, g.conns[node], id)
  }

  function Responded(g: State, node: NodeId, socket: SocketId, id: RequestId, outcome: Outcome): State {
    if Current(g, node, socket) && id in g.sockets[socket].pending
    then Settle(Without(g, socket, id), id, outcome)
    else g
  }

  function Chunked(g: State, node: NodeId, socket: SocketId, id: RequestId, n: nat): State {
    if Current(g, node, socket) && id in g.sockets[socket].pending then g.(chunks := g.chunks + [(id, n)]) else g
  }

  function Do(g: State, step: Step): State
    requires Enabled(g, step)
  {
    match step
    case Open(node, socket) => Opened(g, node, socket)
    case Hello(socket) => g.(sockets := g.sockets[socket := g.sockets[socket].(hello := true)])
    case Request(node, id, sent) => Requested(g, node, id, sent)
    case Timeout(socket, id) => Settle(Without(g, socket, id), id, TimedOut)
    case Response(node, socket, id, outcome) => Responded(g, node, socket, id, outcome)
    case Chunk(node, socket, id, n) => Chunked(g, node, socket, id, n)
    case Disconnect(node) => Dropped(g, node)
    case Close(node, socket) => if Current(g, node, socket) then Dropped(g, node) else g
  }

  class AgentGateway {
    var conns: map<NodeId, SocketId>
    var sockets: map<SocketId, Connection>
    ghost var outcomes: map<RequestId, Outcome>
    ghost var issued: set<RequestId>
    ghost var twice: bool
    var chunks: seq<(RequestId, nat)>
    ghost var targets: map<RequestId, NodeId>

    ghost function View(): State
      reads this
    {
      State(conns, sockets, outcomes, issued, twice, chunks, targets)
    }

    constructor ()
      ensures View() == EMPTY
    {
      conns, sockets, outcomes, issued, twice, chunks, targets := map[], map[], map[], {}, false, [], map[];
    }

    /** Settles a request's promise. */
    ghost method Settled(id: RequestId, outcome: Outcome)
      modifies `outcomes, `twice
      ensures outcomes == old(outcomes)[id := outcome] && twice == (old(twice) || id in old(outcomes))
    {
      twice := twice || id in outcomes;
      outcomes := outcomes[id := outcome];
    }

    method FailEvery(socket: SocketId)
      requires socket in sockets
      modifies this
      ensures View() == FailAll(old(View()), socket)
    {
      ghost var before := View();
      var c := sockets[socket];
      var left := c.pending;
      var timers := c.timers;
      while left != {}
        invariant left <= c.pending && timers == c.timers - (c.pending - left)
        invariant View() == SettleAll(before, c.pending - left, Unavailable)
      {
        var id :| id in left;
        SettleOneMore(before, c.pending - left, id, Unavailable);
        assert c.pending - left + {id} == c.pending - (left - {id});
        timers := timers - {id};
        Settled(id, Unavailable);
        left := left - {id};
      }
      assert c.pending - {} == c.pending;
      sockets := sockets[socket := c.(pending := {}, timers := timers)];
    }

    method OnOpen(node: NodeId, socket: SocketId)
      requires Enabled(View(), Open(node, socket))
      modifies this
      ensures View() == Do(old(View()), Open(node, socket))
    {
      if node in conns && conns[node] in sockets {
        FailEvery(conns[node]);
      }
      conns := conns[node := socket];
      sockets := sockets[socket := Connection(node, false, {}, {})];
    }

    method OnHello(socket: SocketId)
      requires Enabled(View(), Hello(socket))
      modifies this
      ensures View() == Do(old(View()), Hello(socket))
    {
      sockets := sockets[socket := sockets[socket].(hello := true)];
    }

    method Request(node: NodeId, id: RequestId, sent: bool)
      requires Enabled(View(), Step.Request(node, id, sent))
      modifies this
      ensures View() == Do(old(View()), Step.Request(node, id, sent))
    {
      issued, targets := issued + {id}, targets[id := node];
      if node !in conns || conns[node] !in sockets || !sockets[conns[node]].hello {
        Settled(id, NotConnected);
        return;
      }
      var socket := conns[node];
      var c := sockets[socket];
      if sent {
        sockets := sockets[socket := c.(pending := c.pending + {id}, timers := c.timers + {id})];
      } else {
        Settled(id, SendFailed);
      }
    }

    method OnTimeout(socket: SocketId, id: RequestId)
      requires Enabled(View(), Timeout(socket, id))
      modifies this
      ensures View() == Do(old(View()), Timeout(socket, id))
    {
      var c := sockets[socket];
      sockets := sockets[socket := c.(pending := c.pending - {id}, timers := c.timers - {id})];
      Settled(id, TimedOut);
    }

    method OnResponse(node: NodeId, socket: SocketId, id: RequestId, outcome: Outcome)
      requires Enabled(View(), Response(node, socket, id, outcome))
      modifies this
      ensures View() == Do(old(View()), Response(node, socket, id, outcome))
    {
      if node !in conns || conns[node] != socket || socket !in sockets {
        return;
      }
      var c := sockets[socket];
      if id !in c.pending {
        return;
      }
      sockets := sockets[socket := c.(pending := c.pending - {id}, timers := c.timers - {id})];
      Settled(id, outcome);
    }

    method OnChunk(node: NodeId, socket: SocketId, id: RequestId, n: nat)
      modifies this
      ensures View() == Do(old(View()), Chunk(node, socket, id, n))
    {
      if node in conns && conns[node] == socket && socket in sockets && id in sockets[socket].pending {
        chunks := chunks + [(id, n)];
      }
    }

    method Disconnect(node: NodeId)
      modifies this
      ensures View() == Do(old(View()), Step.Disconnect(node))
    {
      if node !in conns || conns[node] !in sockets {
        return;
      }
      FailEvery(conns[node]);
      conns := conns - {node};
    }

    method OnClose(node: NodeId, socket: SocketId)
      modifies this
      ensures View() == Do(old(View()), Close(node, socket))
    {
      if node !in conns || conns[node] != socket || socket !in sockets {
        return;
      }
      FailEvery(socket);
      conns := conns - {node};
    }
  }

  // ---- what every run keeps ----

  ghost predicate Waits(g: State, socket: SocketId, id: RequestId) {
    socket in g.sockets && id in g.sockets[socket].pending
  }

  /** A socket's requests wait, with their timers set, only on the current socket of its node. */
  ghost predicate SocketSound(g: State, socket: SocketId)
    requires socket in g.sockets
  {
    var c := g.sockets[socket];
    && c.timers == c.pending
    && (c.pending != {} ==> Current(g, c.nodeId, socket))
    && c.pending <= g.issued
    && c.pending !! g.outcomes.Keys
  }

  ghost predicate Inv(g: State) {
    && !g.twice
    && (forall node :: node in g.conns ==> g.conns[node] in g.sockets && g.sockets[g.conns[node]].nodeId == node)
    && (forall socket :: socket in g.sockets ==> SocketSound(g, socket))
    && (forall s, t :: s in g.sockets && t in g.sockets && s != t ==> g.sockets[s].pending !! g.sockets[t].pending)
    && (forall id :: id in g.issued ==> id in g.outcomes || exists socket :: Waits(g, socket, id))
    && g.outcomes.Keys <= g.issued
  }

  lemma StillAccounted(g: State, n: State)
    requires Inv(g) && g.issued <= n.issued
    requires forall id :: id in n.issued - g.issued ==> id in n.outcomes || exists socket :: Waits(n, socket, id)
    requires g.outcomes.Keys <= n.outcomes.Keys
    requires forall socket, id :: Waits(g, socket, id) ==> id in n.outcomes || Waits(n, socket, id)
    ensures forall id :: id in n.issued ==> id in n.outcomes || exists socket :: Waits(n, socket, id)
  {
    forall id | id in n.issued && id !in n.outcomes ensures exists socket :: Waits(n, socket, id) {
      if id in g.issued {
        var socket :| Waits(g, socket, id);
        assert Waits(n, socket, id);
      }
    }
  }

  lemma FailAllKeeps(g: State, socket: SocketId)
    requires Inv(g) && socket in g.sockets
    ensures var n := FailAll(g, socket);
            Inv(n) && n.conns == g.conns && n.sockets.Keys == g.sockets.Keys && n.sockets[socket].pending == {}
  {
    var n := FailAll(g, socket);
    assert SocketSound(g, socket);
    assert n.outcomes.Keys == g.outcomes.Keys + g.sockets[socket].pending;
    forall s | s in n.sockets ensures SocketSound(n, s) {
      assert SocketSound(g, s);
      assert s != socket ==> g.sockets[s].pending !! g.sockets[socket].pending;
    }
    StillAccounted(g, n);
  }

  lemma DroppedKeeps(g: State, node: NodeId)
    requires Inv(g)
    ensures Inv(Dropped(g, node)) && node !in Dropped(g, node).conns
  {
    if node in g.conns {
      var socket := g.conns[node];
      FailAllKeeps(g, socket);
      var f, n := FailAll(g, socket), Dropped(g, node);
      forall s | s in n.sockets ensures SocketSound(n, s) {
        assert SocketSound(f, s);
      }
      StillAccounted(f, n);
    }
  }

  lemma InsertKeeps(f: State, node: NodeId, socket: SocketId)
    requires Inv(f) && socket !in f.sockets
    requires node in f.conns ==> f.sockets[f.conns[node]].pending == {}
    ensures Inv(f.(conns := f.conns[node := socket], sockets := f.sockets[socket := Connection(node, false, {}, {})]))
  {
    var n := f.(conns := f.conns[node := socket], sockets := f.sockets[socket := Connection(node, false, {}, {})]);
    forall s | s in n.sockets ensures SocketSound(n, s) {
      if s != socket {
        assert SocketSound(f, s);
      }
    }
    StillAccounted(f, n);
  }

  lemma OpenedKeeps(g: State, node: NodeId, socket: SocketId)
    requires Inv(g) && socket !in g.sockets
    ensures Inv(Opened(g, node, socket))
  {
    if node in g.conns {
      FailAllKeeps(g, g.conns[node]);
      InsertKeeps(FailAll(g, g.conns[node]), node, socket);
    } else {
      InsertKeeps(g, node, socket);
    }
  }

  lemma WaitingSound(g: State, node: NodeId, id: RequestId, socket: SocketId)
    requires Inv(g) && id !in g.issued && node in g.conns && socket in g.sockets
    ensures SocketSound(Waiting(g, node, g.conns[node], id), socket) && id !in g.sockets[socket].pending
  {
    assert SocketSound(g, socket);
  }

  lemma WaitingKeeps(g: State, node: NodeId, id: RequestId)
    requires Inv(g) && id !in g.issued && node in g.conns
    ensures Inv(Waiting(g, node, g.conns[node], id))
  {
    var socket := g.conns[node];
    var n := Waiting(g, node, socket, id);
    forall s | s in n.sockets ensures SocketSound(n, s) && id !in g.sockets[s].pending {
      WaitingSound(g, node, id, s);
    }
    assert Waits(n, socket, id);
    StillAccounted(g, n);
  }

  lemma RefusedKeeps(g: State, node: NodeId, id: RequestId, outcome: Outcome)
    requires Inv(g) && id !in g.issued
    ensures Inv(Settle(Asked(g, node, id), id, outcome))
  {
    var n := Settle(Asked(g, node, id), id, outcome);
    forall s | s in n.sockets ensures SocketSound(n, s) {
      assert SocketSound(g, s);
    }
    StillAccounted(g, n);
  }

  lemma RequestedKeeps(g: State, node: NodeId, id: RequestId, sent: bool)
    requires Inv(g) && id !in g.issued
    ensures Inv(Requested(g, node, id, sent))
  {
    if !(node in g.conns && g.sockets[g.conns[node]].hello) {
      RefusedKeeps(g, node, id, NotConnected);
    } else if !sent {
      RefusedKeeps(g, node, id, SendFailed);
    } else {
      WaitingKeeps(g, node, id);
    }
  }

  lemma SettledKeeps(g: State, socket: SocketId, id: RequestId, outcome: Outcome)
    requires Inv(g) && Waits(g, socket, id)
    ensures Inv(Settle(Without(g, socket, id), id, outcome))
  {
    var n := Settle(Without(g, socket, id), id, outcome);
    assert SocketSound(g, socket);
    forall s | s in n.sockets ensures SocketSound(n, s) {
      assert SocketSound(g, s);
      assert s != socket ==> g.sockets[s].pending !! g.sockets[socket].pending;
    }
    StillAccounted(g, n);
  }

  lemma SameWaiting(g: State, n: State)
    requires Inv(g) && n.conns == g.conns && n.outcomes == g.outcomes && n.issued == g.issued && n.twice == g.twice
    requires n.sockets.Keys == g.sockets.Keys
    requires forall s :: s in g.sockets ==> n.sockets[s].(hello := true) == g.sockets[s].(hello := true)
    ensures Inv(n)
  {
    forall s | s in n.sockets
      ensures SocketSound(n, s) && n.sockets[s].pending == g.sockets[s].pending
      ensures n.sockets[s].nodeId == g.sockets[s].nodeId
    {
      assert n.sockets[s].(hello := true) == g.sockets[s].(hello := true);
      assert SocketSound(g, s);
    }
    StillAccounted(g, n);
  }

  lemma StepKeeps(g: State, step: Step)
    requires Inv(g) && Enabled(g, step)
    ensures Inv(Do(g, step))
  {
    match step {
      case Open(node, socket) => OpenedKeeps(g, node, socket);
      case Hello(socket) => SameWaiting(g, Do(g, step));
      case Request(node, id, sent) => RequestedKeeps(g, node, id, sent);
      case Timeout(socket, id) =>
        assert SocketSound(g, socket);
        SettledKeeps(g, socket, id, TimedOut);
      case Response(node, socket, id, outcome) =>
        if Current(g, node, socket) && id in g.sockets[socket].pending {
          SettledKeeps(g, socket, id, outcome);
        }
      case Chunk(_, _, _, _) => SameWaiting(g, Do(g, step));
      case Disconnect(node) => DroppedKeeps(g, node);
      case Close(node, socket) => DroppedKeeps(g, node);
    }
  }

  /** Every request has a target, and one that waits on a socket was made to that socket's node. */
  ghost predicate Addressed(g: State) {
    && g.targets.Keys == g.issued
    && forall socket, id :: Waits(g, socket, id) ==> id in g.issued && g.targets[id] == g.sockets[socket].nodeId
  }

  /** The node a request is made to is the one its caller named, for good. */
  lemma TargetStays(g: State, step: Step, id: RequestId)
    requires Enabled(g, step) && g.targets.Keys == g.issued && id in Do(g, step).issued
    ensures id in Do(g, step).targets
    ensures if id in g.issued then Do(g, step).targets[id] == g.targets[id]
            else step.Request? && step.id == id && Do(g, step).targets[id] == step.node
  {
  }

  /** A request that waits on a socket waited there before, or is new on its node's current socket. */
  lemma WaitsFrom(g: State, step: Step, socket: SocketId, id: RequestId)
    requires Inv(g) && Enabled(g, step) && Waits(Do(g, step), socket, id)
    ensures socket in g.sockets && Do(g, step).sockets[socket].nodeId == g.sockets[socket].nodeId
    ensures Waits(g, socket, id) ||
            (step.Request? && step.id == id && step.node in g.conns && g.conns[step.node] == socket)
  {
  }

  lemma TargetsCovered(g: State, step: Step)
    requires g.targets.Keys == g.issued && Enabled(g, step)
    ensures Do(g, step).targets.Keys == Do(g, step).issued
  {
  }

  lemma WaitsAtTarget(g: State, step: Step, socket: SocketId, id: RequestId)
    requires Inv(g) && Addressed(g) && Enabled(g, step) && Waits(Do(g, step), socket, id)
    requires id in Do(g, step).issued
    ensures id in Do(g, step).targets && Do(g, step).targets[id] == Do(g, step).sockets[socket].nodeId
  {
    WaitsFrom(g, step, socket, id);
    TargetStays(g, step, id);
  }

  lemma StepAddresses(g: State, step: Step)
    requires Inv(g) && Addressed(g) && Enabled(g, step)
    ensures Addressed(Do(g, step))
  {
    var n := Do(g, step);
    TargetsCovered(g, step);
    StepKeeps(g, step);
    forall socket, id | Waits(n, socket, id) ensures id in n.issued && n.targets[id] == n.sockets[socket].nodeId {
      assert SocketSound(n, socket);
      WaitsAtTarget(g, step, socket, id);
    }
  }

  function After(steps: seq<Step>): Option<State> {
    if steps == [] then Some(EMPTY)
    else
      match After(steps[..|steps| - 1])
      case None => None
      case Some(g) => if Enabled(g, steps[|steps| - 1]) then Some(Do(g, steps[|steps| - 1])) else None
  }

  lemma {:induction false} RunKeeps(steps: seq<Step>)
    requires After(steps).Some?
    ensures Inv(After(steps).value) && Addressed(After(steps).value)
  {
    if steps != [] {
      RunKeeps(steps[..|steps| - 1]);
      StepKeeps(After(steps[..|steps| - 1]).value, steps[|steps| - 1]);
      StepAddresses(After(steps[..|steps| - 1]).value, steps[|steps| - 1]);
    }
  }

  /** In every run, each request has exactly one of these: it waits on the current socket of the node it
      was made to, or it has an outcome; none is settled twice; and it waits on no other socket. */
  lemma {:induction false} EachRequestOnce(steps: seq<Step>, id: RequestId)
    requires After(steps).Some? && id in After(steps).value.issued
    ensures
      var g := After(steps).value;
      && !g.twice && id in g.targets
      && var node := g.targets[id];
         && (id in g.outcomes <==> !(node in g.conns && Waits(g, g.conns[node], id)))
         && forall socket :: Waits(g, socket, id) ==> Current(g, node, socket)
  {
    RunKeeps(steps);
    var g := After(steps).value;
    forall socket | Waits(g, socket, id) ensures id !in g.outcomes && Current(g, g.targets[id], socket) {
      assert SocketSound(g, socket);
    }
  }

  /** A frame from a socket that is not its node's current one changes nothing. */
  lemma ReplacedSocketsSettleNothing(g: State, step: Step)
    requires Enabled(g, step) && (step.Response? || step.Chunk? || step.Close?) && !Current(g, step.node, step.socket)
    ensures Do(g, step) == g
  {
  }

  /** Whatever takes a node's socket away ends all that waited on it as unavailable. */
  lemma LostSocketSettlesAll(g: State, step: Step, id: RequestId)
    requires Inv(g) && Enabled(g, step)
    requires step.Open? || step.Disconnect? || (step.Close? && Current(g, step.node, step.socket))
    requires step.node in g.conns && Waits(g, g.conns[step.node], id)
    ensures id in Do(g, step).outcomes && Do(g, step).outcomes[id] == Unavailable
  {
  }

  lemma OutcomeStepStays(g: State, step: Step, id: RequestId)
    requires Inv(g) && Enabled(g, step) && id in g.outcomes
    ensures id in Do(g, step).outcomes && Do(g, step).outcomes[id] == g.outcomes[id]
  {
    if step.Timeout? {
      assert SocketSound(g, step.socket);
    } else if step.Response? && step.socket in g.sockets {
      assert SocketSound(g, step.socket);
    } else if (step.Open? || step.Disconnect? || step.Close?) && step.node in g.conns {
      assert SocketSound(g, g.conns[step.node]);
    }
  }

  /** No chunk reaches a handler of a request that was settled. */
  lemma NoChunkAfterSettling(g: State, step: Step, id: RequestId)
    requires Inv(g) && Enabled(g, step) && id in g.outcomes
    ensures
      var n := Do(g, step);
      n.chunks == g.chunks || (|n.chunks| == |g.chunks| + 1 && n.chunks[|g.chunks|].0 != id)
  {
    if step.Chunk? && Current(g, step.node, step.socket) {
      assert SocketSound(g, step.socket);
    }
  }

  // ---- what each outcome tells ----

  /** The node's current socket has said hello. */
  predicate Connected(g: State, node: NodeId) {
    node in g.conns && g.conns[node] in g.sockets && g.sockets[g.conns[node]].hello
  }

  /** A step takes away a node's current socket. */
  predicate TakesSocket(g: State, step: Step, node: NodeId) {
    && (step.Open? || step.Disconnect? || step.Close?) && step.node == node && node in g.conns
    && (step.Close? ==> Current(g, node, step.socket))
  }

  /** What ends a request with an outcome. */
  ghost predicate Ends(g: State, step: Step, id: RequestId, outcome: Outcome) {
    match outcome
    case TimedOut => step.Timeout? && step.id == id && Waits(g, step.socket, id)
    case Unavailable =>
      exists node :: TakesSocket(g, step, node) && Waits(g, g.conns[node], id)
    case NotConnected => step.Request? && step.id == id && !Connected(g, step.node)
    case SendFailed => step.Request? && step.id == id && Connected(g, step.node) && !step.sent
    case _ =>
      step.Response? && step.id == id && step.outcome == outcome && Current(g, step.node, step.socket)
      && Waits(g, step.socket, id)
  }

  ghost predicate GivesOutcome(n: State, id: RequestId, outcome: Outcome) {
    id in n.outcomes && n.outcomes[id] == outcome
  }

  lemma LossTells(g: State, step: Step, id: RequestId, outcome: Outcome)
    requires Inv(g) && Enabled(g, step) && (step.Open? || step.Disconnect? || step.Close?) && id !in g.outcomes
    ensures GivesOutcome(Do(g, step), id, outcome) <==> Ends(g, step, id, outcome)
  {
    if TakesSocket(g, step, step.node) && Waits(g, g.conns[step.node], id) {
      LostSocketSettlesAll(g, step, id);
      assert Ends(g, step, id, Unavailable);
    } else {
      assert id !in Do(g, step).outcomes;
    }
  }

  lemma FrameTells(g: State, step: Step, id: RequestId, outcome: Outcome)
    requires Inv(g) && Enabled(g, step) && (step.Response? || step.Timeout?) && id !in g.outcomes
    ensures GivesOutcome(Do(g, step), id, outcome) <==> Ends(g, step, id, outcome)
  {
    if step.Timeout? {
      assert SocketSound(g, step.socket);
    }
  }

  lemma RequestTells(g: State, step: Step, id: RequestId, outcome: Outcome)
    requires Enabled(g, step) && step.Request? && id !in g.outcomes
    ensures GivesOutcome(Do(g, step), id, outcome) <==> Ends(g, step, id, outcome)
  {
  }

  /** In every state a run reaches: a step gives a request an outcome exactly when that is what the step means:
      an answer on the node's current socket, its timer, the loss of that socket, or a request that cannot be
      made. */
  lemma {:induction false} OutcomeTellsCause(steps: seq<Step>, step: Step, id: RequestId, outcome: Outcome)
    requires After(steps).Some? && Enabled(After(steps).value, step) && id !in After(steps).value.outcomes
    ensures GivesOutcome(Do(After(steps).value, step), id, outcome) <==> Ends(After(steps).value, step, id, outcome)
  {
    RunKeeps(steps);
    var g := After(steps).value;
    match step {
      case Open(_, _) => LossTells(g, step, id, outcome);
      case Disconnect(_) => LossTells(g, step, id, outcome);
      case Close(_, _) => LossTells(g, step, id, outcome);
      case Response(_, _, _, _) => FrameTells(g, step, id, outcome);
      case Timeout(_, _) => FrameTells(g, step, id, outcome);
      case Request(_, _, _) => RequestTells(g, step, id, outcome);
      case Hello(_) => assert Do(g, step).outcomes == g.outcomes;
      case Chunk(_, _, _, _) => assert Do(g, step).outcomes == g.outcomes;
    }
  }

  lemma LossDisconnects(g: State, step: Step, node: NodeId)
    requires Inv(g) && Enabled(g, step) && (step.Open? || step.Disconnect? || step.Close?)
    ensures Connected(Do(g, step), node) <==> Connected(g, node) && !TakesSocket(g, step, node)
  {
    var n := Do(g, step);
    assert node in n.conns && node in g.conns && node != step.node ==> n.conns[node] == g.conns[node];
    if node in g.conns && node != step.node {
      assert g.sockets[g.conns[node]].nodeId == node;
    }
  }

  /** Which nodes can be asked: a new socket counts only once it has said hello, and one that was replaced,
      not at all. */
  lemma ConnectedWhen(g: State, step: Step, node: NodeId)
    requires Inv(g) && Enabled(g, step)
    ensures
      Connected(Do(g, step), node) <==>
        || (Connected(g, node) && !TakesSocket(g, step, node))
        || (step.Hello? && Current(g, node, step.socket))
  {
    if step.Open? || step.Disconnect? || step.Close? {
      LossDisconnects(g, step, node);
    }
  }

  // ---- a request that nothing disturbs ----

  function Chunks(node: NodeId, socket: SocketId, id: RequestId, n: nat): seq<Step> {
    if n == 0 then [] else Chunks(node, socket, id, n - 1) + [Chunk(node, socket, id, n - 1)]
  }

  function HandedOver(id: RequestId, n: nat): seq<(RequestId, nat)> {
    if n == 0 then [] else HandedOver(id, n - 1) + [(id, n - 1)]
  }

  lemma {:induction false} OneMore(steps: seq<Step>, step: Step)
    requires After(steps).Some? && Enabled(After(steps).value, step)
    ensures After(steps + [step]) == Some(Do(After(steps).value, step))
  {
    assert (steps + [step])[..|steps|] == steps;
  }

  lemma {:induction false} ChunksRun(steps: seq<Step>, node: NodeId, socket: SocketId, id: RequestId, n: nat)
    requires After(steps).Some? && Current(After(steps).value, node, socket) && Waits(After(steps).value, socket, id)
    ensures
      var g := After(steps).value;
      After(steps + Chunks(node, socket, id, n)) == Some(g.(chunks := g.chunks + HandedOver(id, n)))
  {
    var g := After(steps).value;
    if n == 0 {
      assert steps + Chunks(node, socket, id, n) == steps;
      assert g.chunks + HandedOver(id, n) == g.chunks;
    } else {
      ChunksRun(steps, node, socket, id, n - 1);
      OneMore(steps + Chunks(node, socket, id, n - 1), Chunk(node, socket, id, n - 1));
      assert steps + Chunks(node, socket, id, n) ==
             (steps + Chunks(node, socket, id, n - 1)) + [Chunk(node, socket, id, n - 1)];
      assert g.chunks + HandedOver(id, n) == (g.chunks + HandedOver(id, n - 1)) + [(id, n - 1)];
    }
  }

  /** After any run: a request to a connected node waits; when its chunks and then its answer come, the handler
      has got the chunks in that order, and the request ends with that answer. */
  lemma {:induction false} UndisturbedIsAnswered(steps: seq<Step>, node: NodeId, id: RequestId, n: nat,
                                                 outcome: Outcome)
    requires After(steps).Some? && Connected(After(steps).value, node) && id !in After(steps).value.issued
    requires outcome.Result? || outcome.BadResult? || outcome.AgentError?
    ensures
      var g := After(steps).value;
      var socket := g.conns[node];
      var last := After(steps + [Request(node, id, true)] + Chunks(node, socket, id, n)
                        + [Response(node, socket, id, outcome)]);
      && last.Some? && id in last.value.outcomes && last.value.outcomes[id] == outcome
      && last.value.chunks == g.chunks + HandedOver(id, n)
  {
    var socket := After(steps).value.conns[node];
    OneMore(steps, Request(node, id, true));
    ChunksRun(steps + [Request(node, id, true)], node, socket, id, n);
    OneMore(steps + [Request(node, id, true)] + Chunks(node, socket, id, n), Response(node, socket, id, outcome));
  }
}
