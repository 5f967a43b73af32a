/** What every run on a connection keeps, and what the server's gateway makes of its frames. */
module StreamsRuns {
  import opened Common
  import opened Streams
  import opened StreamsInv
  import Gateway

  function After(steps: seq<Step>): Option<State> {
    if steps == [] then Some(EMPTY)
    else
      match After(steps[..|steps| - 1])
      case None => None
      case Some(s) => if Enabled(s, steps[|steps| - 1]) then Some(Do(s, steps[|steps| - 1])) else None
  }

  lemma {:induction false} RunKeeps(steps: seq<Step>)
    requires After(steps).Some?
    ensures Inv(After(steps).value)
  {
    if steps != [] {
      RunKeeps(steps[..|steps| - 1]);
      StepKeeps(After(steps[..|steps| - 1]).value, steps[|steps| - 1]);
    }
  }

  lemma {:induction false} OrderedAt(wire: seq<Frame>, lost: set<RequestId>, i: nat)
    requires Ordered(wire, lost) && i < |wire|
    ensures InPlace(wire[..i], wire[i], lost)
  {
    if i < |wire| - 1 {
      OrderedAt(wire[..|wire| - 1], lost, i);
      assert wire[..|wire| - 1][..i] == wire[..i];
    }
  }

  /** However requests interleave, every frame an agent writes on a connection is in its place. */
  lemma {:induction false} WireIsOrdered(steps: seq<Step>, i: nat)
    requires After(steps).Some? && i < |After(steps).value.wire|
    ensures var s := After(steps).value; InPlace(s.wire[..i], s.wire[i], s.lost)
  {
    RunKeeps(steps);
    OrderedAt(After(steps).value.wire, After(steps).value.lost, i);
  }

  /** Ordered requests are served in the order they were accepted from the wire, each after the one
      before it was answered. */
  lemma {:induction false} ServedInOrder(steps: seq<Step>, i: nat)
    requires After(steps).Some? && i < |After(steps).value.started|
    ensures
      var s := After(steps).value;
      && s.started <= s.accepted
      && (i < |s.started| - 1 ==> In(s, s.started[i], Over))
  {
    RunKeeps(steps);
    assert Progressed(After(steps).value, i);
  }

  // ---- what the server makes of it ----

  /** An agent's connection and the gateway that reads it: read is how many of its frames the gateway
      has handled, and home holds the requests it sent on this socket. */
  datatype System = System(agent: State, read: nat, gateway: Gateway.State, home: set<RequestId>)

  datatype Move =
    | AgentMoves(step: Step)
    | Reads(outcome: Gateway.Outcome)
    | GatewayMoves(gstep: Gateway.Step)

  /** The gateway's step for a frame; the end of a stream changes nothing it keeps. */
  function Reading(f: Frame, node: nat, socket: nat, outcome: Gateway.Outcome): Option<Gateway.Step> {
    match f
    case Chunk(id, n) => Some(Gateway.Chunk(node, socket, id, n))
    case Done(_, _) => None
    case Res(id) => Some(Gateway.Response(node, socket, id, outcome))
  }

  /** The agent gets the requests that were sent on this socket, which is its node's. */
  predicate CanMove(y: System, move: Move, node: nat, socket: nat) {
    match move
    case AgentMoves(step) => Enabled(y.agent, step) && (step.Arrive? ==> step.id in y.home)
    case Reads(outcome) =>
      && y.read < |y.agent.wire|
      && var gstep := Reading(y.agent.wire[y.read], node, socket, outcome);
         gstep.Some? ==> Gateway.Enabled(y.gateway, gstep.value)
    case GatewayMoves(gstep) =>
      && Gateway.Enabled(y.gateway, gstep) && ((gstep.Chunk? || gstep.Response?) ==> gstep.socket != socket)
      && (gstep.Open? && gstep.socket == socket ==> gstep.node == node)
  }

  function Moved(y: System, move: Move, node: nat, socket: nat): System
    requires CanMove(y, move, node, socket)
  {
    match move
    case AgentMoves(step) => y.(agent := Do(y.agent, step))
    case Reads(outcome) =>
      var gstep := Reading(y.agent.wire[y.read], node, socket, outcome);
      y.(read := y.read + 1, gateway := if gstep.Some? then Gateway.Do(y.gateway, gstep.value) else y.gateway)
    case GatewayMoves(gstep) =>
      var g := Gateway.Do(y.gateway, gstep);
      y.(gateway := g,
         home := if gstep.Request? && socket in g.sockets && gstep.id in g.sockets[socket].pending
                 then y.home + {gstep.id} else y.home)
  }

  /** The chunk numbers a request's handler on the server was given. */
  function Given(chunks: seq<(RequestId, nat)>, id: RequestId): seq<nat> {
    if chunks == [] then []
    else
      var c := chunks[|chunks| - 1];
      Given(chunks[..|chunks| - 1], id) + if c.0 == id then [c.1] else []
  }

  ghost predicate Increasing(numbers: seq<nat>) {
    forall i, j :: 0 <= i < j < |numbers| ==> numbers[i] < numbers[j]
  }

  ghost predicate AllIn(numbers: seq<nat>, all: seq<nat>) {
    forall i :: 0 <= i < |numbers| ==> numbers[i] in all
  }

  ghost predicate OnlyHere(g: Gateway.State, socket: nat, id: RequestId) {
    id in g.issued && forall other :: other != socket ==> !Gateway.Waits(g, other, id)
  }

  ghost predicate GivenSound(y: System, id: RequestId)
    requires y.read <= |y.agent.wire|
  {
    Increasing(Given(y.gateway.chunks, id)) && AllIn(Given(y.gateway.chunks, id), Numbers(y.agent.wire[..y.read], id))
  }

  ghost predicate SystemInv(y: System, socket: nat) {
    && Inv(y.agent) && Gateway.Inv(y.gateway) && y.read <= |y.agent.wire|
    && (forall id :: id !in y.gateway.issued ==> Given(y.gateway.chunks, id) == [])
    && forall id :: id in y.home ==> OnlyHere(y.gateway, socket, id) && GivenSound(y, id)
  }

  lemma WireGrows(s: State, step: Step)
    requires Enabled(s, step)
    ensures s.wire <= Do(s, step).wire
  {
  }

  lemma {:induction false} GivenAppend(chunks: seq<(RequestId, nat)>, c: (RequestId, nat), id: RequestId)
    ensures Given(chunks + [c], id) == Given(chunks, id) + if c.0 == id then [c.1] else []
  {
    assert (chunks + [c])[..|chunks|] == chunks;
  }

  lemma AgentMoveKeeps(y: System, step: Step, node: nat, socket: nat)
    requires SystemInv(y, socket) && CanMove(y, AgentMoves(step), node, socket)
    ensures SystemInv(Moved(y, AgentMoves(step), node, socket), socket)
  {
    var n := Moved(y, AgentMoves(step), node, socket);
    StepKeeps(y.agent, step);
    WireGrows(y.agent, step);
    assert n.agent.wire[..y.read] == y.agent.wire[..y.read];
    forall id | id in n.home ensures OnlyHere(n.gateway, socket, id) && GivenSound(n, id) {
      assert GivenSound(y, id);
    }
  }

  /** Where a step of the gateway leaves the sockets requests wait on, and what handlers were given. */
  lemma OthersStayAway(g: Gateway.State, gstep: Gateway.Step, socket: nat, id: RequestId)
    requires Gateway.Inv(g) && Gateway.Enabled(g, gstep) && OnlyHere(g, socket, id)
    ensures OnlyHere(Gateway.Do(g, gstep), socket, id)
  {
    var n := Gateway.Do(g, gstep);
    forall other | other != socket ensures !Gateway.Waits(n, other, id) {
      if Gateway.Waits(n, other, id) {
        Gateway.WaitsFrom(g, gstep, other, id);
      }
    }
  }

  lemma {:induction false} OtherChunks(g: Gateway.State, gstep: Gateway.Step, socket: nat, id: RequestId)
    requires Gateway.Inv(g) && Gateway.Enabled(g, gstep) && (id in g.issued ==> OnlyHere(g, socket, id))
    requires gstep.Chunk? ==> gstep.socket != socket
    ensures Given(Gateway.Do(g, gstep).chunks, id) == Given(g.chunks, id)
  {
    if gstep.Chunk? && Gateway.Current(g, gstep.node, gstep.socket) {
      assert Gateway.SocketSound(g, gstep.socket);
      assert gstep.id == id ==> !Gateway.Waits(g, gstep.socket, id);
      GivenAppend(g.chunks, (gstep.id, gstep.seq_), id);
    }
  }

  lemma NewRequestIsHere(g: Gateway.State, gstep: Gateway.Step, socket: nat)
    requires Gateway.Inv(g) && Gateway.Enabled(g, gstep) && gstep.Request?
    requires Gateway.Waits(Gateway.Do(g, gstep), socket, gstep.id)
    ensures OnlyHere(Gateway.Do(g, gstep), socket, gstep.id)
  {
    Gateway.StepKeeps(g, gstep);
  }

  lemma {:induction false} NothingForUnissued(g: Gateway.State, gstep: Gateway.Step, id: RequestId)
    requires Gateway.Inv(g) && Gateway.Enabled(g, gstep) && id !in Gateway.Do(g, gstep).issued
    ensures Given(Gateway.Do(g, gstep).chunks, id) == Given(g.chunks, id) && id !in g.issued
  {
    if gstep.Chunk? && Gateway.Current(g, gstep.node, gstep.socket) {
      assert Gateway.SocketSound(g, gstep.socket);
      GivenAppend(g.chunks, (gstep.id, gstep.seq_), id);
    }
  }

  lemma GatewayMoveKeeps(y: System, gstep: Gateway.Step, node: nat, socket: nat)
    requires SystemInv(y, socket) && CanMove(y, GatewayMoves(gstep), node, socket)
    ensures SystemInv(Moved(y, GatewayMoves(gstep), node, socket), socket)
  {
    var n := Moved(y, GatewayMoves(gstep), node, socket);
    Gateway.StepKeeps(y.gateway, gstep);
    forall id | id !in n.gateway.issued ensures Given(n.gateway.chunks, id) == [] {
      NothingForUnissued(y.gateway, gstep, id);
    }
    forall id | id in n.home ensures OnlyHere(n.gateway, socket, id) && GivenSound(n, id) {
      if id in y.home {
        OthersStayAway(y.gateway, gstep, socket, id);
        OtherChunks(y.gateway, gstep, socket, id);
        assert GivenSound(y, id);
      } else {
        NewRequestIsHere(y.gateway, gstep, socket);
        OtherChunks(y.gateway, gstep, socket, id);
      }
    }
  }

  lemma ChunkIsLater(given: seq<nat>, numbers: seq<nat>, n: nat)
    requires Increasing(given) && AllIn(given, numbers) && forall m :: m in numbers ==> m < n
    ensures Increasing(given + [n]) && AllIn(given + [n], numbers + [n])
  {
    forall i | 0 <= i < |given| ensures given[i] < n {
      assert given[i] in numbers;
    }
  }

  /** A frame that is read: what is given of a request stays in step with what its wire has. */
  lemma FrameGiven(before: seq<Frame>, f: Frame, lost: set<RequestId>, chunks: seq<(RequestId, nat)>, handed: bool,
                   id: RequestId)
    requires InPlace(before, f, lost) && (handed ==> f.Chunk?)
    requires Increasing(Given(chunks, id)) && AllIn(Given(chunks, id), Numbers(before, id))
    ensures
      var given := Given(if handed then chunks + [(f.id, f.number)] else chunks, id);
      Increasing(given) && AllIn(given, Numbers(before + [f], id))
  {
    Appended(before, f, id);
    if handed {
      GivenAppend(chunks, (f.id, f.number), id);
      if f.id == id {
        ChunkIsLater(Given(chunks, id), Numbers(before, id), f.number);
      }
    }
  }

  lemma ReadGiven(y: System, outcome: Gateway.Outcome, node: nat, socket: nat, id: RequestId)
    requires SystemInv(y, socket) && CanMove(y, Reads(outcome), node, socket) && id in y.home
    ensures GivenSound(Moved(y, Reads(outcome), node, socket), id)
  {
    var n := Moved(y, Reads(outcome), node, socket);
    var wire, f := y.agent.wire, y.agent.wire[y.read];
    assert wire[..y.read + 1] == wire[..y.read] + [f];
    OrderedAt(wire, y.agent.lost, y.read);
    assert GivenSound(y, id);
    FrameGiven(wire[..y.read], f, y.agent.lost, y.gateway.chunks, n.gateway.chunks != y.gateway.chunks, id);
  }

  lemma ReadKeeps(y: System, outcome: Gateway.Outcome, node: nat, socket: nat)
    requires SystemInv(y, socket) && CanMove(y, Reads(outcome), node, socket)
    ensures SystemInv(Moved(y, Reads(outcome), node, socket), socket)
  {
    var n := Moved(y, Reads(outcome), node, socket);
    var gstep := Reading(y.agent.wire[y.read], node, socket, outcome);
    if gstep.Some? {
      Gateway.StepKeeps(y.gateway, gstep.value);
      forall id | id !in n.gateway.issued ensures Given(n.gateway.chunks, id) == [] {
        NothingForUnissued(y.gateway, gstep.value, id);
      }
      forall id | id in y.home ensures OnlyHere(n.gateway, socket, id) {
        OthersStayAway(y.gateway, gstep.value, socket, id);
      }
    }
    forall id | id in n.home ensures GivenSound(n, id) {
      ReadGiven(y, outcome, node, socket, id);
    }
  }

  function SystemAfter(moves: seq<Move>, node: nat, socket: nat): Option<System> {
    if moves == [] then Some(System(EMPTY, 0, Gateway.EMPTY, {}))
    else
      match SystemAfter(moves[..|moves| - 1], node, socket)
      case None => None
      case Some(y) =>
        var move := moves[|moves| - 1];
        if CanMove(y, move, node, socket) then Some(Moved(y, move, node, socket)) else None
  }

  lemma {:induction false} SystemKeeps(moves: seq<Move>, node: nat, socket: nat)
    requires SystemAfter(moves, node, socket).Some?
    ensures SystemInv(SystemAfter(moves, node, socket).value, socket)
  {
    if moves != [] {
      SystemKeeps(moves[..|moves| - 1], node, socket);
      var y, move := SystemAfter(moves[..|moves| - 1], node, socket).value, moves[|moves| - 1];
      match move {
        case AgentMoves(step) => AgentMoveKeeps(y, step, node, socket);
        case Reads(outcome) => ReadKeeps(y, outcome, node, socket);
        case GatewayMoves(gstep) => GatewayMoveKeeps(y, gstep, node, socket);
      }
    }
  }

  /** Whatever the agent and the gateway do, a request's handler on the server is given chunks with
      strictly increasing numbers, and no chunk once the request has an outcome. */
  lemma {:induction false} ServerSeesOrder(moves: seq<Move>, move: Move, node: nat, socket: nat, id: RequestId)
    requires SystemAfter(moves + [move], node, socket).Some?
    requires id in SystemAfter(moves + [move], node, socket).value.home
    ensures
      var y := SystemAfter(moves + [move], node, socket).value;
      Increasing(Given(y.gateway.chunks, id))
    ensures
      var before := SystemAfter(moves, node, socket);
      && before.Some?
      && (id in before.value.gateway.outcomes ==>
            Given(SystemAfter(moves + [move], node, socket).value.gateway.chunks, id)
              == Given(before.value.gateway.chunks, id))
  {
    assert (moves + [move])[..|moves|] == moves;
    SystemKeeps(moves + [move], node, socket);
    SystemKeeps(moves, node, socket);
    var y := SystemAfter(moves, node, socket).value;
    var gstep :=
      match move
      case AgentMoves(_) => None
      case Reads(outcome) => Reading(y.agent.wire[y.read], node, socket, outcome)
      case GatewayMoves(g) => Some(g);
    if gstep.Some? && id in y.gateway.outcomes {
      Gateway.NoChunkAfterSettling(y.gateway, gstep.value, id);
      var n := Gateway.Do(y.gateway, gstep.value);
      if n.chunks != y.gateway.chunks {
        GivenAppend(y.gateway.chunks, (gstep.value.id, gstep.value.seq_), id);
      }
    }
  }
}
