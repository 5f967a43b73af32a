/** What a request's frames come to: all of them on the wire once it is answered, and all of its chunks with
    the server's handler before its answer. */
module StreamsDelivery {
  import opened Common
  import opened Streams
  import opened StreamsInv
  import opened StreamsRuns
  import Gateway

  // ---- the frames of one request ----

  function Of(wire: seq<Frame>, id: RequestId): seq<Frame> {
    if wire == [] then []
    else Of(wire[..|wire| - 1], id) + if wire[|wire| - 1].id == id then [wire[|wire| - 1]] else []
  }

  lemma {:induction false} OfMore(wire: seq<Frame>, f: Frame, id: RequestId)
    ensures Of(wire + [f], id) == Of(wire, id) + if f.id == id then [f] else []
  {
    assert (wire + [f])[..|wire|] == wire;
  }

  /** A request's first n chunks. */
  function Sent(id: RequestId, n: nat): seq<Frame> { if n == 0 then [] else Sent(id, n - 1) + [Chunk(id, n - 1)] }

  /** The frames of a request that got as far as it did: its chunks from 0 on, the end of its stream if it
      opened one, then its answer. One that was refused has its answer only. */
  function Spoken(s: State, id: RequestId): seq<Frame> {
    if id in s.tasks then
      var t := s.tasks[id];
      Sent(id, t.number) + (if (t.phase.Ended? || t.phase.Over?) && t.number > 0 then [Done(id, t.number)] else [])
      + (if t.phase.Over? then [Res(id)] else [])
    else if id in s.refused then [Res(id)]
    else []
  }

  ghost predicate SpokenSound(s: State, id: RequestId) {
    && (id !in s.lost ==> Of(s.wire, id) == Spoken(s, id))
    && (In(s, id, Ended) ==> s.tasks[id].number > 0)
  }

  /** The step writes a frame of the request. */
  ghost predicate Speaks(s: State, step: Step, id: RequestId) {
    && !step.Take? && step.id == id
    && (step.Send? || step.EndStream? || step.Answer? || (step.Arrive? && step.ordered && |s.queue| >= QUEUE_SIZE))
  }

  lemma QuietWire(s: State, step: Step, id: RequestId)
    requires Enabled(s, step) && !Speaks(s, step, id)
    ensures Of(Do(s, step).wire, id) == Of(s.wire, id) && (id in Do(s, step).lost <==> id in s.lost)
  {
    var n := Do(s, step);
    if n.wire != s.wire {
      OfMore(s.wire, n.wire[|s.wire|], id);
    }
  }

  lemma QuietPhase(s: State, step: Step, id: RequestId)
    requires Inv(s) && Enabled(s, step) && !Speaks(s, step, id)
    ensures Spoken(Do(s, step), id) == Spoken(s, id) && (In(Do(s, step), id, Ended) ==> In(s, id, Ended))
    ensures id in s.tasks && id in Do(s, step).tasks ==> Do(s, step).tasks[id].number == s.tasks[id].number
  {
    if step.Take? {
      assert Queued(s, 0);
    }
    assert Sent(id, 0) == [];
  }

  lemma QuietSpoken(s: State, step: Step, id: RequestId)
    requires Inv(s) && Enabled(s, step) && SpokenSound(s, id) && !Speaks(s, step, id)
    ensures SpokenSound(Do(s, step), id)
  {
    QuietWire(s, step, id);
    QuietPhase(s, step, id);
  }

  /** Which frame a step that speaks writes. */
  function Said(s: State, step: Step, id: RequestId): Frame {
    if step.Send? && id in s.tasks then Chunk(id, s.tasks[id].number)
    else if step.EndStream? && id in s.tasks then Done(id, s.tasks[id].number)
    else Res(id)
  }

  lemma LoudWire(s: State, step: Step, id: RequestId)
    requires Enabled(s, step) && Speaks(s, step, id) && step.written
    ensures Of(Do(s, step).wire, id) == Of(s.wire, id) + [Said(s, step, id)]
  {
    OfMore(s.wire, Said(s, step, id), id);
  }

  lemma LoudPhase(s: State, step: Step, id: RequestId)
    requires Inv(s) && Enabled(s, step) && SpokenSound(s, id) && Speaks(s, step, id)
    ensures Spoken(Do(s, step), id) == Spoken(s, id) + [Said(s, step, id)]
    ensures In(Do(s, step), id, Ended) ==> Do(s, step).tasks[id].number > 0
  {
    match step {
      case Send(_, _) => assert Sent(id, s.tasks[id].number + 1) == Sent(id, s.tasks[id].number) + [Said(s, step, id)];
      case EndStream(_, _) =>
      case Answer(_, _) =>
      case Arrive(_, _, _, _) =>
    }
  }

  lemma LoudSpoken(s: State, step: Step, id: RequestId)
    requires Inv(s) && Enabled(s, step) && SpokenSound(s, id) && Speaks(s, step, id)
    ensures SpokenSound(Do(s, step), id)
  {
    LoudPhase(s, step, id);
    if step.written {
      LoudWire(s, step, id);
    }
  }

  lemma {:induction false} RunSpoken(steps: seq<Step>, id: RequestId)
    requires After(steps).Some?
    ensures SpokenSound(After(steps).value, id)
  {
    if steps != [] {
      var before, step := steps[..|steps| - 1], steps[|steps| - 1];
      RunSpoken(before, id);
      RunKeeps(before);
      if Speaks(After(before).value, step, id) {
        LoudSpoken(After(before).value, step, id);
      } else {
        QuietSpoken(After(before).value, step, id);
      }
    }
  }

  /** In every run: the wire has of a request that lost no frame exactly the frames it has come to; when it
      is over, all its chunks, the end of its stream and its answer, each once. */
  lemma {:induction false} WireHasExactly(steps: seq<Step>, id: RequestId)
    requires After(steps).Some? && id !in After(steps).value.lost
    ensures Of(After(steps).value.wire, id) == Spoken(After(steps).value, id)
  {
    RunSpoken(steps, id);
  }

  // ---- a request that nothing disturbs ----

  lemma {:induction false} OneMore(steps: seq<Step>, step: Step)
    requires After(steps).Some? && Enabled(After(steps).value, step)
    ensures After(steps + [step]) == Some(Do(After(steps).value, step))
  {
    assert (steps + [step])[..|steps|] == steps;
  }

  function Sends(id: RequestId, n: nat): seq<Step> {
    if n == 0 then [] else Sends(id, n - 1) + [Step.Send(id, true)]
  }

  /** The request's handler runs and has sent n chunks. */
  ghost predicate Sending(s: State, id: RequestId, n: nat) {
    In(s, id, Running) && s.tasks[id].number == n && id !in s.lost
  }

  lemma {:induction false} SendsRun(steps: seq<Step>, id: RequestId, n: nat)
    requires After(steps).Some? && Sending(After(steps).value, id, 0)
    ensures After(steps + Sends(id, n)).Some? && Sending(After(steps + Sends(id, n)).value, id, n)
  {
    if n == 0 {
      assert steps + Sends(id, n) == steps;
    } else {
      SendsRun(steps, id, n - 1);
      OneMore(steps + Sends(id, n - 1), Step.Send(id, true));
      assert steps + Sends(id, n) == (steps + Sends(id, n - 1)) + [Step.Send(id, true)];
    }
  }

  /** How a handler that has sent n chunks ends. */
  function Closing(id: RequestId, n: nat): seq<Step> {
    [Return(id)] + (if n > 0 then [EndStream(id, true)] else []) + [Answer(id, true)]
  }

  lemma {:induction false} ClosingRuns(steps: seq<Step>, id: RequestId, n: nat)
    requires After(steps).Some? && Sending(After(steps).value, id, n)
    ensures
      var last := After(steps + Closing(id, n));
      last.Some? && In(last.value, id, Over) && last.value.tasks[id].number == n && id !in last.value.lost
  {
    OneMore(steps, Return(id));
    if n > 0 {
      OneMore(steps + [Return(id)], EndStream(id, true));
      OneMore(steps + [Return(id)] + [EndStream(id, true)], Answer(id, true));
      assert steps + Closing(id, n) == steps + [Return(id)] + [EndStream(id, true)] + [Answer(id, true)];
    } else {
      OneMore(steps + [Return(id)], Answer(id, true));
      assert steps + Closing(id, n) == steps + [Return(id)] + [Answer(id, true)];
    }
  }

  /** How a request's handler gets to run; an ordered one waits for the worker. */
  function Starting(id: RequestId, ordered: bool): seq<Step> {
    [Arrive(id, ordered, true, true)] + if ordered then [Take] else []
  }

  lemma {:induction false} StartingRuns(steps: seq<Step>, id: RequestId, ordered: bool)
    requires After(steps).Some? && !Known(After(steps).value, id)
    requires ordered ==> After(steps).value.queue == [] && After(steps).value.worker.None?
    ensures After(steps + Starting(id, ordered)).Some? && Sending(After(steps + Starting(id, ordered)).value, id, 0)
  {
    RunKeeps(steps);
    var arrive := Arrive(id, ordered, true, true);
    OneMore(steps, arrive);
    if ordered {
      OneMore(steps + [arrive], Take);
      assert steps + Starting(id, ordered) == steps + [arrive] + [Take];
    } else {
      assert steps + Starting(id, ordered) == steps + [arrive];
    }
  }

  /** After any run: a new request that nothing disturbs, and finds the worker free if it is an ordered one,
      is served to its end: the wire has its n chunks, the end of its stream if n > 0, and its answer. */
  lemma {:induction false} UndisturbedIsServed(steps: seq<Step>, id: RequestId, ordered: bool, n: nat)
    requires After(steps).Some? && !Known(After(steps).value, id)
    requires ordered ==> After(steps).value.queue == [] && After(steps).value.worker.None?
    ensures
      var last := After(steps + Starting(id, ordered) + Sends(id, n) + Closing(id, n));
      && last.Some?
      && Of(last.value.wire, id) == Sent(id, n) + (if n > 0 then [Done(id, n)] else []) + [Res(id)]
  {
    var all := steps + Starting(id, ordered) + Sends(id, n);
    StartingRuns(steps, id, ordered);
    SendsRun(steps + Starting(id, ordered), id, n);
    ClosingRuns(all, id, n);
    WireHasExactly(all + Closing(id, n), id);
  }

  /** A request of an unknown method is answered without a stream; an ordered one is queued as long as fewer
      than 1024 wait, and otherwise answered at once. */
  lemma {:induction false} ArrivalsAreMet(steps: seq<Step>, id: RequestId, ordered: bool, known: bool)
    requires After(steps).Some? && !Known(After(steps).value, id)
    ensures
      var s := After(steps).value;
      var n := Do(s, Arrive(id, ordered, known, true));
      if ordered then
        if |s.queue| < 1024 then n.queue == s.queue + [id] && n.wire == s.wire
        else n.queue == s.queue && n.wire == s.wire + [Res(id)]
      else
        n.wire == s.wire && (if known then Sending(n, id, 0) else Enabled(n, Answer(id, true)))
  {
    RunKeeps(steps);
  }

  // ---- the server's handler gets them all ----

  /** The agent has only requests of this socket, which is its node's; as long as one of them waits, its
      handler was given every chunk that was read. */
  ghost predicate Delivered(y: System, node: nat, socket: nat, id: RequestId)
    requires y.read <= |y.agent.wire|
  {
    && (Known(y.agent, id) ==> id in y.home)
    && (id in y.home && Gateway.Waits(y.gateway, socket, id) ==>
          Given(y.gateway.chunks, id) == Numbers(y.agent.wire[..y.read], id))
  }

  ghost predicate OwnSocket(g: Gateway.State, node: nat, socket: nat) {
    socket in g.sockets ==> g.sockets[socket].nodeId == node
  }

  lemma {:induction false} NoneBefore(wire: seq<Frame>, k: nat, id: RequestId)
    requires k <= |wire| && Numbers(wire, id) == []
    ensures Numbers(wire[..k], id) == []
  {
    if k < |wire| {
      NoneBefore(wire[..|wire| - 1], k, id);
      assert wire[..|wire| - 1][..k] == wire[..k];
    } else {
      assert wire[..k] == wire;
    }
  }

  lemma AgentDelivers(y: System, step: Step, node: nat, socket: nat, id: RequestId)
    requires SystemInv(y, socket) && CanMove(y, AgentMoves(step), node, socket) && Delivered(y, node, socket, id)
    ensures
      var n := Moved(y, AgentMoves(step), node, socket);
      n.read <= |n.agent.wire| && Delivered(n, node, socket, id)
  {
    WireGrows(y.agent, step);
    assert Do(y.agent, step).wire[..y.read] == y.agent.wire[..y.read];
    assert step.Take? ==> y.agent.queue[0] in y.agent.queue;
  }

  lemma GatewayDelivers(y: System, gstep: Gateway.Step, node: nat, socket: nat, id: RequestId)
    requires SystemInv(y, socket) && CanMove(y, GatewayMoves(gstep), node, socket) && Delivered(y, node, socket, id)
    ensures Delivered(Moved(y, GatewayMoves(gstep), node, socket), node, socket, id)
  {
    var n := Moved(y, GatewayMoves(gstep), node, socket);
    if id in n.home && Gateway.Waits(n.gateway, socket, id) {
      Gateway.WaitsFrom(y.gateway, gstep, socket, id);
      if id in y.home {
        assert OnlyHere(y.gateway, socket, id);
      } else {
        assert Silent(y.agent, id);
        NoneBefore(y.agent.wire, y.read, id);
      }
      OtherChunks(y.gateway, gstep, socket, id);
    }
  }

  /** What the handler of a waiting request is given by a frame that leaves it waiting. */
  lemma ReadHandsOver(g: Gateway.State, f: Frame, outcome: Gateway.Outcome, node: nat, socket: nat, id: RequestId)
    requires Gateway.Inv(g) && OwnSocket(g, node, socket)
    requires var gstep := Reading(f, node, socket, outcome); gstep.Some? && Gateway.Enabled(g, gstep.value)
    requires Gateway.Waits(Gateway.Do(g, Reading(f, node, socket, outcome).value), socket, id)
    ensures
      Given(Gateway.Do(g, Reading(f, node, socket, outcome).value).chunks, id)
        == Given(g.chunks, id) + if f.Chunk? && f.id == id then [f.number] else []
  {
    assert Gateway.SocketSound(g, socket);
    if f.Chunk? {
      GivenAppend(g.chunks, (f.id, f.number), id);
    }
  }

  lemma ReadDelivers(y: System, outcome: Gateway.Outcome, node: nat, socket: nat, id: RequestId)
    requires SystemInv(y, socket) && CanMove(y, Reads(outcome), node, socket) && Delivered(y, node, socket, id)
    requires OwnSocket(y.gateway, node, socket)
    ensures Delivered(Moved(y, Reads(outcome), node, socket), node, socket, id)
  {
    var n := Moved(y, Reads(outcome), node, socket);
    var wire, f := y.agent.wire, y.agent.wire[y.read];
    if id in n.home && Gateway.Waits(n.gateway, socket, id) {
      assert wire[..y.read + 1] == wire[..y.read] + [f];
      Appended(wire[..y.read], f, id);
      var gstep := Reading(f, node, socket, outcome);
      if gstep.Some? {
        Gateway.WaitsFrom(y.gateway, gstep.value, socket, id);
        ReadHandsOver(y.gateway, f, outcome, node, socket, id);
      }
    }
  }

  lemma SocketStays(g: Gateway.State, gstep: Gateway.Step, node: nat, socket: nat)
    requires Gateway.Enabled(g, gstep) && OwnSocket(g, node, socket)
    requires gstep.Open? && gstep.socket == socket ==> gstep.node == node
    ensures OwnSocket(Gateway.Do(g, gstep), node, socket)
  {
  }

  lemma {:induction false} SystemDelivers(moves: seq<Move>, node: nat, socket: nat, id: RequestId)
    requires SystemAfter(moves, node, socket).Some?
    ensures
      var y := SystemAfter(moves, node, socket).value;
      y.read <= |y.agent.wire| && Delivered(y, node, socket, id) && OwnSocket(y.gateway, node, socket)
  {
    if moves != [] {
      var before, move := moves[..|moves| - 1], moves[|moves| - 1];
      SystemKeeps(before, node, socket);
      SystemDelivers(before, node, socket, id);
      var y := SystemAfter(before, node, socket).value;
      match move {
        case AgentMoves(step) => AgentDelivers(y, step, node, socket, id);
        case Reads(outcome) =>
          ReadDelivers(y, outcome, node, socket, id);
          var gstep := Reading(y.agent.wire[y.read], node, socket, outcome);
          if gstep.Some? {
            SocketStays(y.gateway, gstep.value, node, socket);
          }
        case GatewayMoves(gstep) =>
          GatewayDelivers(y, gstep, node, socket, id);
          SocketStays(y.gateway, gstep, node, socket);
      }
    }
  }

  function UpTo(n: nat): seq<nat> { seq(n, i => i) }

  lemma {:induction false} NumbersInOrder(wire: seq<Frame>, lost: set<RequestId>, id: RequestId)
    requires Ordered(wire, lost) && id !in lost
    ensures Numbers(wire, id) == UpTo(|Numbers(wire, id)|)
  {
    if wire != [] {
      NumbersInOrder(wire[..|wire| - 1], lost, id);
    }
  }

  lemma {:induction false} OrderedPart(wire: seq<Frame>, lost: set<RequestId>, k: nat)
    requires Ordered(wire, lost) && k <= |wire|
    ensures Ordered(wire[..k], lost)
  {
    if k < |wire| {
      OrderedPart(wire[..|wire| - 1], lost, k);
      assert wire[..|wire| - 1][..k] == wire[..k];
    } else {
      assert wire[..k] == wire;
    }
  }

  lemma {:induction false} NoneAfterRes(wire: seq<Frame>, lost: set<RequestId>, i: nat, id: RequestId)
    requires Ordered(wire, lost) && i < |wire| && Answers(wire[i], id)
    ensures Numbers(wire[..i], id) == Numbers(wire, id)
  {
    var n := |wire| - 1;
    if i < n {
      NoneAfterRes(wire[..n], lost, i, id);
      assert wire[..n][..i] == wire[..i] && Answers(wire[..n][i], id);
    }
  }

  /** However agent and gateway proceed: as long as a request waits, its handler was given every chunk that was
      read, and when it lost no frame, those are numbered 0, 1, 2, and so on. */
  lemma {:induction false} ServerSeesAll(moves: seq<Move>, node: nat, socket: nat, id: RequestId)
    requires SystemAfter(moves, node, socket).Some?
    ensures
      var y := SystemAfter(moves, node, socket).value;
      id in y.home && Gateway.Waits(y.gateway, socket, id) ==>
        && y.read <= |y.agent.wire| && Given(y.gateway.chunks, id) == Numbers(y.agent.wire[..y.read], id)
        && (id !in y.agent.lost ==> Given(y.gateway.chunks, id) == UpTo(|Given(y.gateway.chunks, id)|))
  {
    SystemDelivers(moves, node, socket, id);
    SystemKeeps(moves, node, socket);
    var y := SystemAfter(moves, node, socket).value;
    if id !in y.agent.lost {
      OrderedPart(y.agent.wire, y.agent.lost, y.read);
      NumbersInOrder(y.agent.wire[..y.read], y.agent.lost, id);
    }
  }

  /** When the answer of a waiting request that lost no frame is read, its handler has been given all the chunks
      the agent's handler sent, each once and in order. */
  lemma {:induction false} AnsweredWithAll(moves: seq<Move>, node: nat, socket: nat, id: RequestId)
    requires SystemAfter(moves, node, socket).Some?
    requires
      var y := SystemAfter(moves, node, socket).value;
      && id in y.home && Gateway.Waits(y.gateway, socket, id) && id in y.agent.tasks && id !in y.agent.lost
      && y.read < |y.agent.wire| && y.agent.wire[y.read] == Res(id)
    ensures
      var y := SystemAfter(moves, node, socket).value;
      Given(y.gateway.chunks, id) == UpTo(y.agent.tasks[id].number)
  {
    SystemKeeps(moves, node, socket);
    ServerSeesAll(moves, node, socket, id);
    var y := SystemAfter(moves, node, socket).value;
    assert TaskSound(y.agent, id);
    NoneAfterRes(y.agent.wire, y.agent.lost, y.read, id);
  }
}
