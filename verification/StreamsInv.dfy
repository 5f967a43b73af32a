/** What each step on an agent's connection keeps: the frames of every request are in their places, as
    far as the request is, and the queue holds the ordered requests that were accepted and not started
    yet. A request that lost a frame keeps the order of its frames, with numbers missing; the frames of
    other requests are not touched by that. */
module StreamsInv {
  import opened Common
  import opened Streams

  // ---- a request's frames on the wire ----

  function Numbers(wire: seq<Frame>, id: RequestId): seq<nat> {
    if wire == [] then []
    else
      var f := wire[|wire| - 1];
      Numbers(wire[..|wire| - 1], id) + if f.Chunk? && f.id == id then [f.number] else []
  }

  ghost predicate Closes(f: Frame, id: RequestId) { f.Done? && f.id == id }

  ghost predicate Answers(f: Frame, id: RequestId) { f.Res? && f.id == id }

  ghost predicate HasDone(wire: seq<Frame>, id: RequestId) { exists i :: 0 <= i < |wire| && Closes(wire[i], id) }

  ghost predicate HasRes(wire: seq<Frame>, id: RequestId) { exists i :: 0 <= i < |wire| && Answers(wire[i], id) }

  /** A frame in its place: chunks are numbered from 0, one by one, then the stream is closed with the
      number of chunks, then the request is answered. A request that lost a frame keeps the order. */
  ghost predicate InPlace(before: seq<Frame>, f: Frame, lost: set<RequestId>) {
    var numbers := Numbers(before, f.id);
    && !HasRes(before, f.id)
    && (f.Chunk? || f.Done? ==> !HasDone(before, f.id) && forall n :: n in numbers ==> n < f.number)
    && (f.id !in lost ==>
          && (f.Chunk? || f.Done? ==> f.number == |numbers|)
          && (f.Res? && numbers != [] ==> HasDone(before, f.id)))
  }

  ghost predicate Ordered(wire: seq<Frame>, lost: set<RequestId>) {
    wire == [] ||
    (Ordered(wire[..|wire| - 1], lost) && InPlace(wire[..|wire| - 1], wire[|wire| - 1], lost))
  }

  /** What the wire has of a request, by how far the request is. */
  ghost predicate TaskSound(s: State, id: RequestId)
    requires id in s.tasks
  {
    var t := s.tasks[id];
    && (forall n :: n in Numbers(s.wire, id) ==> n < t.number)
    && (id !in s.lost ==> |Numbers(s.wire, id)| == t.number)
    && (HasRes(s.wire, id) ==> t.phase.Over?)
    && (HasDone(s.wire, id) ==> t.phase.Ended? || t.phase.Over?)
    && (id !in s.lost && (t.phase.Ended? || t.phase.Over?) && t.number > 0 ==> HasDone(s.wire, id))
  }

  ghost predicate Silent(s: State, id: RequestId) {
    Numbers(s.wire, id) == [] && !HasRes(s.wire, id) && !HasDone(s.wire, id)
  }

  ghost predicate Queued(s: State, i: nat)
    requires i < |s.queue|
  {
    s.queue[i] !in s.tasks && s.queue[i] !in s.refused
  }

  /** The queue is what was accepted and not started yet; what was started before the worker's request
      is over. */
  ghost predicate InOrder(s: State) {
    && s.accepted == s.started + s.queue
    && (forall i, j :: 0 <= i < j < |s.queue| ==> s.queue[i] != s.queue[j])
    && (forall i :: 0 <= i < |s.queue| ==> Queued(s, i))
    && (s.worker.Some? ==> s.started != [] && s.started[|s.started| - 1] == s.worker.value)
    && (forall i :: 0 <= i < |s.started| ==> Progressed(s, i))
  }

  ghost predicate Progressed(s: State, i: nat)
    requires i < |s.started|
  {
    s.started[i] in s.tasks && (In(s, s.started[i], Over) || (i == |s.started| - 1 && s.worker == Some(s.started[i])))
  }

  ghost predicate Inv(s: State) {
    && Ordered(s.wire, s.lost)
    && (forall id :: id in s.tasks ==> TaskSound(s, id))
    && (forall id :: id !in s.tasks && id !in s.refused ==> Silent(s, id) && id !in s.lost)
    && s.tasks.Keys !! s.refused
    && InOrder(s)
  }

  lemma {:induction false} Appended(wire: seq<Frame>, f: Frame, id: RequestId)
    ensures Numbers(wire + [f], id) == Numbers(wire, id) + if f.Chunk? && f.id == id then [f.number] else []
    ensures HasDone(wire + [f], id) <==> HasDone(wire, id) || Closes(f, id)
    ensures HasRes(wire + [f], id) <==> HasRes(wire, id) || Answers(f, id)
  {
    var longer := wire + [f];
    assert longer[..|wire|] == wire && longer[|wire|] == f;
    assert forall i :: 0 <= i < |wire| ==> longer[i] == wire[i];
    if i :| 0 <= i < |wire| && Closes(wire[i], id) {
      assert Closes(longer[i], id);
    }
    if i :| 0 <= i < |wire| && Answers(wire[i], id) {
      assert Answers(longer[i], id);
    }
  }

  lemma {:induction false} MoreLost(wire: seq<Frame>, lost: set<RequestId>, id: RequestId)
    requires Ordered(wire, lost)
    ensures Ordered(wire, lost + {id})
  {
    if wire != [] {
      MoreLost(wire[..|wire| - 1], lost, id);
    }
  }

  /** A frame that is in its place keeps the wire in order and leaves other requests alone. */
  lemma WriteOrdered(s: State, f: Frame, written: bool)
    requires Ordered(s.wire, s.lost) && InPlace(s.wire, f, s.lost)
    ensures var n := Write(s, f, written); Ordered(n.wire, n.lost)
    ensures
      var n := Write(s, f, written);
      forall id :: id != f.id ==>
        && Numbers(n.wire, id) == Numbers(s.wire, id) && (id in n.lost <==> id in s.lost)
        && (HasDone(n.wire, id) <==> HasDone(s.wire, id)) && (HasRes(n.wire, id) <==> HasRes(s.wire, id))
  {
    if written {
      assert (s.wire + [f])[..|s.wire|] == s.wire;
    } else {
      MoreLost(s.wire, s.lost, f.id);
    }
    var n := Write(s, f, written);
    forall id | id != f.id
      ensures Numbers(n.wire, id) == Numbers(s.wire, id) && (HasDone(n.wire, id) <==> HasDone(s.wire, id))
      ensures HasRes(n.wire, id) <==> HasRes(s.wire, id)
    {
      Appended(s.wire, f, id);
    }
  }

  /** Steps that start none of the queued requests keep the order. */
  lemma SameOrder(s: State, n: State)
    requires InOrder(s) && n.queue == s.queue && n.accepted == s.accepted && n.started == s.started
    requires s.tasks.Keys <= n.tasks.Keys
    requires forall id :: id in s.queue && id !in s.tasks && id !in s.refused ==> id !in n.tasks && id !in n.refused
    requires forall id :: In(s, id, Over) ==> In(n, id, Over)
    requires n.worker == s.worker || (n.worker.None? && In(n, s.worker.value, Over))
    ensures InOrder(n)
  {
    forall i | 0 <= i < |n.queue| ensures Queued(n, i) {
      assert Queued(s, i) && s.queue[i] in s.queue;
    }
    forall i | 0 <= i < |n.started| ensures Progressed(n, i) {
      assert Progressed(s, i);
    }
  }

  /** Steps that change one task and write one frame of its own. */
  lemma TaskWrites(s: State, id: RequestId, t: Task, f: Frame, written: bool, worker: Option<RequestId>)
    requires Inv(s) && id in s.tasks && f.id == id && InPlace(s.wire, f, s.lost)
    requires !s.tasks[id].phase.Over?
    requires worker == if t.phase.Over? && s.worker == Some(id) then None else s.worker
    requires var n := Write(s.(tasks := s.tasks[id := t], worker := worker), f, written); TaskSound(n, id)
    ensures Inv(Write(s.(tasks := s.tasks[id := t], worker := worker), f, written))
  {
    var m := s.(tasks := s.tasks[id := t], worker := worker);
    var n := Write(m, f, written);
    WriteOrdered(m, f, written);
    forall other | other in n.tasks ensures TaskSound(n, other) {
      if other != id {
        assert TaskSound(s, other);
      }
    }
    SameOrder(s, n);
  }

  lemma SentSound(s: State, id: RequestId, written: bool)
    requires In(s, id, Running) && TaskSound(s, id)
    ensures InPlace(s.wire, Chunk(id, s.tasks[id].number), s.lost)
    ensures TaskSound(Do(s, Send(id, written)), id)
  {
    Appended(s.wire, Chunk(id, s.tasks[id].number), id);
  }

  lemma SendKeeps(s: State, id: RequestId, written: bool)
    requires Inv(s) && Enabled(s, Send(id, written))
    ensures Inv(Do(s, Send(id, written)))
  {
    var t := s.tasks[id];
    SentSound(s, id, written);
    TaskWrites(s, id, t.(number := t.number + 1), Chunk(id, t.number), written, s.worker);
  }

  lemma EndStreamKeeps(s: State, id: RequestId, written: bool)
    requires Inv(s) && Enabled(s, EndStream(id, written))
    ensures Inv(Do(s, EndStream(id, written)))
  {
    var t := s.tasks[id];
    assert TaskSound(s, id);
    Appended(s.wire, Done(id, t.number), id);
    TaskWrites(s, id, t.(phase := Ended), Done(id, t.number), written, s.worker);
  }

  lemma AnswerKeeps(s: State, id: RequestId, written: bool)
    requires Inv(s) && Enabled(s, Answer(id, written))
    ensures Inv(Do(s, Answer(id, written)))
  {
    var t := s.tasks[id];
    assert TaskSound(s, id);
    Appended(s.wire, Res(id), id);
    TaskWrites(s, id, t.(phase := Over), Res(id), written, if s.worker == Some(id) then None else s.worker);
  }

  lemma ReturnKeeps(s: State, id: RequestId)
    requires Inv(s) && Enabled(s, Return(id))
    ensures Inv(Do(s, Return(id)))
  {
    var n := Do(s, Return(id));
    forall other | other in n.tasks ensures TaskSound(n, other) {
      assert TaskSound(s, other);
    }
    SameOrder(s, n);
  }

  /** A task that begins has nothing on the wire. */
  lemma BeginsSound(s: State, n: State, id: RequestId, phase: Phase)
    requires Inv(s) && id !in s.tasks && id !in s.refused
    requires n.wire == s.wire && n.lost == s.lost && n.refused == s.refused
    requires !phase.Over? && !phase.Ended? && n.tasks == s.tasks[id := Task(0, phase)]
    ensures forall other :: other in n.tasks ==> TaskSound(n, other)
    ensures forall other :: other !in n.tasks && other !in n.refused ==> Silent(n, other) && other !in n.lost
    ensures n.tasks.Keys !! n.refused
  {
    assert Silent(s, id);
    forall other | other in n.tasks ensures TaskSound(n, other) {
      if other != id {
        assert TaskSound(s, other);
      }
    }
    forall other | other !in n.tasks && other !in n.refused ensures Silent(n, other) && other !in n.lost {
      assert Silent(s, other);
    }
  }

  lemma TakeKeeps(s: State)
    requires Inv(s) && Enabled(s, Take)
    ensures Inv(Do(s, Take))
  {
    var n, id := Do(s, Take), s.queue[0];
    assert Queued(s, 0);
    BeginsSound(s, n, id, Running);
    assert n.accepted == n.started + n.queue;
    forall i | 0 <= i < |n.queue| ensures Queued(n, i) {
      assert Queued(s, i + 1) && n.queue[i] == s.queue[i + 1];
    }
    forall i | 0 <= i < |n.started| ensures Progressed(n, i) {
      if i < |s.started| {
        assert Progressed(s, i);
      }
    }
  }

  lemma StartKeeps(s: State, id: RequestId, known: bool)
    requires Inv(s) && !Known(s, id)
    ensures Inv(Arrived(s, id, false, known, true))
  {
    var n := Arrived(s, id, false, known, true);
    BeginsSound(s, n, id, if known then Running else Returned);
    SameOrder(s, n);
  }

  lemma EnqueueKeeps(s: State, id: RequestId)
    requires Inv(s) && !Known(s, id) && |s.queue| < QUEUE_SIZE
    ensures Inv(Arrived(s, id, true, true, true))
  {
    var n := Arrived(s, id, true, true, true);
    assert n.accepted == n.started + n.queue;
    forall other | other in n.tasks ensures TaskSound(n, other) {
      assert TaskSound(s, other);
    }
    forall other | other !in n.tasks && other !in n.refused ensures Silent(n, other) && other !in n.lost {
      assert Silent(s, other);
    }
    forall i | 0 <= i < |n.queue| ensures Queued(n, i) {
      if i < |s.queue| {
        assert Queued(s, i);
      }
    }
    forall i | 0 <= i < |n.started| ensures Progressed(n, i) {
      assert Progressed(s, i);
    }
  }

  lemma RefuseKeeps(s: State, id: RequestId, written: bool)
    requires Inv(s) && !Known(s, id)
    ensures Inv(Write(s.(refused := s.refused + {id}), Res(id), written))
  {
    var m := s.(refused := s.refused + {id});
    var n := Write(m, Res(id), written);
    assert Silent(s, id);
    WriteOrdered(m, Res(id), written);
    forall other | other in n.tasks ensures TaskSound(n, other) {
      assert TaskSound(s, other);
    }
    forall other | other !in n.tasks && other !in n.refused ensures Silent(n, other) && other !in n.lost {
      assert Silent(s, other);
    }
    SameOrder(s, n);
  }

  lemma StepKeeps(s: State, step: Step)
    requires Inv(s) && Enabled(s, step)
    ensures Inv(Do(s, step))
  {
    match step {
      case Arrive(id, ordered, known, written) =>
        if !ordered {
          StartKeeps(s, id, known);
        } else if |s.queue| < QUEUE_SIZE {
          EnqueueKeeps(s, id);
        } else {
          RefuseKeeps(s, id, written);
        }
      case Take => TakeKeeps(s);
      case Send(id, written) => SendKeeps(s, id, written);
      case Return(id) => ReturnKeeps(s, id);
      case EndStream(id, written) => EndStreamKeeps(s, id, written);
      case Answer(id, written) => AnswerKeeps(s, id, written);
    }
  }
}
