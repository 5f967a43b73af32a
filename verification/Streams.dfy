/** The agent's side of a connection (agent/internal/transport/client.go): requests served side by side
    or in order, their streams and their answers, on one socket. */
module Streams {
  import opened Common

  type RequestId = string

  const QUEUE_SIZE := 1024

  datatype Frame =
    | Chunk(id: RequestId, number: nat)
    | Done(id: RequestId, number: nat)
    | Res(id: RequestId)

  /** A request's handler runs, has returned, and has had its stream closed; answered ones are Over. */
  datatype Phase = Running | Returned | Ended | Over

  datatype Task = Task(number: nat, phase: Phase)

  /** accepted and started list the ordered requests that were queued and those the worker took. lost
      holds the requests for which a frame could not be written. */
  datatype State = State(tasks: map<RequestId, Task>, queue: seq<RequestId>, worker: Option<RequestId>,
                         accepted: seq<RequestId>, started: seq<RequestId>, refused: set<RequestId>,
                         wire: seq<Frame>, lost: set<RequestId>)

  const EMPTY := State(map[], [], None, [], [], {}, [], {})

  datatype Step =
    | Arrive(id: RequestId, ordered: bool, known: bool, written: bool)
    | Take
    | Send(id: RequestId, written: bool)
    | Return(id: RequestId)
    | EndStream(id: RequestId, written: bool)
    | Answer(id: RequestId, written: bool)

  predicate Known(s: State, id: RequestId) { id in s.tasks || id in s.queue || id in s.refused }

  predicate In(s: State, id: RequestId, phase: Phase) { id in s.tasks && s.tasks[id].phase == phase }

  /** Request ids do not repeat, and a handler stops sending before it returns. */
  predicate Enabled(s: State, step: Step) {
    match step
    case Arrive(id, _, _, _) => !Known(s, id)
    case Take => s.worker.None? && s.queue != []
    case Send(id, _) => In(s, id, Running)
    case Return(id) => In(s, id, Running)
    case EndStream(id, _) => In(s, id, Returned) && s.tasks[id].number > 0
    case Answer(id, _) => In(s, id, Ended) || (In(s, id, Returned) && s.tasks[id].number == 0)
  }

  function Write(s: State, frame: Frame, written: bool): State {
    if written then s.(wire := s.wire + [frame]) else s.(lost := s.lost + {frame.id})
  }

  function Arrived(s: State, id: RequestId, ordered: bool, known: bool, written: bool): State {
    if !ordered then s.(tasks := s.tasks[id := Task(0, if known then Running else Returned)])
    else if |s.queue| < QUEUE_SIZE then s.(queue := s.queue + [id], accepted := s.accepted + [id])
    else Write(s.(refused := s.refused + {id}), Res(id), written)
  }

  function Do(s: State, step: Step): State
    requires Enabled(s, step)
  {
    match step
    case Arrive(id, ordered, known, written) => Arrived(s, id, ordered, known, written)
    case Take =>
      var id := s.queue[0];
      s.(queue := s.queue[1..], worker := Some(id), started := s.started + [id],
         tasks := s.tasks[id := Task(0, Running)])
    case Send(id, written) =>
      var t := s.tasks[id];
      Write(s.(tasks := s.tasks[id := t.(number := t.number + 1)]), Chunk(id, t.number), written)
    case Return(id) => s.(tasks := s.tasks[id := s.tasks[id].(phase := Returned)])
    case EndStream(id, written) =>
      var t := s.tasks[id];
      Write(s.(tasks := s.tasks[id := t.(phase := Ended)]), Done(id, t.number), written)
    case Answer(id, written) =>
      Write(s.(tasks := s.tasks[id := s.tasks[id].(phase := Over)],
               worker := if s.worker == Some(id) then None else s.worker), Res(id), written)
  }

  /** One connection's state, as its goroutines change it. */
  class Connection {
    var tasks: map<RequestId, Task>
    var queue: seq<RequestId>
    var worker: Option<RequestId>
    ghost var accepted: seq<RequestId>
    ghost var started: seq<RequestId>
    ghost var refused: set<RequestId>
    var wire: seq<Frame>
    ghost var lost: set<RequestId>

    ghost function View(): State
      reads this
    {
      State(tasks, queue, worker, accepted, started, refused, wire, lost)
    }

    constructor ()
      ensures View() == EMPTY
    {
      tasks, queue, worker, wire := map[], [], None, [];
      accepted, started, refused, lost := [], [], {}, {};
    }

    method SendOn(frame: Frame, written: bool)
      modifies `wire, `lost
      ensures View() == Write(old(View()), frame, written)
    {
      if written {
        wire := wire + [frame];
      } else {
        lost := lost + {frame.id};
      }
    }

    method OnRequest(id: RequestId, ordered: bool, known: bool, written: bool)
      requires Enabled(View(), Arrive(id, ordered, known, written))
      modifies this
      ensures View() == Do(old(View()), Arrive(id, ordered, known, written))
    {
      if !ordered {
        tasks := tasks[id := Task(0, if known then Running else Returned)];
      } else if |queue| < QUEUE_SIZE {
        queue := queue + [id];
        accepted := accepted + [id];
      } else {
        refused := refused + {id};
        SendOn(Res(id), written);
      }
    }

    method WorkerTakes() returns (id: RequestId)
      requires Enabled(View(), Take)
      modifies this
      ensures View() == Do(old(View()), Take) && id == old(queue)[0]
    {
      id := queue[0];
      queue, worker, started := queue[1..], Some(id), started + [id];
      tasks := tasks[id := Task(0, Running)];
    }

    method Send(id: RequestId, written: bool)
      requires Enabled(View(), Step.Send(id, written))
      modifies this
      ensures View() == Do(old(View()), Step.Send(id, written))
    {
      var number := tasks[id].number;
      tasks := tasks[id := tasks[id].(number := number + 1)];
      SendOn(Chunk(id, number), written);
    }

    /** The end of serve: the handler has returned; a stream it opened is closed before the answer. */
    method Finish(id: RequestId, closed: bool, answered: bool)
      requires Enabled(View(), Return(id))
      modifies this
      ensures
        var s := Do(old(View()), Return(id));
        View() == Do(if s.tasks[id].number > 0 then Do(s, EndStream(id, closed)) else s, Answer(id, answered))
    {
      var t := tasks[id];
      tasks := tasks[id := t.(phase := Returned)];
      if t.number > 0 {
        tasks := tasks[id := t.(phase := Ended)];
        SendOn(Done(id, t.number), closed);
      }
      tasks := tasks[id := tasks[id].(phase := Over)];
      if worker == Some(id) {
        worker := None;
      }
      SendOn(Res(id), answered);
    }
  }
}
