/** Serving a download: the last chunk is given only after the node confirmed the digest of all. */
module Download {
  import opened Common
  import opened Digests

  // The server's part is download in server/src/modules/files/service.ts, the node's is postStream in
  // agent/cmd/gsm-agent/files.go.

  /** What the server tells the node: the digest of what it received, or that the download failed. */
  datatype Answer = Received(sha: Sha) | Failed

  /** The node's request: pending, answered with a result, or failed. */
  datatype Rpc = Pending | Confirmed | Refused

  datatype Stream = Open | Closed | Errored | Cancelled

  /** What a pull of the browser's stream waits for. */
  datatype Waiting = ForNothing | ForBytes | ForNode

  /** read is what was counted and hashed; delivered is what the browser was given. produced is what
      the node had hashed when it confirmed. failures and successes count the audit entries. */
  datatype State = State(read: seq<Byte>, delivered: seq<Byte>, held: Option<seq<Byte>>, stream: Stream,
                         waiting: Waiting, finished: bool, answer: Option<Answer>, rpc: Rpc,
                         produced: seq<Byte>, failures: nat, successes: nat)

  datatype Step =
    | StartPull
    | Chunk(bytes: seq<Byte>)
    | End
    | ReadFails
    | NodeConfirms(produced: seq<Byte>)
    | NodeFails
    | Resume
    | BrowserCancels

  const INITIAL := State([], [], None, Open, ForNothing, false, None, Pending, [], 0, 0)

  predicate Enabled(s: State, step: Step) {
    match step
    case StartPull => s.stream.Open? && s.waiting.ForNothing?
    case Chunk(_) => s.waiting.ForBytes?
    case End => s.waiting.ForBytes?
    case ReadFails => s.waiting.ForBytes?
    case NodeConfirms(produced) => s.rpc.Pending? && s.answer == Some(Received(Sha(produced)))
    case NodeFails => s.rpc.Pending?
    case Resume => s.waiting.ForNode? && !s.rpc.Pending?
    case BrowserCancels => s.stream.Open?
  }

  function Held(s: State): seq<Byte> { if s.held.Some? then s.held.value else [] }

  /** The node gets the first answer only. */
  function Tell(s: State, answer: Answer): State { if s.answer.None? then s.(answer := Some(answer)) else s }

  function Fail(s: State): State {
    if s.finished then s else Tell(s, Failed).(finished := true, failures := s.failures + 1)
  }

  /** A pull that ends in an error; a stream that is not open any more stays as it is. */
  function Thrown(s: State): State {
    Fail(s).(waiting := ForNothing, stream := if s.stream.Open? then Errored else s.stream)
  }

  /** The next chunk came: the one held back is given to the browser, which fails once it is gone. */
  function OnChunk(s: State, bytes: seq<Byte>, limit: nat): State {
    var counted := s.(read := s.read + bytes);
    if limit > 0 && |counted.read| > limit then Thrown(counted)
    else if s.held.Some? && !s.stream.Open? then Thrown(counted)
    else counted.(delivered := s.delivered + Held(s), held := Some(bytes), waiting := ForNothing)
  }

  function OnEnd(s: State): State { Tell(s, Received(Sha(s.read))).(waiting := ForNode) }

  function OnResume(s: State): State {
    if !s.rpc.Confirmed? then Thrown(s)
    else
      var done := s.(finished := true);
      if !s.stream.Open? then Thrown(done)
      else done.(delivered := s.delivered + Held(s), held := None, stream := Closed, waiting := ForNothing,
                 successes := s.successes + 1)
  }

  function Do(s: State, step: Step, limit: nat): State
    requires Enabled(s, step)
  {
    match step
    case StartPull => s.(waiting := ForBytes)
    case Chunk(bytes) => OnChunk(s, bytes, limit)
    case End => OnEnd(s)
    case ReadFails => Thrown(s)
    case NodeConfirms(produced) => s.(rpc := Confirmed, produced := produced)
    case NodeFails => s.(rpc := Refused)
    case Resume => OnResume(s)
    case BrowserCancels => Fail(s).(stream := Cancelled)
  }

  /** The variables download's closures share. */
  class Relay {
    const limit: nat
    var read: seq<Byte>
    var delivered: seq<Byte>
    var held: Option<seq<Byte>>
    var stream: Stream
    var finished: bool
    var answer: Option<Answer>
    var failures: nat
    var successes: nat

    ghost predicate Shows(s: State)
      reads this
    {
      && read == s.read && delivered == s.delivered && held == s.held && stream == s.stream
      && finished == s.finished && answer == s.answer && failures == s.failures && successes == s.successes
    }

    constructor (limit: nat)
      ensures this.limit == limit && Shows(INITIAL)
    {
      this.limit := limit;
      read, delivered, held, stream, finished := [], [], None, Open, false;
      answer, failures, successes := None, 0, 0;
    }

    method Complete(a: Answer)
      modifies `answer
      ensures answer == if old(answer).None? then Some(a) else old(answer)
    {
      if answer.None? {
        answer := Some(a);
      }
    }

    method FailWith(ghost s: State)
      requires Shows(s)
      modifies this
      ensures Shows(Fail(s))
    {
      if finished {
        return;
      }
      finished := true;
      Complete(Failed);
      failures := failures + 1;
    }

    method Throw(ghost s: State)
      requires Shows(s)
      modifies this
      ensures Shows(Thrown(s))
    {
      FailWith(s);
      if stream.Open? {
        stream := Errored;
      }
    }

    method PullChunk(ghost s: State, bytes: seq<Byte>)
      requires Shows(s)
      modifies this
      ensures Shows(OnChunk(s, bytes, limit))
    {
      read := read + bytes;
      ghost var counted := s.(read := s.read + bytes);
      if (limit > 0 && |read| > limit) || (held.Some? && !stream.Open?) {
        Throw(counted);
        return;
      }
      if held.Some? {
        delivered := delivered + held.value;
      }
      held := Some(bytes);
    }

    method PullEnd(ghost s: State)
      requires Shows(s)
      modifies this
      ensures Shows(OnEnd(s))
    {
      Complete(Received(Sha(read)));
    }

    /** The rest of a pull, once the node's request is settled. */
    method AfterRpc(ghost s: State, confirmed: bool)
      requires Shows(s) && confirmed == s.rpc.Confirmed?
      modifies this
      ensures Shows(OnResume(s))
    {
      if !confirmed {
        Throw(s);
        return;
      }
      finished := true;
      if !stream.Open? {
        Throw(s.(finished := true));
        return;
      }
      if held.Some? {
        delivered := delivered + held.value;
      }
      held := None;
      stream := Closed;
      successes := successes + 1;
    }

    method Cancel(ghost s: State)
      requires Shows(s) && stream.Open?
      modifies this
      ensures Shows(Fail(s).(stream := Cancelled))
    {
      FailWith(s);
      stream := Cancelled;
    }
  }

  // ---- what every run keeps ----

  function After(steps: seq<Step>, limit: nat): Option<State> {
    if steps == [] then Some(INITIAL)
    else
      match After(steps[..|steps| - 1], limit)
      case None => None
      case Some(s) =>
        var step := steps[|steps| - 1];
        if Enabled(s, step) then Some(Do(s, step, limit)) else None
  }

  ghost predicate Inv(s: State) {
    // The bytes: all of them while nothing failed, and never others than those that were read.
    && (!s.finished ==> s.stream.Open? && s.delivered + Held(s) == s.read)
    && s.delivered + Held(s) <= s.read
    && (!s.waiting.ForNothing? ==> s.delivered + Held(s) == s.read)
    && (s.stream.Closed? ==> s.delivered == s.read && s.held.None?)
    // The digest: what the node confirmed is all that was read.
    && (s.answer.Some? && s.answer.value.Received? ==>
          s.answer.value.sha == Sha(s.read) && !s.waiting.ForBytes? && (s.waiting.ForNode? || !s.stream.Open?))
    && (s.answer == Some(Failed) ==> s.finished)
    && (s.rpc.Confirmed? ==> s.answer == Some(Received(Sha(s.produced))))
    && (s.waiting.ForNode? && !s.finished ==> s.answer == Some(Received(Sha(s.read))))
    // The outcome: reported once.
    && s.failures + s.successes == (if s.finished then 1 else 0)
    && (s.successes == 1 <==> s.stream.Closed?)
    && (s.stream.Closed? ==> s.rpc.Confirmed? && s.waiting.ForNothing?)
    && (s.stream.Errored? ==> s.waiting.ForNothing?)
    && (s.stream.Open? <==> !s.finished)
    && (s.finished ==> s.answer.Some?)
  }

  lemma StepKeeps(s: State, step: Step, limit: nat)
    requires Inv(s) && Enabled(s, step)
    ensures Inv(Do(s, step, limit))
  {
    assert s.read + [] == s.read && s.delivered + [] == s.delivered;
    if step.Chunk? {
      assert s.read == s.delivered + Held(s) && s.read <= s.read + step.bytes;
      assert s.delivered + Held(s) + step.bytes == s.read + step.bytes;
    }
  }

  lemma {:induction false} RunKeeps(steps: seq<Step>, limit: nat)
    requires After(steps, limit).Some?
    ensures Inv(After(steps, limit).value)
  {
    if steps != [] {
      RunKeeps(steps[..|steps| - 1], limit);
      StepKeeps(After(steps[..|steps| - 1], limit).value, steps[|steps| - 1], limit);
    }
  }

  /** At every moment of a download: what the browser was given and what is held back are what was read
      from the node, as long as nothing failed; a stream that closed gave the browser exactly what the
      node produced; before that, the browser lacks what is held; and one outcome at most is reported. */
  lemma {:induction false} DownloadSafe(steps: seq<Step>, limit: nat)
    requires After(steps, limit).Some?
    ensures
      var s := After(steps, limit).value;
      && s.delivered <= s.read
      && (s.failures == 0 && !s.stream.Closed? ==> s.delivered + Held(s) == s.read)
      && (s.stream.Closed? ==> s.rpc.Confirmed? && s.delivered == s.produced == s.read)
      && (!s.stream.Closed? ==> |s.delivered| + |Held(s)| <= |s.read|)
      && s.failures + s.successes <= 1
      && (s.successes == 1 <==> s.stream.Closed?)
  {
    RunKeeps(steps, limit);
  }

  // ---- what the browser lacks ----

  /** The last chunk the node sent, counted or not. */
  function LastChunk(steps: seq<Step>): Option<seq<Byte>> {
    if steps == [] then None
    else if steps[|steps| - 1].Chunk? then Some(steps[|steps| - 1].bytes)
    else LastChunk(steps[..|steps| - 1])
  }

  /** Before the stream closes, what the browser lacks of the bytes read is what is held and, if that is
      not the last chunk, the last chunk, at which the download failed. */
  ghost predicate Missing(s: State, last: Option<seq<Byte>>) {
    || (s.held == last && s.read == s.delivered + Held(s) && (last.None? ==> s.read == []))
    || (&& last.Some? && s.waiting.ForNothing? && !s.stream.Open?
        && s.read == s.delivered + Held(s) + last.value)
  }

  lemma ChunkMissing(s: State, bytes: seq<Byte>, limit: nat)
    requires s.waiting.ForBytes? && !s.stream.Closed? && s.read == s.delivered + Held(s)
    ensures Missing(OnChunk(s, bytes, limit), Some(bytes))
  {
  }

  lemma StepMissing(s: State, step: Step, limit: nat, last: Option<seq<Byte>>)
    requires Inv(s) && Enabled(s, step) && !Do(s, step, limit).stream.Closed? && Missing(s, last)
    ensures Missing(Do(s, step, limit), if step.Chunk? then Some(step.bytes) else last)
  {
    if step.Chunk? {
      ChunkMissing(s, step.bytes, limit);
    }
  }

  lemma {:induction false} RunMissing(steps: seq<Step>, limit: nat)
    requires After(steps, limit).Some? && !After(steps, limit).value.stream.Closed?
    ensures Missing(After(steps, limit).value, LastChunk(steps))
  {
    if steps != [] {
      var before := steps[..|steps| - 1];
      RunKeeps(before, limit);
      RunMissing(before, limit);
      StepMissing(After(before, limit).value, steps[|steps| - 1], limit, LastChunk(before));
    }
  }

  /** The browser holds the whole of a body that is not empty, although the node has not confirmed it,
      exactly when the last chunk was empty and nothing is held either: whatever the node has sent and
      whatever fails. */
  lemma {:induction false} WholeUnconfirmedIff(steps: seq<Step>, limit: nat)
    requires After(steps, limit).Some? && !After(steps, limit).value.stream.Closed?
    requires After(steps, limit).value.read != []
    ensures
      var s := After(steps, limit).value;
      s.delivered == s.read <==> LastChunk(steps) == Some([]) && Held(s) == []
  {
    RunMissing(steps, limit);
    var s := After(steps, limit).value;
    assert s.delivered + [] == s.delivered;
  }

  lemma {:induction false} OneMore(steps: seq<Step>, step: Step, limit: nat)
    requires After(steps, limit).Some? && Enabled(After(steps, limit).value, step)
    ensures After(steps + [step], limit) == Some(Do(After(steps, limit).value, step, limit))
  {
    assert (steps + [step])[..|steps|] == steps;
  }

  lemma FirstChunk(bytes: seq<Byte>, limit: nat)
    requires limit > 0 ==> |bytes| <= limit
    ensures OnChunk(INITIAL.(waiting := ForBytes), bytes, limit) == INITIAL.(read := bytes, held := Some(bytes))
  {
    assert INITIAL.read + bytes == bytes && INITIAL.delivered + Held(INITIAL) == [];
  }

  lemma EmptyChunk(bytes: seq<Byte>, limit: nat)
    requires limit > 0 ==> |bytes| <= limit
    ensures OnChunk(INITIAL.(read := bytes, held := Some(bytes), waiting := ForBytes), [], limit) ==
            INITIAL.(read := bytes, delivered := bytes, held := Some([]))
  {
    assert bytes + [] == bytes && [] + bytes == bytes;
  }

  /** Such a run: the node sends all the bytes, then an empty chunk, and confirms nothing. */
  lemma EmptyChunkGivesAll(bytes: seq<Byte>, limit: nat) returns (steps: seq<Step>)
    requires limit > 0 ==> |bytes| <= limit
    ensures steps == [StartPull, Chunk(bytes), StartPull, Chunk([])]
    ensures After(steps, limit) == Some(INITIAL.(read := bytes, delivered := bytes, held := Some([])))
  {
    steps := [];
    OneMore(steps, StartPull, limit);
    steps := steps + [StartPull];
    OneMore(steps, Chunk(bytes), limit);
    FirstChunk(bytes, limit);
    steps := steps + [Chunk(bytes)];
    OneMore(steps, StartPull, limit);
    steps := steps + [StartPull];
    OneMore(steps, Chunk([]), limit);
    EmptyChunk(bytes, limit);
    steps := steps + [Chunk([])];
  }

  ghost predicate NoEmptyChunks(steps: seq<Step>) {
    forall i :: 0 <= i < |steps| && steps[i].Chunk? ==> steps[i].bytes != []
  }

  lemma {:induction false} LastIsNotEmpty(steps: seq<Step>)
    requires NoEmptyChunks(steps)
    ensures LastChunk(steps) != Some([])
  {
    if steps != [] {
      LastIsNotEmpty(steps[..|steps| - 1]);
    }
  }

  /** From a node that sends no empty chunks: of a body that is not empty the browser lacks the last bytes
      until the stream closes. */
  lemma {:induction false} NeverWholeUnconfirmed(steps: seq<Step>, limit: nat)
    requires After(steps, limit).Some? && NoEmptyChunks(steps)
    ensures
      var s := After(steps, limit).value;
      s.read != [] && !s.stream.Closed? ==> |s.delivered| < |s.read|
  {
    var s := After(steps, limit).value;
    if s.read != [] && !s.stream.Closed? {
      WholeUnconfirmedIff(steps, limit);
      LastIsNotEmpty(steps);
      RunKeeps(steps, limit);
    }
  }

  // ---- how a download ends ----

  /** Every way a stream ends is reported, exactly once, and the node is told how its body was received. */
  lemma {:induction false} EveryEndIsReported(steps: seq<Step>, limit: nat)
    requires After(steps, limit).Some?
    ensures
      var s := After(steps, limit).value;
      && (s.stream.Open? ==> s.failures == 0 && s.successes == 0)
      && (!s.stream.Open? ==> s.failures + s.successes == 1 && s.answer.Some?)
  {
    RunKeeps(steps, limit);
  }

  /** A pull whose read fails, whose chunk is over the limit, or which waits until the node's request is
      settled ends the stream. */
  lemma PullEnds(steps: seq<Step>, step: Step, limit: nat)
    requires After(steps, limit).Some? && Enabled(After(steps, limit).value, step)
    requires
      || step.ReadFails? || step.Resume?
      || (step.Chunk? && limit > 0 && |After(steps, limit).value.read + step.bytes| > limit)
    ensures !Do(After(steps, limit).value, step, limit).stream.Open?
  {
    RunKeeps(steps, limit);
  }

  /** Nothing comes after the end: no byte, no other outcome, and the node is told nothing else. */
  lemma EndStays(steps: seq<Step>, step: Step, limit: nat)
    requires After(steps, limit).Some? && Enabled(After(steps, limit).value, step)
    requires !After(steps, limit).value.stream.Open?
    ensures
      var s, n := After(steps, limit).value, Do(After(steps, limit).value, step, limit);
      && n.stream == s.stream && n.delivered == s.delivered && n.answer == s.answer
      && n.failures == s.failures && n.successes == s.successes
  {
    RunKeeps(steps, limit);
  }

  /** Something went wrong: reading, the node's request, or the browser left. */
  predicate Trouble(step: Step) { step.ReadFails? || step.NodeFails? || step.BrowserCancels? }

  ghost predicate Untroubled(steps: seq<Step>) { forall i :: 0 <= i < |steps| ==> !Trouble(steps[i]) }

  lemma UntroubledStep(s: State, step: Step, limit: nat)
    requires Inv(s) && Enabled(s, step) && !Trouble(step)
    requires !s.rpc.Refused? && s.failures == 0 && (limit == 0 || |s.read| <= limit)
    ensures
      var n := Do(s, step, limit);
      && !n.rpc.Refused? && |s.read| <= |n.read|
      && (n.failures == 0 <==> limit == 0 || |n.read| <= limit)
  {
  }

  lemma {:induction false} ReadGrows(steps: seq<Step>, limit: nat)
    requires steps != [] && After(steps, limit).Some?
    ensures
      var before := After(steps[..|steps| - 1], limit);
      && before.Some? && |before.value.read| <= |After(steps, limit).value.read|
      && before.value.failures <= After(steps, limit).value.failures
  {
  }

  lemma {:induction false} UntroubledRun(steps: seq<Step>, limit: nat)
    requires After(steps, limit).Some? && Untroubled(steps)
    ensures
      var s := After(steps, limit).value;
      !s.rpc.Refused? && (s.failures == 0 <==> limit == 0 || |s.read| <= limit)
  {
    if steps != [] {
      var before := steps[..|steps| - 1];
      UntroubledRun(before, limit);
      RunKeeps(before, limit);
      RunKeeps(steps, limit);
      ReadGrows(steps, limit);
      assert !Trouble(steps[|steps| - 1]);
      var s := After(before, limit).value;
      if s.failures == 0 {
        UntroubledStep(s, steps[|steps| - 1], limit);
      }
    }
  }

  /** When no read fails, the node's request does not fail and the browser stays, a download fails exactly
      when more came than the limit allows. */
  lemma {:induction false} FailsExactlyOverLimit(steps: seq<Step>, limit: nat)
    requires After(steps, limit).Some? && Untroubled(steps)
    ensures
      var s := After(steps, limit).value;
      s.failures == (if limit > 0 && |s.read| > limit then 1 else 0)
  {
    UntroubledRun(steps, limit);
    RunKeeps(steps, limit);
  }

  lemma WithinStep(s: State, step: Step, limit: nat)
    requires limit > 0 && Inv(s) && Enabled(s, step)
    requires |s.delivered| + |Held(s)| <= limit && (s.failures == 0 ==> |s.read| <= limit)
    ensures
      var n := Do(s, step, limit);
      |n.delivered| + |Held(n)| <= limit && (n.failures == 0 ==> |n.read| <= limit)
  {
    if step.Chunk? {
      assert |s.read + step.bytes| == |s.read| + |step.bytes|;
      assert |s.delivered + Held(s)| == |s.delivered| + |Held(s)|;
    }
  }

  /** The browser is never given more than the limit, whatever the node sends. */
  lemma {:induction false} NeverOverLimit(steps: seq<Step>, limit: nat)
    requires limit > 0 && After(steps, limit).Some?
    ensures
      var s := After(steps, limit).value;
      |s.delivered| + |Held(s)| <= limit && (s.failures == 0 ==> |s.read| <= limit)
  {
    if steps != [] {
      var before := steps[..|steps| - 1];
      RunKeeps(before, limit);
      NeverOverLimit(before, limit);
      WithinStep(After(before, limit).value, steps[|steps| - 1], limit);
    }
  }

  // ---- a download that nothing disturbs ----

  /** The pulls that each get one of the chunks. */
  function Pulls(chunks: seq<seq<Byte>>): seq<Step> {
    if chunks == [] then [] else Pulls(chunks[..|chunks| - 1]) + [StartPull] + [Chunk(chunks[|chunks| - 1])]
  }

  /** All chunks but the last were given to the browser, and the last one is held. */
  function Pulled(chunks: seq<seq<Byte>>): State {
    if chunks == [] then INITIAL
    else INITIAL.(read := Flat(chunks), delivered := Flat(chunks[..|chunks| - 1]), held := Some(chunks[|chunks| - 1]))
  }

  lemma PulledNext(chunks: seq<seq<Byte>>, limit: nat)
    requires chunks != [] && (limit == 0 || |Flat(chunks)| <= limit)
    ensures OnChunk(Pulled(chunks[..|chunks| - 1]).(waiting := ForBytes), chunks[|chunks| - 1], limit) == Pulled(chunks)
  {
    var before := chunks[..|chunks| - 1];
    if before != [] {
      assert Flat(before) == Flat(before[..|before| - 1]) + before[|before| - 1];
    }
  }

  lemma {:induction false} PullsRun(chunks: seq<seq<Byte>>, limit: nat)
    requires limit == 0 || |Flat(chunks)| <= limit
    ensures After(Pulls(chunks), limit) == Some(Pulled(chunks))
  {
    if chunks != [] {
      var before, bytes := chunks[..|chunks| - 1], chunks[|chunks| - 1];
      PullsRun(before, limit);
      OneMore(Pulls(before), StartPull, limit);
      OneMore(Pulls(before) + [StartPull], Chunk(bytes), limit);
      PulledNext(chunks, limit);
    }
  }

  /** What is left once all chunks came. */
  lemma {:induction false} EndRuns(steps: seq<Step>, limit: nat)
    requires After(steps, limit).Some?
    requires
      var s := After(steps, limit).value;
      && s.stream.Open? && s.waiting.ForNothing? && s.answer.None? && s.rpc.Pending?
      && s.delivered + Held(s) == s.read && s.failures == 0 && s.successes == 0
    ensures
      var bytes := After(steps, limit).value.read;
      var last := After(steps + [StartPull] + [End] + [NodeConfirms(bytes)] + [Resume], limit);
      && last.Some? && last.value.stream.Closed? && last.value.delivered == bytes
      && last.value.successes == 1 && last.value.failures == 0
  {
    var bytes := After(steps, limit).value.read;
    OneMore(steps, StartPull, limit);
    OneMore(steps + [StartPull], End, limit);
    OneMore(steps + [StartPull] + [End], NodeConfirms(bytes), limit);
    OneMore(steps + [StartPull] + [End] + [NodeConfirms(bytes)], Resume, limit);
  }

  /** A body within the limit, in any chunks, from a node that confirms it: the browser is given exactly
      that body, its stream closes, and the download counts as a success. */
  lemma {:induction false} UndisturbedSucceeds(chunks: seq<seq<Byte>>, limit: nat)
    requires limit == 0 || |Flat(chunks)| <= limit
    ensures
      var bytes := Flat(chunks);
      var last := After(Pulls(chunks) + [StartPull] + [End] + [NodeConfirms(bytes)] + [Resume], limit);
      && last.Some? && last.value.stream.Closed? && last.value.delivered == bytes
      && last.value.successes == 1 && last.value.failures == 0
  {
    PullsRun(chunks, limit);
    assert Pulled(chunks).delivered + Held(Pulled(chunks)) == Pulled(chunks).read == Flat(chunks);
    EndRuns(Pulls(chunks), limit);
  }
}
