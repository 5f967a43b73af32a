/** An upload from the relay to a file on the node (FS.Receive in agent/internal/instfs/archive.go and
    fs.upload in agent/cmd/gsm-agent/files.go). */
module Upload {
  import opened Common
  import opened Digests
  import opened Transfers

  datatype Node = Dir | File(bytes: seq<Byte>)

  // ---- writing the file on the node ----

  /** What reading the body gives: its chunks, and whether it ended without an error. */
  datatype Body = Body(chunks: seq<seq<Byte>>, ok: bool)

  /** Which calls succeed: making the target's folder, creating and closing the temporary file, renaming. */
  datatype Calls = Calls(folder: bool, created: bool, closed: bool, renamed: bool)

  predicate MayWrite(target: Option<Node>, overwrite: bool) {
    match target
    case None => true
    case Some(Dir) => false
    case Some(File(_)) => overwrite
  }

  class FS {
    var files: map<string, Node>

    /** The bytes go to a temporary file beside the target, which a rename then replaces; that file is
        removed on every other way out. calls says which calls succeed. */
    method Receive(target: string, tmp: string, size: nat, overwrite: bool, body: Body, confirm: Sha -> bool,
                   calls: Calls) returns (r: Option<Sha>)
      requires tmp !in files && tmp != target
      modifies this
      ensures r.Some? <==>
        && MayWrite(if target in old(files) then Some(old(files)[target]) else None, overwrite)
        && calls.folder && calls.created && body.ok && |Flat(body.chunks)| == size && confirm(Sha(Flat(body.chunks)))
        && calls.closed && calls.renamed
      ensures r.None? ==> files == old(files)
      ensures r.Some? ==> files == old(files)[target := File(Flat(body.chunks))] && r.value == Sha(Flat(body.chunks))
    {
      if target in files {
        if files[target].Dir? || !overwrite {
          return None;
        }
      }
      if !calls.folder || !calls.created {
        return None;
      }
      ghost var before := files;
      files := files[tmp := File([])];
      var n := 0;
      var hashed: seq<Byte> := [];
      for i := 0 to |body.chunks|
        invariant n == |hashed| && hashed == Flat(body.chunks[..i])
        invariant files == before[tmp := File(hashed)]
      {
        assert body.chunks[..i + 1][..i] == body.chunks[..i];
        n := n + |body.chunks[i]|;
        hashed := hashed + body.chunks[i];
        files := files[tmp := File(hashed)];
      }
      assert body.chunks[..|body.chunks|] == body.chunks;
      if body.ok && calls.closed && n == size && confirm(Sha(hashed)) && calls.renamed {
        files := files[target := files[tmp]];
        r := Some(Sha(hashed));
      } else {
        r := None;
      }
      files := files - {tmp};
    }
  }

  // ---- the whole upload ----

  /** The agent's side: it fetches the stream, reads what the network gives it, asks for the digest. */
  datatype Agent =
    | Idle
    | Reading(got: seq<Byte>)
    | Asking(got: seq<Byte>)
    | Confirmed(got: seq<Byte>)
    | Succeeded(got: seq<Byte>)
    | GaveUp

  /** One upload: its transfer on the relay, the agent, the target, and what the browser's body gave. */
  datatype State = State(t: Transfer, agent: Agent, target: Option<Node>, taken: seq<Byte>)

  datatype Step =
    | Pull(reading: SourceRead)
    | NodeStopped
    | Withdraw
    | Fetch(overwrite: bool)
    | Got(bytes: seq<Byte>)
    | BodyEnds
    | Answered(sha: Sha)
    | Rename
    | GiveUp

  predicate Enabled(s: State, step: Step) {
    s.t.Out? &&
    match step
    case Pull(_) => s.t.stream.Streaming?
    case NodeStopped => s.t.stream.Streaming?
    case Withdraw => true
    case Fetch(_) => !s.t.claimed && s.agent.Idle?
    case Got(_) => s.agent.Reading?
    case BodyEnds => s.agent.Reading?
    case Answered(sha) => s.agent.Asking? && s.t.digest == Resolved(sha)
    case Rename => s.agent.Confirmed?
    case GiveUp => !s.agent.Succeeded?
  }

  /** The network may give the agent any bytes, in any chunks, and end the body anywhere. */
  function Do(s: State, step: Step): State
    requires Enabled(s, step)
  {
    match step
    case Pull(reading) =>
      s.(t := Pulled(s.t, reading), taken := if reading.Chunk? then s.taken + reading.bytes else s.taken)
    case NodeStopped => s.(t := Fail(s.t))
    case Withdraw => s.(t := Withdrawn(s.t))
    case Fetch(overwrite) => s.(t := Claim(s.t), agent := if MayWrite(s.target, overwrite) then Reading([]) else GaveUp)
    case Got(bytes) => s.(agent := Reading(s.agent.got + bytes))
    case BodyEnds => s.(agent := if |s.agent.got| == s.t.size then Asking(s.agent.got) else GaveUp)
    case Answered(sha) => s.(agent := if sha == Sha(s.agent.got) then Confirmed(s.agent.got) else GaveUp)
    case Rename => s.(agent := Succeeded(s.agent.got), target := Some(File(s.agent.got)))
    case GiveUp => s.(agent := GaveUp)
  }

  function After(s: State, steps: seq<Step>): Option<State> {
    if steps == [] then Some(s)
    else
      match After(s, steps[..|steps| - 1])
      case None => None
      case Some(m) =>
        var step := steps[|steps| - 1];
        if Enabled(m, step) then Some(Do(m, step)) else None
  }

  function Initial(nodeId: nat, size: nat, target: Option<Node>): State {
    State(Out(nodeId, size, false, Pending, [], [], Unserved), Idle, target, [])
  }

  ghost predicate Inv(s: State, size: nat, before: Option<Node>) {
    && s.t.Out? && Sound(s.t) && s.t.size == size
    && s.t.relayed <= s.taken && (s.t.stream.Failed? || s.taken == s.t.relayed)
    && (s.agent.Confirmed? || s.agent.Succeeded? ==> s.t.digest == Resolved(Sha(s.agent.got)))
    && s.target == if s.agent.Succeeded? then Some(File(s.agent.got)) else before
  }

  lemma StepKeeps(s: State, step: Step, size: nat, before: Option<Node>)
    requires Inv(s, size, before) && Enabled(s, step)
    ensures Inv(Do(s, step), size, before)
  {
    if step.Pull? {
      PulledSound(s.t, step.reading);
    } else if step.Withdraw? {
      WithdrawnSound(s.t);
    } else if step.Fetch? {
      ClaimSound(s.t);
    }
  }

  lemma {:induction false} RunKeeps(nodeId: nat, size: nat, before: Option<Node>, steps: seq<Step>)
    requires After(Initial(nodeId, size, before), steps).Some?
    ensures Inv(After(Initial(nodeId, size, before), steps).value, size, before)
  {
    if steps != [] {
      RunKeeps(nodeId, size, before, steps[..|steps| - 1]);
      StepKeeps(After(Initial(nodeId, size, before), steps[..|steps| - 1]).value, steps[|steps| - 1], size, before);
    }
  }

  /** Whatever the network gives the agent: the target is replaced only by exactly the announced number
      of bytes, which are those the server read from the browser, and it is otherwise unchanged. */
  lemma {:induction false} TargetIsWhatWasSent(nodeId: nat, size: nat, before: Option<Node>, steps: seq<Step>)
    requires After(Initial(nodeId, size, before), steps).Some?
    ensures
      var s := After(Initial(nodeId, size, before), steps).value;
      if s.agent.Succeeded? then s.target == Some(File(s.taken)) && |s.taken| == size
      else s.target == before
  {
    RunKeeps(nodeId, size, before, steps);
  }

  /** A folder is never replaced, and a file only by an upload that may overwrite it. */
  lemma {:induction false} KeptUnlessAllowed(nodeId: nat, size: nat, before: Option<Node>, steps: seq<Step>)
    requires After(Initial(nodeId, size, before), steps).Some? && before.Some?
    requires before.value.File? ==> forall i :: 0 <= i < |steps| ==> steps[i] != Fetch(true)
    ensures
      var s := After(Initial(nodeId, size, before), steps).value;
      s.target == before && (s.agent.Idle? || s.agent.GaveUp?)
  {
    if steps != [] {
      var n := |steps| - 1;
      KeptUnlessAllowed(nodeId, size, before, steps[..n]);
      assert steps[n].Fetch? && before.value.File? ==> !steps[n].overwrite;
    }
  }

  // ---- an upload that nothing disturbs ----

  lemma {:induction false} OneMore(s: State, steps: seq<Step>, step: Step)
    requires After(s, steps).Some? && Enabled(After(s, steps).value, step)
    ensures After(s, steps + [step]) == Some(Do(After(s, steps).value, step))
  {
    assert (steps + [step])[..|steps|] == steps;
  }

  /** The steps that read the chunks from the browser, and that read the chunks off the network. */
  function Pulls(chunks: seq<seq<Byte>>): seq<Step> {
    if chunks == [] then [] else Pulls(chunks[..|chunks| - 1]) + [Step.Pull(Chunk(chunks[|chunks| - 1]))]
  }

  function Gots(chunks: seq<seq<Byte>>): seq<Step> {
    if chunks == [] then [] else Gots(chunks[..|chunks| - 1]) + [Got(chunks[|chunks| - 1])]
  }

  /** The relay once the node has asked for a file of size bytes and was given those. */
  function Relaying(nodeId: nat, size: nat, given: seq<Byte>): Transfer {
    var t := Out(nodeId, size, true, Pending, given, given, Streaming);
    if |given| == size then Finish(t) else t
  }

  /** Nothing comes after the last byte: the browser's last chunk is not empty. */
  predicate EndsWithBytes(chunks: seq<seq<Byte>>) { chunks != [] ==> chunks[|chunks| - 1] != [] }

  lemma {:induction false} FlatPart<T>(parts: seq<seq<T>>, i: nat)
    requires i <= |parts|
    ensures |Flat(parts[..i])| <= |Flat(parts)|
  {
    if i < |parts| {
      FlatPart(parts[..|parts| - 1], i);
      assert parts[..|parts| - 1][..i] == parts[..i];
    } else {
      assert parts[..i] == parts;
    }
  }

  lemma {:induction false} PullsRun(nodeId: nat, size: nat, before: Option<Node>, overwrite: bool,
                                    chunks: seq<seq<Byte>>)
    requires (before.None? || (before.value.File? && overwrite)) && |Flat(chunks)| <= size
    requires chunks != [] ==> |Flat(chunks[..|chunks| - 1])| < size
    ensures After(Initial(nodeId, size, before), [Fetch(overwrite)] + Pulls(chunks)) ==
            Some(State(Relaying(nodeId, size, Flat(chunks)), Reading([]), before, Flat(chunks)))
  {
    var s0 := Initial(nodeId, size, before);
    if chunks == [] {
      OneMore(s0, [], Fetch(overwrite));
      assert [] + [Fetch(overwrite)] == [Fetch(overwrite)] + Pulls(chunks);
    } else {
      var n := |chunks| - 1;
      if n > 0 {
        FlatPart(chunks[..n], n - 1);
      }
      PullsRun(nodeId, size, before, overwrite, chunks[..n]);
      OneMore(s0, [Fetch(overwrite)] + Pulls(chunks[..n]), Step.Pull(Chunk(chunks[n])));
      assert [Fetch(overwrite)] + Pulls(chunks) == ([Fetch(overwrite)] + Pulls(chunks[..n])) + [Step.Pull(Chunk(chunks[n]))];
    }
  }

  lemma {:induction false} GotsRun(s0: State, first: seq<Step>, chunks: seq<seq<Byte>>)
    requires After(s0, first).Some? && After(s0, first).value.t.Out? && After(s0, first).value.agent == Reading([])
    ensures After(s0, first + Gots(chunks)) == Some(After(s0, first).value.(agent := Reading(Flat(chunks))))
  {
    if chunks == [] {
      assert first + Gots(chunks) == first;
    } else {
      var n := |chunks| - 1;
      GotsRun(s0, first, chunks[..n]);
      OneMore(s0, first + Gots(chunks[..n]), Got(chunks[n]));
      assert first + Gots(chunks) == (first + Gots(chunks[..n])) + [Got(chunks[n])];
    }
  }

  lemma {:induction false} EndRuns(s0: State, steps: seq<Step>, bytes: seq<Byte>)
    requires After(s0, steps).Some?
    requires
      var s := After(s0, steps).value;
      s.t.Out? && s.t.size == |bytes| && s.t.digest == Resolved(Sha(bytes)) && s.agent == Reading(bytes)
    ensures
      var last := After(s0, steps + [BodyEnds] + [Answered(Sha(bytes))] + [Rename]);
      last.Some? && last.value.target == Some(File(bytes))
  {
    OneMore(s0, steps, BodyEnds);
    OneMore(s0, steps + [BodyEnds], Answered(Sha(bytes)));
    OneMore(s0, steps + [BodyEnds] + [Answered(Sha(bytes))], Rename);
  }

  /** An upload of any file, empty or not, that nothing disturbs makes the target, or replaces it where that
      is allowed, however the browser's body and the network cut the bytes into chunks. */
  lemma {:induction false} UndisturbedSucceeds(nodeId: nat, sent: seq<seq<Byte>>, received: seq<seq<Byte>>,
                                               before: Option<Node>, overwrite: bool)
    requires (before.None? || (before.value.File? && overwrite)) && EndsWithBytes(sent) && Flat(received) == Flat(sent)
    ensures
      var bytes := Flat(sent);
      var steps := [Fetch(overwrite)] + Pulls(sent) + Gots(received) + [BodyEnds] + [Answered(Sha(bytes))] + [Rename];
      var last := After(Initial(nodeId, |bytes|, before), steps);
      last.Some? && last.value.target == Some(File(bytes))
  {
    var bytes := Flat(sent);
    var s0 := Initial(nodeId, |bytes|, before);
    PullsRun(nodeId, |bytes|, before, overwrite, sent);
    GotsRun(s0, [Fetch(overwrite)] + Pulls(sent), received);
    EndRuns(s0, [Fetch(overwrite)] + Pulls(sent) + Gots(received), bytes);
  }
}
