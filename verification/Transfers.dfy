/** The server's transfer relay (server/src/modules/files/transfers.ts): files streamed to or from a
    node under one-time tokens. */
module Transfers {
  import opened Common
  import opened Digests

  datatype Deferred<T> = Pending | Resolved(value: T) | Rejected

  /** A promise keeps its first settlement. */
  function Resolve<T>(d: Deferred<T>, value: T): Deferred<T> { if d.Pending? then Resolved(value) else d }

  function Reject<T>(d: Deferred<T>): Deferred<T> { if d.Pending? then Rejected else d }

  datatype Stream = Unserved | Streaming | Closed | Failed

  /** What the node's post is answered with: the digest of what was read of it, or an error. */
  datatype Answer = Counted(sha: Sha) | Refused

  /** An outgoing transfer: tally is what was read from the source, relayed what the node was given.
      An incoming one: arrival is the announced length of what the node posted, and answer what that post
      is answered with. */
  datatype Transfer =
    | Out(nodeId: nat, size: nat, claimed: bool, digest: Deferred<Sha>,
          tally: seq<Byte>, relayed: seq<Byte>, stream: Stream)
    | In(nodeId: nat, claimed: bool, arrival: Deferred<Option<nat>>, answer: Deferred<Answer>)

  /** What the source gives when it is read: a chunk, its end, or no answer in time or an error. */
  datatype SourceRead = Chunk(bytes: seq<Byte>) | End | Broken

  // ---- one outgoing transfer ----

  function Finish(t: Transfer): Transfer
    requires t.Out?
  {
    t.(stream := Closed, digest := Resolve(t.digest, Sha(t.tally)))
  }

  function Fail(t: Transfer): Transfer
    requires t.Out?
  {
    t.(stream := Failed, digest := Reject(t.digest))
  }

  /** The node takes the stream; nothing has to be read for an empty file. */
  function Claim(t: Transfer): Transfer
    requires t.Out?
  {
    var claimed := t.(claimed := true, stream := Streaming);
    if t.size == 0 then Finish(claimed) else claimed
  }

  function Pulled(t: Transfer, reading: SourceRead): Transfer
    requires t.Out? && t.stream.Streaming?
  {
    if !reading.Chunk? then Fail(t)
    else
      var counted := t.(tally := t.tally + reading.bytes);
      if |counted.tally| > t.size then Fail(counted)
      else
        var given := counted.(relayed := t.relayed + reading.bytes);
        if |given.tally| == t.size then Finish(given) else given
  }

  /** An offer is withdrawn, or nobody claimed it in time. */
  function Withdrawn(t: Transfer): Transfer {
    match t
    case Out(_, _, _, _, _, _, _) => t.(digest := Reject(t.digest))
    case In(_, _, _, _) => t.(arrival := Reject(t.arrival))
  }

  // ---- the relay ----

  /** All transfers ever made, by token; items are the tokens that can still be looked up, taken lists the
      tokens whose bytes a node was given or handed over, and asked has the tokens nodes wait for the
      digest of, once for each of their requests. */
  datatype Relay = Relay(all: map<string, Transfer>, items: set<string>, taken: seq<string>, asked: multiset<string>)

  datatype Step =
    | Offer(token: string, nodeId: nat, size: nat)
    | Expect(token: string, nodeId: nat)
    | Expire(token: string)
    | Cancel(token: string)
    | Serve(token: string, nodeId: nat)
    | Pull(token: string, reading: SourceRead)
    | NodeStopped(token: string)
    | Forget(token: string)
    | Ask(token: string, nodeId: nat)
    | Tell(token: string)
    | Receive(token: string, nodeId: nat, length: Option<nat>)
    | Complete(token: string, answer: Answer)

  predicate Listed(r: Relay, token: string) { token in r.items && token in r.all }

  predicate Servable(r: Relay, token: string, nodeId: nat) {
    Listed(r, token) && var t := r.all[token]; t.Out? && t.nodeId == nodeId && !t.claimed
  }

  predicate Receivable(r: Relay, token: string, nodeId: nat) {
    Listed(r, token) && var t := r.all[token]; t.In? && t.nodeId == nodeId && !t.claimed
  }

  /** The node that claimed a transfer can ask for its digest. */
  predicate Askable(r: Relay, token: string, nodeId: nat) {
    Listed(r, token) && var t := r.all[token]; t.Out? && t.nodeId == nodeId && t.claimed
  }

  /** A node waits for a digest, and it is known by now, or it is known that there is none. */
  predicate Tellable(r: Relay, token: string) {
    token in r.asked && token in r.all && r.all[token].Out? && !r.all[token].digest.Pending?
  }

  /** Whoever waits for the post has got it, with the function that answers it. */
  predicate Completable(r: Relay, token: string) {
    token in r.all && r.all[token].In? && r.all[token].arrival.Resolved?
  }

  predicate IsStreaming(r: Relay, token: string) {
    token in r.all && r.all[token].Out? && r.all[token].stream.Streaming?
  }

  /** When a step can be taken: tokens are random and never repeat, a source is read only for a stream that
      is open, and the timer that forgets a transfer is set once its stream is complete. */
  predicate Enabled(r: Relay, step: Step) {
    match step
    case Offer(token, _, _) => token !in r.all
    case Expect(token, _) => token !in r.all
    case Cancel(token) => token in r.all
    case Pull(token, _) => IsStreaming(r, token)
    case NodeStopped(token) => IsStreaming(r, token)
    case Forget(token) => token in r.all && r.all[token].Out? && r.all[token].stream.Closed?
    case Tell(token) => Tellable(r, token)
    case Complete(token, _) => Completable(r, token)
    case _ => true
  }

  function Added(r: Relay, token: string, t: Transfer): Relay {
    r.(all := r.all[token := t], items := r.items + {token})
  }

  function Expired(r: Relay, token: string): Relay {
    if Listed(r, token) && !r.all[token].claimed
    then r.(all := r.all[token := Withdrawn(r.all[token])], items := r.items - {token})
    else r
  }

  function Cancelled(r: Relay, token: string): Relay
    requires token in r.all
  {
    var t := r.all[token];
    r.(all := r.all[token := Withdrawn(t)], items := if t.In? && t.claimed then r.items else r.items - {token})
  }

  function Served(r: Relay, token: string, nodeId: nat): Relay {
    if Servable(r, token, nodeId)
    then r.(all := r.all[token := Claim(r.all[token])], taken := r.taken + [token])
    else r
  }

  function PulledFrom(r: Relay, token: string, reading: SourceRead): Relay
    requires IsStreaming(r, token)
  {
    var t := Pulled(r.all[token], reading);
    r.(all := r.all[token := t], items := if t.stream.Failed? then r.items - {token} else r.items)
  }

  function Stopped(r: Relay, token: string): Relay
    requires IsStreaming(r, token)
  {
    r.(all := r.all[token := Fail(r.all[token])], items := r.items - {token})
  }

  function Received(r: Relay, token: string, nodeId: nat, length: Option<nat>): Relay {
    if Receivable(r, token, nodeId)
    then
      var t := r.all[token];
      r.(all := r.all[token := t.(claimed := true, arrival := Resolve(t.arrival, length))],
         items := r.items - {token}, taken := r.taken + [token])
    else r
  }

  function Completed(r: Relay, token: string, answer: Answer): Relay
    requires Completable(r, token)
  {
    r.(all := r.all[token := r.all[token].(answer := Resolve(r.all[token].answer, answer))])
  }

  function Do(r: Relay, step: Step): Relay
    requires Enabled(r, step)
  {
    match step
    case Offer(token, nodeId, size) => Added(r, token, Out(nodeId, size, false, Pending, [], [], Unserved))
    case Expect(token, nodeId) => Added(r, token, In(nodeId, false, Pending, Pending))
    case Expire(token) => Expired(r, token)
    case Cancel(token) => Cancelled(r, token)
    case Serve(token, nodeId) => Served(r, token, nodeId)
    case Pull(token, reading) => PulledFrom(r, token, reading)
    case NodeStopped(token) => Stopped(r, token)
    case Forget(token) => r.(items := r.items - {token})
    case Ask(token, nodeId) => if Askable(r, token, nodeId) then r.(asked := r.asked + multiset{token}) else r
    case Tell(token) => r.(items := r.items - {token}, asked := r.asked - multiset{token})
    case Receive(token, nodeId, length) => Received(r, token, nodeId, length)
    case Complete(token, answer) => Completed(r, token, answer)
  }

  class Transfers {
    var all: map<string, Transfer>
    var items: set<string>
    ghost var taken: seq<string>
    var asked: multiset<string>

    ghost function View(): Relay
      reads this
    {
      Relay(all, items, taken, asked)
    }

    constructor ()
      ensures View() == EMPTY
    {
      all, items, taken, asked := map[], {}, [], multiset{};
    }

    method Offer(token: string, nodeId: nat, size: nat)
      requires Enabled(View(), Step.Offer(token, nodeId, size))
      modifies this
      ensures View() == Do(old(View()), Step.Offer(token, nodeId, size))
    {
      all := all[token := Out(nodeId, size, false, Pending, [], [], Unserved)];
      items := items + {token};
    }

    method Expect(token: string, nodeId: nat)
      requires Enabled(View(), Step.Expect(token, nodeId))
      modifies this
      ensures View() == Do(old(View()), Step.Expect(token, nodeId))
    {
      all := all[token := In(nodeId, false, Pending, Pending)];
      items := items + {token};
    }

    method Expire(token: string)
      modifies this
      ensures View() == Do(old(View()), Step.Expire(token))
    {
      if token !in items || token !in all || all[token].claimed {
        return;
      }
      items := items - {token};
      all := all[token := Withdrawn(all[token])];
    }

    method Cancel(token: string)
      requires Enabled(View(), Step.Cancel(token))
      modifies this
      ensures View() == Do(old(View()), Step.Cancel(token))
    {
      if all[token].Out? || !all[token].claimed {
        items := items - {token};
      }
      all := all[token := Withdrawn(all[token])];
    }

    method Serve(token: string, nodeId: nat) returns (size: Option<nat>)
      modifies this
      ensures View() == Do(old(View()), Step.Serve(token, nodeId))
      ensures size == if old(Servable(View(), token, nodeId)) then Some(old(all[token].size)) else None
    {
      if token !in items || token !in all {
        return None;
      }
      var t := all[token];
      if !t.Out? || t.nodeId != nodeId || t.claimed {
        return None;
      }
      t := t.(claimed := true, stream := Streaming);
      if t.size == 0 {
        t := Finish(t);
      }
      all := all[token := t];
      taken := taken + [token];
      return Some(t.size);
    }

    /** One pull of a served stream; the node is given the chunk that is returned. */
    method Pull(token: string, reading: SourceRead) returns (given: Option<seq<Byte>>)
      requires Enabled(View(), Step.Pull(token, reading))
      modifies this
      ensures View() == Do(old(View()), Step.Pull(token, reading))
      ensures all[token].Out? && old(all[token]).Out?
      ensures all[token].relayed == old(all[token]).relayed + if given.Some? then given.value else []
      ensures given.Some? ==> reading == Chunk(given.value)
    {
      var t := all[token];
      given := None;
      if reading.Chunk? {
        t := t.(tally := t.tally + reading.bytes);
      }
      if !reading.Chunk? || |t.tally| > t.size {
        t := Fail(t);
        items := items - {token};
      } else {
        given := Some(reading.bytes);
        t := t.(relayed := t.relayed + reading.bytes);
        if |t.tally| == t.size {
          t := Finish(t);
        }
      }
      all := all[token := t];
    }

    method NodeStopped(token: string)
      requires Enabled(View(), Step.NodeStopped(token))
      modifies this
      ensures View() == Do(old(View()), Step.NodeStopped(token))
    {
      items := items - {token};
      all := all[token := Fail(all[token])];
    }

    /** The node asks for the digest of what it read; it is told once that is settled, by TellDigest. */
    method Digest(token: string, nodeId: nat) returns (known: bool)
      modifies this
      ensures View() == Do(old(View()), Step.Ask(token, nodeId))
      ensures known == old(Askable(View(), token, nodeId))
    {
      if token !in items || token !in all {
        return false;
      }
      var t := all[token];
      if !t.Out? || t.nodeId != nodeId || !t.claimed {
        return false;
      }
      asked := asked + multiset{token};
      return true;
    }

    method TellDigest(token: string) returns (sha: Option<Sha>)
      requires Enabled(View(), Step.Tell(token))
      modifies this
      ensures View() == Do(old(View()), Step.Tell(token))
      ensures sha.Some? <==> old(all[token]).Out? && old(all[token]).digest.Resolved?
      ensures sha.Some? ==> old(all[token]).digest == Resolved(sha.value)
    {
      asked := asked - multiset{token};
      items := items - {token};
      var digest := all[token].digest;
      return if digest.Resolved? then Some(digest.value) else None;
    }

    /** The reader of a post has read it all, or failed: that answers the post, the first time. */
    method Complete(token: string, answer: Answer)
      requires Enabled(View(), Step.Complete(token, answer))
      modifies this
      ensures View() == Do(old(View()), Step.Complete(token, answer))
    {
      if all[token].answer.Pending? {
        all := all[token := all[token].(answer := Resolved(answer))];
      }
    }

    method Receive(token: string, nodeId: nat, length: Option<nat>) returns (ok: bool)
      modifies this
      ensures View() == Do(old(View()), Step.Receive(token, nodeId, length))
      ensures ok == old(Receivable(View(), token, nodeId))
    {
      if token !in items || token !in all {
        return false;
      }
      var t := all[token];
      if !t.In? || t.nodeId != nodeId || t.claimed {
        return false;
      }
      items := items - {token};
      all := all[token := t.(claimed := true, arrival := Resolve(t.arrival, length))];
      taken := taken + [token];
      return true;
    }
  }

  // ---- what every run keeps ----

  /** An outgoing transfer gives the node no more than was announced, and its digest is known only
      once exactly that many bytes, and no others, were given. */
  ghost predicate Sound(t: Transfer) {
    t.Out? ==>
      && (t.stream.Unserved? <==> !t.claimed)
      && |t.relayed| <= t.size
      && (t.stream.Unserved? ==> t.relayed == [] && t.tally == [] && !t.digest.Resolved?)
      && (t.stream.Streaming? ==> t.tally == t.relayed && |t.relayed| < t.size && !t.digest.Resolved?)
      && (t.stream.Closed? ==> t.tally == t.relayed && |t.relayed| == t.size && !t.digest.Pending?)
      && (t.stream.Failed? ==> t.digest.Rejected?)
      && (t.digest.Resolved? ==> t.digest.value == Sha(t.relayed))
  }

  /** A post is answered only after it was handed over. */
  ghost predicate SoundPost(t: Transfer) {
    t.In? ==>
      && (t.arrival.Resolved? ==> t.claimed)
      && (!t.answer.Pending? ==> t.arrival.Resolved?)
  }

  ghost predicate Inv(r: Relay) {
    && (forall token :: token in r.all ==> Sound(r.all[token]) && SoundPost(r.all[token]))
    && (forall token :: token in r.asked ==> Asked(r, token))
    && (forall i :: 0 <= i < |r.taken| ==> Taken(r, r.taken[i]))
    && (forall i, j :: 0 <= i < j < |r.taken| ==> r.taken[i] != r.taken[j])
  }

  /** A digest is asked for only by the node that has the stream. */
  ghost predicate Asked(r: Relay, token: string) { token in r.all && r.all[token].Out? && r.all[token].claimed }

  ghost predicate Taken(r: Relay, token: string) { token in r.all && r.all[token].claimed }

  lemma WithdrawnSound(t: Transfer)
    requires Sound(t) && SoundPost(t)
    ensures Sound(Withdrawn(t)) && SoundPost(Withdrawn(t)) && Withdrawn(t).claimed == t.claimed
  {
  }

  lemma ClaimSound(t: Transfer)
    requires Sound(t) && t.Out? && !t.claimed
    ensures Sound(Claim(t)) && Claim(t).claimed
  {
  }

  lemma PulledSound(t: Transfer, reading: SourceRead)
    requires Sound(t) && t.Out? && t.stream.Streaming?
    ensures Sound(Pulled(t, reading)) && Pulled(t, reading).claimed
    ensures
      var relayed := Pulled(t, reading).relayed;
      relayed == t.relayed || (reading.Chunk? && relayed == t.relayed + reading.bytes)
  {
  }

  ghost predicate BothSound(t: Transfer) { Sound(t) && SoundPost(t) }

  /** What a step does to any one transfer. */
  lemma EachSound(r: Relay, step: Step, token: string)
    requires Enabled(r, step) && token in Do(r, step).all && (token in r.all ==> BothSound(r.all[token]))
    ensures
      var n := Do(r, step);
      && BothSound(n.all[token])
      && (token in r.all ==> n.all[token].Out? == r.all[token].Out?)
      && (token in r.all && r.all[token].claimed ==> n.all[token].claimed)
  {
    if token in r.all && token == step.token {
      var t := r.all[token];
      WithdrawnSound(t);
      if t.Out? && !t.claimed {
        ClaimSound(t);
      }
      if step.Pull? {
        PulledSound(t, step.reading);
      }
    }
  }

  lemma TransfersStay(r: Relay, step: Step)
    requires Enabled(r, step)
    ensures r.all.Keys <= Do(r, step).all.Keys
  {
  }

  lemma StepKeeps(r: Relay, step: Step)
    requires Inv(r) && Enabled(r, step)
    ensures Inv(Do(r, step))
  {
    var n := Do(r, step);
    TransfersStay(r, step);
    forall token | token in n.all
      ensures BothSound(n.all[token])
      ensures Asked(r, token) ==> Asked(n, token)
      ensures Taken(r, token) ==> Taken(n, token)
    {
      EachSound(r, step, token);
    }
    ListsKeep(r, step);
  }

  lemma ListsKeep(r: Relay, step: Step)
    requires Inv(r) && Enabled(r, step)
    requires forall token :: Asked(r, token) ==> Asked(Do(r, step), token)
    requires forall token :: Taken(r, token) ==> Taken(Do(r, step), token)
    ensures
      var n := Do(r, step);
      && (forall token :: token in n.asked ==> Asked(n, token))
      && (forall i :: 0 <= i < |n.taken| ==> Taken(n, n.taken[i]))
      && (forall i, j :: 0 <= i < j < |n.taken| ==> n.taken[i] != n.taken[j])
  {
    var n := Do(r, step);
    forall token | token in n.asked ensures Asked(n, token) {
      assert token in r.asked ==> Asked(r, token);
    }
    forall i | 0 <= i < |n.taken| ensures Taken(n, n.taken[i]) {
      assert i < |r.taken| ==> Taken(r, r.taken[i]);
    }
    assert forall i :: 0 <= i < |r.taken| ==> Taken(r, r.taken[i]);
  }

  function After(r: Relay, steps: seq<Step>): Option<Relay> {
    if steps == [] then Some(r)
    else
      match After(r, steps[..|steps| - 1])
      case None => None
      case Some(m) =>
        var step := steps[|steps| - 1];
        if Enabled(m, step) then Some(Do(m, step)) else None
  }

  const EMPTY := Relay(map[], {}, [], multiset{})

  lemma {:induction false} RunKeeps(steps: seq<Step>)
    requires After(EMPTY, steps).Some?
    ensures Inv(After(EMPTY, steps).value)
  {
    if steps != [] {
      RunKeeps(steps[..|steps| - 1]);
      StepKeeps(After(EMPTY, steps[..|steps| - 1]).value, steps[|steps| - 1]);
    }
  }

  function Times(tokens: seq<string>, token: string): nat { multiset(tokens)[token] }

  lemma {:induction false} DistinctOnce(tokens: seq<string>, token: string)
    requires forall i, j :: 0 <= i < j < |tokens| ==> tokens[i] != tokens[j]
    ensures Times(tokens, token) <= 1
  {
    if tokens != [] {
      var before := tokens[..|tokens| - 1];
      DistinctOnce(before, token);
      assert tokens == before + [tokens[|tokens| - 1]];
      if tokens[|tokens| - 1] == token {
        assert forall i :: 0 <= i < |before| ==> before[i] == tokens[i];
        assert token !in before && token !in multiset(before);
      }
    }
  }

  /** What the node was given and its digest stay once the digest is known. */
  lemma DigestStays(r: Relay, step: Step, token: string)
    requires Inv(r) && Enabled(r, step) && token in r.all && r.all[token].Out? && r.all[token].digest.Resolved?
    ensures
      var t := Do(r, step).all[token];
      t.Out? && t.digest == r.all[token].digest && t.relayed == r.all[token].relayed && t.size == r.all[token].size
  {
    assert Sound(r.all[token]);
  }

  /** What a node is told as a digest is that of exactly the announced bytes, all of them given to it. */
  lemma ToldIsDigest(r: Relay, token: string)
    requires Inv(r) && Enabled(r, Tell(token))
    ensures
      var t := r.all[token];
      && t.Out? && t.claimed
      && (t.digest.Resolved? ==> |t.relayed| == t.size && t.digest.value == Sha(t.relayed))
  {
    assert Asked(r, token) && Sound(r.all[token]);
  }

  /** In every run, a token is served or received at most once, at most the announced bytes are given
      to the node, and a digest is that of exactly the announced number of bytes, all given. */
  lemma {:induction false} RelaySafe(steps: seq<Step>, token: string)
    requires After(EMPTY, steps).Some?
    ensures
      var r := After(EMPTY, steps).value;
      && Times(r.taken, token) <= 1
      && (token in r.all && r.all[token].Out? ==>
            var t := r.all[token];
            && |t.relayed| <= t.size
            && (t.digest.Resolved? ==> |t.relayed| == t.size && t.digest.value == Sha(t.relayed)))
  {
    RunKeeps(steps);
    DistinctOnce(After(EMPTY, steps).value.taken, token);
  }

  // ---- who can take a transfer, and when it is forgotten ----

  /** A step changes no transfer but its own, and of that neither its kind nor its node nor its size. */
  lemma OnlyItsOwn(r: Relay, step: Step, token: string)
    requires Enabled(r, step) && token in r.all
    ensures
      var n := Do(r, step);
      && token in n.all && (token in n.items ==> token in r.items)
      && n.all[token].nodeId == r.all[token].nodeId && n.all[token].Out? == r.all[token].Out?
      && (r.all[token].Out? ==> n.all[token].size == r.all[token].size)
      && (token != step.token ==> n.all[token] == r.all[token] && (token in n.items <==> token in r.items))
  {
  }

  ghost predicate Takes(step: Step) { step.Serve? || step.Receive? || step.Ask? }

  /** Only the node a transfer was made for can take it or ask for its digest, and only until it is
      forgotten: every other attempt changes nothing. */
  lemma OnlyItsNode(r: Relay, step: Step)
    requires Takes(step) && Do(r, step) != r
    ensures step.token in r.items && step.token in r.all && r.all[step.token].nodeId == step.nodeId
  {
  }

  /** A post's answer, once given, stays. */
  lemma AnswerStays(r: Relay, step: Step, token: string)
    requires Enabled(r, step) && token in r.all && r.all[token].In? && !r.all[token].answer.Pending?
    ensures Do(r, step).all[token].In? && Do(r, step).all[token].answer == r.all[token].answer
  {
  }

  /** Whoever made a transfer still waits only while its token can be looked up, and a token that can be is of
      none that failed; a post waits for its node exactly as long as its token can be looked up. */
  ghost predicate Remembered(r: Relay, token: string)
    requires token in r.all
  {
    match r.all[token]
    case Out(_, _, _, digest, _, _, _) => if token in r.items then !digest.Rejected? else !digest.Pending?
    case In(_, claimed, arrival, _) =>
      (token in r.items <==> arrival.Pending?) && (claimed <==> arrival.Resolved?)
  }

  lemma RememberedStep(r: Relay, step: Step, token: string)
    requires Inv(r) && Enabled(r, step) && token in Do(r, step).all
    requires token in r.all ==> Remembered(r, token)
    ensures Remembered(Do(r, step), token)
  {
    if token in r.all {
      assert Sound(r.all[token]);
    }
  }

  /** In every run a transfer is forgotten only once it is settled: a failed one at once, whether it was
      withdrawn, never claimed in time or broken off. */
  lemma {:induction false} ForgottenWhenSettled(steps: seq<Step>, token: string)
    requires After(EMPTY, steps).Some? && token in After(EMPTY, steps).value.all
    ensures Remembered(After(EMPTY, steps).value, token)
  {
    var before := steps[..|steps| - 1];
    RunKeeps(before);
    var r := After(EMPTY, before).value;
    if token in r.all {
      ForgottenWhenSettled(before, token);
    }
    RememberedStep(r, steps[|steps| - 1], token);
  }

  /** A transfer that is withdrawn, or expires before it is claimed, fails for whoever waits, and no node
      can take it any more. */
  lemma WithdrawnIsGone(r: Relay, step: Step)
    requires Inv(r) && Enabled(r, step) && Listed(r, step.token)
    requires step.Cancel? || (step.Expire? && !r.all[step.token].claimed)
    requires Remembered(r, step.token)
    ensures
      var n := Do(r, step);
      && step.token !in n.items
      && (n.all[step.token].Out? && r.all[step.token].digest.Pending? ==> n.all[step.token].digest.Rejected?)
      && (n.all[step.token].In? ==> n.all[step.token].arrival.Rejected?)
  {
  }

  lemma {:induction false} GoneStaysGone(r: Relay, steps: seq<Step>, token: string)
    requires token in r.all && token !in r.items && After(r, steps).Some?
    ensures token in After(r, steps).value.all && token !in After(r, steps).value.items
  {
    if steps != [] {
      GoneStaysGone(r, steps[..|steps| - 1], token);
      OnlyItsOwn(After(r, steps[..|steps| - 1]).value, steps[|steps| - 1], token);
    }
  }

  /** Once a node was told a digest, or a node stopped reading, no node ever gets anything for that token. */
  lemma {:induction false} EndedForGood(r: Relay, step: Step, steps: seq<Step>, later: Step)
    requires Enabled(r, step) && (step.Tell? || step.NodeStopped?) && After(Do(r, step), steps).Some?
    requires Takes(later) && later.token == step.token
    ensures Do(After(Do(r, step), steps).value, later) == After(Do(r, step), steps).value
  {
    GoneStaysGone(Do(r, step), steps, step.token);
  }

  // ---- transfers that nothing disturbs ----

  lemma {:induction false} OneMore(r: Relay, steps: seq<Step>, step: Step)
    requires After(r, steps).Some? && Enabled(After(r, steps).value, step)
    ensures After(r, steps + [step]) == Some(Do(After(r, steps).value, step))
  {
    assert (steps + [step])[..|steps|] == steps;
  }

  function Reads(token: string, chunks: seq<seq<Byte>>): seq<Step> {
    if chunks == [] then []
    else Reads(token, chunks[..|chunks| - 1]) + [Step.Pull(token, Chunk(chunks[|chunks| - 1]))]
  }

  /** A served transfer of size bytes after the node was given some of them. */
  function Given(nodeId: nat, size: nat, bytes: seq<Byte>): Transfer {
    var t := Out(nodeId, size, true, Pending, bytes, bytes, Streaming);
    if |bytes| == size then Finish(t) else t
  }

  /** The relay once a transfer was made and its node was given bytes. */
  function Serving(r: Relay, token: string, nodeId: nat, size: nat, bytes: seq<Byte>): Relay {
    Relay(r.all[token := Given(nodeId, size, bytes)], r.items + {token}, r.taken + [token], r.asked)
  }

  lemma {:induction false} FlatShorter(chunks: seq<seq<Byte>>)
    requires forall i :: 0 <= i < |chunks| ==> chunks[i] != []
    ensures chunks != [] ==> |Flat(chunks[..|chunks| - 1])| < |Flat(chunks)|
  {
  }

  lemma GivenMore(r: Relay, token: string, nodeId: nat, size: nat, bytes: seq<Byte>, more: seq<Byte>)
    requires |bytes| < size && |bytes + more| <= size
    ensures
      var s := Serving(r, token, nodeId, size, bytes);
      && IsStreaming(s, token)
      && Do(s, Step.Pull(token, Chunk(more))) == Serving(r, token, nodeId, size, bytes + more)
  {
    var s := Serving(r, token, nodeId, size, bytes);
    assert s.all[token := Given(nodeId, size, bytes + more)] == r.all[token := Given(nodeId, size, bytes + more)];
  }

  lemma OfferServed(r: Relay, token: string, nodeId: nat, size: nat)
    requires token !in r.all
    ensures After(r, [Step.Offer(token, nodeId, size)] + [Step.Serve(token, nodeId)]) ==
            Some(Serving(r, token, nodeId, size, []))
  {
    var offer := Step.Offer(token, nodeId, size);
    assert [] + [offer] == [offer];
    OneMore(r, [], offer);
    OneMore(r, [offer], Step.Serve(token, nodeId));
    assert After(r, [offer]).value.all[token := Given(nodeId, size, [])] == r.all[token := Given(nodeId, size, [])];
  }

  lemma {:induction false} ReadsRun(r: Relay, token: string, nodeId: nat, size: nat, chunks: seq<seq<Byte>>)
    requires token !in r.all && |Flat(chunks)| <= size && forall i :: 0 <= i < |chunks| ==> chunks[i] != []
    ensures After(r, [Step.Offer(token, nodeId, size)] + [Step.Serve(token, nodeId)] + Reads(token, chunks)) ==
            Some(Serving(r, token, nodeId, size, Flat(chunks)))
  {
    var start := [Step.Offer(token, nodeId, size)] + [Step.Serve(token, nodeId)];
    OfferServed(r, token, nodeId, size);
    if chunks == [] {
      assert start + Reads(token, chunks) == start;
    } else {
      var n := |chunks| - 1;
      FlatShorter(chunks);
      ReadsRun(r, token, nodeId, size, chunks[..n]);
      GivenMore(r, token, nodeId, size, Flat(chunks[..n]), chunks[n]);
      OneMore(r, start + Reads(token, chunks[..n]), Step.Pull(token, Chunk(chunks[n])));
      assert start + Reads(token, chunks) == (start + Reads(token, chunks[..n])) + [Step.Pull(token, Chunk(chunks[n]))];
    }
  }

  /** A file offered to a node, of which all is read in any chunks: the node is given exactly those bytes,
      and told their digest when it asks. */
  lemma {:induction false} UndisturbedIsTold(r: Relay, token: string, nodeId: nat, chunks: seq<seq<Byte>>)
    requires token !in r.all && forall i :: 0 <= i < |chunks| ==> chunks[i] != []
    ensures
      var bytes := Flat(chunks);
      var steps := [Step.Offer(token, nodeId, |bytes|)] + [Step.Serve(token, nodeId)] + Reads(token, chunks)
                   + [Ask(token, nodeId)];
      var last := After(r, steps);
      && last.Some? && Enabled(last.value, Tell(token))
      && last.value.all[token].Out? && last.value.all[token].relayed == bytes
      && last.value.all[token].digest == Resolved(Sha(bytes))
  {
    var bytes := Flat(chunks);
    var start := [Step.Offer(token, nodeId, |bytes|)] + [Step.Serve(token, nodeId)];
    ReadsRun(r, token, nodeId, |bytes|, chunks);
    OneMore(r, start + Reads(token, chunks), Ask(token, nodeId));
  }

  /** A post that its node makes is handed over with its length, and gets the answer its reader gives. */
  lemma {:induction false} PostIsAnswered(r: Relay, token: string, nodeId: nat, length: Option<nat>, answer: Answer)
    requires token !in r.all
    ensures
      var steps := [Step.Expect(token, nodeId)] + [Step.Receive(token, nodeId, length)]
                   + [Step.Complete(token, answer)];
      var last := After(r, steps);
      && last.Some? && last.value.all == r.all[token := In(nodeId, true, Resolved(length), Resolved(answer))]
      && last.value.taken == r.taken + [token]
  {
    var made, got := Step.Expect(token, nodeId), Step.Receive(token, nodeId, length);
    assert [] + [made] == [made];
    OneMore(r, [], made);
    OneMore(r, [made], got);
    OneMore(r, [made] + [got], Step.Complete(token, answer));
    assert After(r, []) == Some(r);
  }
}
