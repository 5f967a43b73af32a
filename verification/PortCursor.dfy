/** Which pools the allocator's forward-only cursor may wrongly give up on. */
module PortCursor {
  import opened Common
  import opened PortTemplate
  import opened PortAllocator

  // ---- completeness ----

  /** n free ports in a row somewhere from `from` to the end of the range. */
  ghost predicate HasGap(taken: set<int>, n: nat, from: int, end: int) {
    exists x :: from <= x && x + n - 1 <= end && BlockFree(taken, x, n)
  }

  lemma WiderNotFree(taken: set<int>, x: int, n: nat, m: nat)
    requires !BlockFree(taken, x, n) && n <= m
    ensures !BlockFree(taken, x, m)
  {
    var y :| x <= y < x + n && !Usable(taken, y);
    assert x <= y < x + m;
  }

  lemma TakingNeverFrees(taken: set<int>, more: set<int>, x: int, n: nat)
    requires !BlockFree(taken, x, n)
    ensures !BlockFree(taken + more, x, n)
  {
    var y :| x <= y < x + n && !Usable(taken, y);
    assert !Usable(taken + more, y);
  }

  /** Everything the cursor has passed is too tight for the widest block it placed. */
  ghost predicate Passed(taken: set<int>, start: int, cursor: int, widest: nat) {
    forall x :: start <= x < cursor ==> !BlockFree(taken, x, widest)
  }

  ghost predicate NoRoomMeans(e: PortError, range: Range, used: set<int>) {
    && e.NoRoom? && used <= e.taken
    && !HasGap(e.taken, e.n, e.from, range.end)
    && (e.widest <= e.n ==> !HasGap(e.taken, e.n, range.start, range.end))
  }

  lemma {:induction false} AutoComplete(blocks: seq<Block>, byName: map<string, TemplatePort>, p: Placed, cursor: int,
                                        widest: nat, range: Range)
    requires Sized(blocks) && range.start <= cursor && Passed(p.taken, range.start, cursor, widest)
    requires PlaceAuto(blocks, byName, Search(p, cursor, widest), range).Err?
    ensures NoRoomMeans(PlaceAuto(blocks, byName, Search(p, cursor, widest), range).error, range, p.taken)
    decreases blocks
  {
    var Block(head, n) := blocks[0];
    if head in p.first {
      AutoComplete(blocks[1..], byName, p, cursor, widest, range);
    } else {
      var wanted := Preferred(byName, head);
      var next := Advance(p.taken, cursor, n, range.end);
      AdvanceStops(p.taken, cursor, n, range.end);
      var wider := if widest < n then n else widest;
      forall x | range.start <= x < next && (x < cursor || n == wider) ensures !BlockFree(p.taken, x, wider) {
        WiderNotFree(p.taken, x, if x < cursor then widest else n, wider);
      }
      if PreferredFits(p.taken, wanted, n, range) {
        forall x | range.start <= x < cursor ensures !BlockFree(p.taken + Span(wanted, n), x, widest) {
          TakingNeverFrees(p.taken, Span(wanted, n), x, widest);
        }
        AutoComplete(blocks[1..], byName, Placed(p.taken + Span(wanted, n), p.first[head := wanted]), cursor, widest,
                     range);
      } else if next + n - 1 <= range.end {
        forall x | range.start <= x < next ensures !BlockFree(p.taken + Span(next, n), x, wider) {
          if x >= cursor {
            WiderNotFree(p.taken, x, n, wider);
          }
          TakingNeverFrees(p.taken, Span(next, n), x, wider);
        }
        AutoComplete(blocks[1..], byName, Placed(p.taken + Span(next, n), p.first[head := next]), next, wider, range);
      }
    }
  }

  lemma {:induction false} ChosenTakes(blocks: seq<Block>, choices: map<string, int>, p: Placed)
    ensures var r := PlaceChosen(blocks, choices, p);
            if r.Ok? then p.taken <= r.value.taken else !r.error.NoRoom?
    decreases blocks
  {
    if blocks != [] && (blocks[0].head in choices ==> BlockFree(p.taken, choices[blocks[0].head], blocks[0].size)) {
      var Block(head, n) := blocks[0];
      ChosenTakes(blocks[1..], choices,
                  if head in choices then Placed(p.taken + Span(choices[head], n), p.first[head := choices[head]])
                  else p);
    } else if blocks != [] {
      ChosenErrorKinds(p.taken, choices[blocks[0].head], blocks[0].size);
    }
  }

  lemma {:induction false} ChosenErrorKinds(taken: set<int>, port: int, n: nat)
    ensures !ChosenError(taken, port, n).NoRoom?
  {
    if n > 0 {
      ChosenErrorKinds(taken, port, n - 1);
    }
  }

  lemma {:induction false} AssignedErrorKinds(ports: seq<TemplatePort>, choices: map<string, int>,
                                              first: map<string, int>, i: nat)
    requires i <= |ports|
    ensures var r := Assigned(ports, choices, first, i); r.Err? ==> r.error.Misplaced?
  {
    if i > 0 {
      AssignedErrorKinds(ports, choices, first, i - 1);
    }
  }

  /** When the pool is said to have no n free ports in a row, there are none at or after the place the
      search began, and none in the whole range if no block the cursor placed before was wider. */
  lemma NoRoomIsTrue(ports: seq<TemplatePort>, choices: map<string, int>, used: set<int>, range: Range)
    requires Allocate(ports, choices, used, range).Err? && Allocate(ports, choices, used, range).error.NoRoom?
    ensures NoRoomMeans(Allocate(ports, choices, used, range).error, range, used)
  {
    var blocks := BlocksOf(ports);
    SizesFacts(ports, |ports|);
    ChosenTakes(blocks, choices, Placed(used, map[]));
    var chosen := PlaceChosen(blocks, choices, Placed(used, map[]));
    if chosen.Ok? && PlaceAuto(blocks, ByName(ports), Search(chosen.value, range.start, 0), range).Err? {
      AutoComplete(blocks, ByName(ports), chosen.value, range.start, 0, range);
    } else if chosen.Ok? {
      var placed := PlaceAuto(blocks, ByName(ports), Search(chosen.value, range.start, 0), range).value;
      AssignedErrorKinds(ports, choices, placed.first, |ports|);
    }
  }

  // ---- exactly which templates the forward-only cursor serves completely ----

  /** The allocation gives up although the range still has a gap that fits. */
  ghost predicate Misses(ports: seq<TemplatePort>, choices: map<string, int>, used: set<int>, range: Range) {
    var r := Allocate(ports, choices, used, range);
    r.Err? && r.error.NoRoom? && HasGap(r.error.taken, r.error.n, range.start, range.end)
  }

  /** The blocks the automatic pass places: those whose head is not chosen. */
  function Unchosen(blocks: seq<Block>, choices: map<string, int>): seq<Block> {
    if blocks == [] then []
    else (if blocks[0].head in choices then [] else [blocks[0]]) + Unchosen(blocks[1..], choices)
  }

  lemma {:induction false} UnchosenHeads(blocks: seq<Block>, choices: map<string, int>)
    ensures forall h :: HasHead(Unchosen(blocks, choices), h) <==> HasHead(blocks, h) && h !in choices
  {
    if blocks != [] {
      HeadsOf(blocks);
      UnchosenHeads(blocks[1..], choices);
      var r := Unchosen(blocks, choices);
      if blocks[0].head !in choices {
        assert r[1..] == Unchosen(blocks[1..], choices);
        HeadsOf(r);
      } else {
        assert r == Unchosen(blocks[1..], choices);
      }
    }
  }

  lemma HeadApart(blocks: seq<Block>)
    requires blocks != [] && DistinctHeads(blocks)
    ensures DistinctHeads(blocks[1..]) && !HasHead(blocks[1..], blocks[0].head)
  {
  }

  lemma HeadAdded(b: Block, rest: seq<Block>)
    requires DistinctHeads(rest) && !HasHead(rest, b.head)
    ensures DistinctHeads([b] + rest)
  {
  }

  lemma {:induction false} UnchosenDistinct(blocks: seq<Block>, choices: map<string, int>)
    requires DistinctHeads(blocks)
    ensures DistinctHeads(Unchosen(blocks, choices))
  {
    if blocks != [] {
      HeadApart(blocks);
      UnchosenDistinct(blocks[1..], choices);
      var rest := Unchosen(blocks[1..], choices);
      if blocks[0].head in choices {
        assert Unchosen(blocks, choices) == rest;
      } else {
        UnchosenHeads(blocks[1..], choices);
        HeadAdded(blocks[0], rest);
      }
    }
  }

  /** The automatic pass steps over blocks that have a place. */
  lemma {:induction false} AutoStepsOver(blocks: seq<Block>, choices: map<string, int>,
                                         byName: map<string, TemplatePort>, s: Search, range: Range)
    requires forall h :: HasHead(blocks, h) && h in choices ==> h in s.p.first
    ensures PlaceAuto(blocks, byName, s, range) == PlaceAuto(Unchosen(blocks, choices), byName, s, range)
    decreases blocks
  {
    if blocks != [] {
      HeadsOf(blocks);
      var r := PlaceOne(blocks[0], byName, s, range);
      assert HasHead(blocks, blocks[0].head);
      if blocks[0].head in choices {
        assert Unchosen(blocks, choices) == Unchosen(blocks[1..], choices);
        AutoStepsOver(blocks[1..], choices, byName, s, range);
      } else {
        assert Unchosen(blocks, choices)[1..] == Unchosen(blocks[1..], choices);
        if r.Ok? {
          AutoStepsOver(blocks[1..], choices, byName, r.value, range);
        }
      }
    }
  }

  ghost predicate NonDecreasing(blocks: seq<Block>) {
    forall k :: 0 <= k < |blocks| - 1 ==> blocks[k].size <= blocks[k + 1].size
  }

  lemma {:induction false} NonDecreasingFrom(blocks: seq<Block>, k: nat, l: nat)
    requires NonDecreasing(blocks) && k <= l < |blocks|
    ensures blocks[k].size <= blocks[l].size
  {
    if k < l {
      NonDecreasingFrom(blocks, k, l - 1);
    }
  }

  /** Whatever the cursor placed before a block of a non-decreasing list was at most as wide. */
  lemma {:induction false} WidestAtMost(blocks: seq<Block>, k: nat, byName: map<string, TemplatePort>, p: Placed,
                                        cursor: int, widest: nat, range: Range)
    requires NonDecreasing(blocks) && k <= |blocks| && (k < |blocks| ==> widest <= blocks[k].size)
    requires PlaceAuto(blocks[k..], byName, Search(p, cursor, widest), range).Err?
    ensures var e := PlaceAuto(blocks[k..], byName, Search(p, cursor, widest), range).error;
            e.NoRoom? && e.widest <= e.n
    decreases |blocks| - k
  {
    var Block(head, n) := blocks[k..][0];
    assert blocks[k..][1..] == blocks[k + 1..];
    if head in p.first {
      WidestAtMost(blocks, k + 1, byName, p, cursor, widest, range);
    } else {
      var wanted := Preferred(byName, head);
      var next := Advance(p.taken, cursor, n, range.end);
      if PreferredFits(p.taken, wanted, n, range) {
        WidestAtMost(blocks, k + 1, byName, Placed(p.taken + Span(wanted, n), p.first[head := wanted]), cursor, widest,
                     range);
      } else if next + n - 1 <= range.end {
        WidestAtMost(blocks, k + 1, byName, Placed(p.taken + Span(next, n), p.first[head := next]), next, n, range);
      }
    }
  }

  lemma {:induction false} ChosenHaveRoom(blocks: seq<Block>, choices: map<string, int>, p: Placed)
    requires PlaceChosen(blocks, choices, p).Ok?
    ensures
      var q := PlaceChosen(blocks, choices, p).value;
      && (forall h :: h in p.first ==> h in q.first)
      && (forall h :: HasHead(blocks, h) && h in choices ==> h in q.first)
      && (forall h :: h in q.first ==> h in p.first || h in choices)
    decreases blocks
  {
    if blocks != [] {
      HeadsOf(blocks);
      var Block(head, n) := blocks[0];
      ChosenHaveRoom(blocks[1..], choices,
                     if head in choices then Placed(p.taken + Span(choices[head], n), p.first[head := choices[head]])
                     else p);
    }
  }

  lemma {:induction false} NonDecreasingNeverMisses(ports: seq<TemplatePort>, choices: map<string, int>,
                                                    used: set<int>, range: Range)
    requires NonDecreasing(Unchosen(BlocksOf(ports), choices))
    ensures !Misses(ports, choices, used, range)
  {
    var blocks := BlocksOf(ports);
    var r := Allocate(ports, choices, used, range);
    if r.Err? && r.error.NoRoom? {
      NoRoomIsTrue(ports, choices, used, range);
      ChosenTakes(blocks, choices, Placed(used, map[]));
      var chosen := PlaceChosen(blocks, choices, Placed(used, map[])).value;
      ChosenHaveRoom(blocks, choices, Placed(used, map[]));
      var s := Search(chosen, range.start, 0);
      var auto := PlaceAuto(blocks, ByName(ports), s, range);
      if auto.Err? {
        AutoStepsOver(blocks, choices, ByName(ports), s, range);
        assert Unchosen(blocks, choices)[0..] == Unchosen(blocks, choices);
        WidestAtMost(Unchosen(blocks, choices), 0, ByName(ports), chosen, range.start, 0, range);
      } else {
        AssignedErrorKinds(ports, choices, auto.value.first, |ports|);
      }
    }
  }

  function Total(blocks: seq<Block>): nat {
    if blocks == [] then 0 else blocks[0].size + Total(blocks[1..])
  }

  lemma {:induction false} TotalSplits(blocks: seq<Block>, k: nat)
    requires k <= |blocks|
    ensures Total(blocks) == Total(blocks[..k]) + Total(blocks[k..])
  {
    if k > 0 {
      TotalSplits(blocks[1..], k - 1);
      assert blocks[..k][1..] == blocks[1..][..k - 1] && blocks[1..][k - 1..] == blocks[k..];
    } else {
      assert blocks[0..] == blocks;
    }
  }

  lemma {:induction false} AdvanceTo(taken: set<int>, cursor: int, target: int, n: nat, end: int)
    requires n >= 1 && cursor <= target
    requires forall x :: cursor <= x < target ==> !BlockFree(taken, x, n)
    requires cursor == target || target + n - 2 <= end
    requires target + n - 1 > end || BlockFree(taken, target, n)
    ensures Advance(taken, cursor, n, end) == target
    decreases target - cursor
  {
    if cursor < target {
      AdvanceTo(taken, cursor + 1, target, n, end);
    }
  }

  lemma {:induction false} SkipTaken(taken: set<int>, cursor: int, target: int, n: nat, end: int)
    requires n >= 1 && cursor <= target
    requires forall x :: cursor <= x < target ==> x in taken
    requires cursor == target || target + n - 2 <= end
    requires target + n - 1 > end || BlockFree(taken, target, n)
    ensures Advance(taken, cursor, n, end) == target
  {
    forall x | cursor <= x < target ensures !BlockFree(taken, x, n) {
      assert x <= x < x + n && !Usable(taken, x);
    }
    AdvanceTo(taken, cursor, target, n, end);
  }

  /** None of those ports is in the range: ports in use far away, and chosen blocks. */
  ghost predicate Clear(busy: set<int>, start: int, end: int) { forall x :: start <= x <= end ==> x !in busy }

  /** What is taken once the range's first `filled` ports and u, a port in use, are. */
  function FilledTo(busy: set<int>, start: int, filled: nat, u: int): set<int> { busy + {u} + Span(start, filled) }

  lemma AfterSpan(busy: set<int>, start: int, u: int, cursor: int, target: int, n: nat, end: int)
    requires n >= 1 && 1 <= start <= cursor <= target && target + n <= u <= end <= 65536 && Clear(busy, start, end)
    ensures Advance(FilledTo(busy, start, target - start, u), cursor, n, end) == target
  {
    var taken := FilledTo(busy, start, target - start, u);
    assert BlockFree(taken, target, n);
    SkipTaken(taken, cursor, target, n, end);
  }

  /** Block d is too long for the hole before u, so the cursor goes past u. */
  lemma {:induction false} JumpOver(taken: set<int>, cursor: int, hole: int, u: int, n: nat, end: int)
    requires n >= 1 && cursor <= hole && hole + n - 1 == u && u in taken && end == u + n
    requires forall x :: cursor <= x < hole ==> x in taken
    requires BlockFree(taken, u + 1, n)
    ensures Advance(taken, cursor, n, end) == u + 1
  {
    forall x | cursor <= x < u + 1 ensures !BlockFree(taken, x, n) {
      if x < hole {
        assert x <= x < x + n && !Usable(taken, x);
      } else {
        assert x <= u < x + n && !Usable(taken, u);
      }
    }
    AdvanceTo(taken, cursor, u + 1, n, end);
  }

  /** Where a block whose preferred port is outside the range goes: to the cursor's next stop. */
  lemma CursorPlaces(b: Block, byName: map<string, TemplatePort>, s: Search, range: Range, target: int)
    requires b.head !in s.p.first && b.size >= 1
    requires !(range.start <= Preferred(byName, b.head) <= range.end)
    requires Advance(s.p.taken, s.cursor, b.size, range.end) == target
    ensures PlaceOne(b, byName, s, range) ==
            if target + b.size - 1 > range.end then Err(NoRoom(b.size, s.cursor, s.p.taken, s.widest))
            else Ok(Search(Placed(s.p.taken + Span(target, b.size), s.p.first[b.head := target]), target,
                           if s.widest < b.size then b.size else s.widest))
  {
  }

  lemma FilledFurther(busy: set<int>, start: int, filled: nat, n: nat, u: int)
    ensures FilledTo(busy, start, filled, u) + Span(start + filled, n) == FilledTo(busy, start, filled + n, u)
  {
  }

  lemma FillOne(b: Block, byName: map<string, TemplatePort>, s: Search, range: Range, busy: set<int>, u: int,
                filled: nat)
    requires b.head !in s.p.first && b.size >= 1 && !(range.start <= Preferred(byName, b.head) <= range.end)
    requires Filled(s, busy, range.start, filled, u) && Clear(busy, range.start, range.end)
    requires range.start + filled + b.size <= u <= range.end <= 65535
    ensures
      var r := PlaceOne(b, byName, s, range);
      && r.Ok? && r.value.cursor == range.start + filled
      && r.value.p.taken == FilledTo(busy, range.start, filled + b.size, u)
      && r.value.p.first == s.p.first[b.head := range.start + filled]
  {
    AfterSpan(busy, range.start, u, s.cursor, range.start + filled, b.size, range.end);
    CursorPlaces(b, byName, s, range, range.start + filled);
    FilledFurther(busy, range.start, filled, b.size, u);
  }

  lemma {:induction false} PlaceAutoStep(b: Block, rest: seq<Block>, byName: map<string, TemplatePort>, s: Search,
                                         range: Range)
    requires PlaceOne(b, byName, s, range).Ok?
    ensures PlaceAuto([b] + rest, byName, s, range) ==
            PlaceAuto(rest, byName, PlaceOne(b, byName, s, range).value, range)
  {
    assert ([b] + rest)[1..] == rest;
  }

  /** A block that has no place yet and will take one from the cursor. */
  ghost predicate Waits(b: Block, byName: map<string, TemplatePort>, first: map<string, int>, range: Range) {
    b.size >= 1 && b.head !in first && !(range.start <= Preferred(byName, b.head) <= range.end)
  }

  ghost predicate AllWait(blocks: seq<Block>, byName: map<string, TemplatePort>, first: map<string, int>, range: Range)
  {
    DistinctHeads(blocks) && forall k :: 0 <= k < |blocks| ==> Waits(blocks[k], byName, first, range)
  }

  lemma TailWaits(blocks: seq<Block>, byName: map<string, TemplatePort>, first: map<string, int>, range: Range,
                  port: int)
    requires blocks != [] && AllWait(blocks, byName, first, range)
    ensures AllWait(blocks[1..], byName, first[blocks[0].head := port], range)
  {
    var tail := blocks[1..];
    forall k | 0 <= k < |tail| ensures Waits(tail[k], byName, first[blocks[0].head := port], range) {
      assert Waits(blocks[k + 1], byName, first, range) && tail[k].head != blocks[0].head;
    }
  }

  ghost predicate Filled(s: Search, busy: set<int>, start: int, filled: nat, u: int) {
    s.p.taken == FilledTo(busy, start, filled, u) && 1 <= start <= s.cursor <= start + filled
  }

  ghost predicate NewHeads(blocks: seq<Block>, before: map<string, int>, after: map<string, int>) {
    forall h :: h in after ==> h in before || HasHead(blocks, h)
  }

  lemma NewHeadsStep(blocks: seq<Block>, before: map<string, int>, port: int, after: map<string, int>)
    requires blocks != [] && NewHeads(blocks[1..], before[blocks[0].head := port], after)
    ensures NewHeads(blocks, before, after)
  {
    HeadsOf(blocks);
  }

  lemma FillStep(b: Block, rest: seq<Block>, byName: map<string, TemplatePort>, s: Search, range: Range,
                 busy: set<int>, u: int, filled: nat)
    returns (next: Search)
    requires Waits(b, byName, s.p.first, range) && Filled(s, busy, range.start, filled, u)
    requires Clear(busy, range.start, range.end)
    requires range.start + filled + b.size <= u <= range.end <= 65535
    ensures PlaceAuto([b] + rest, byName, s, range) == PlaceAuto(rest, byName, next, range)
    ensures Filled(next, busy, range.start, filled + b.size, u)
    ensures next.p.first == s.p.first[b.head := range.start + filled]
  {
    FillOne(b, byName, s, range, busy, u, filled);
    PlaceAutoStep(b, rest, byName, s, range);
    next := PlaceOne(b, byName, s, range).value;
  }

  lemma {:induction false} SameStop(blocks: seq<Block>, rest: seq<Block>, byName: map<string, TemplatePort>,
                                    s: Search, next: Search, t: Search, range: Range)
    requires blocks != []
    requires PlaceAuto([blocks[0]] + (blocks[1..] + rest), byName, s, range) ==
             PlaceAuto(blocks[1..] + rest, byName, next, range)
    requires PlaceAuto(blocks[1..] + rest, byName, next, range) == PlaceAuto(rest, byName, t, range)
    ensures PlaceAuto(blocks + rest, byName, s, range) == PlaceAuto(rest, byName, t, range)
  {
    assert blocks + rest == [blocks[0]] + (blocks[1..] + rest);
  }

  /** Blocks in a row fill the pool from its start without a hole, up to at most u. */
  lemma {:induction false} Fill(blocks: seq<Block>, rest: seq<Block>, byName: map<string, TemplatePort>, s: Search,
                                range: Range, busy: set<int>, u: int, filled: nat)
    returns (t: Search)
    requires AllWait(blocks, byName, s.p.first, range) && Filled(s, busy, range.start, filled, u)
    requires Clear(busy, range.start, range.end)
    requires range.start + filled + Total(blocks) <= u <= range.end <= 65535
    ensures PlaceAuto(blocks + rest, byName, s, range) == PlaceAuto(rest, byName, t, range)
    ensures Filled(t, busy, range.start, filled + Total(blocks), u) && NewHeads(blocks, s.p.first, t.p.first)
    decreases blocks
  {
    if blocks == [] {
      t := s;
      assert blocks + rest == rest;
    } else {
      var b := blocks[0];
      assert Waits(b, byName, s.p.first, range);
      var tail := blocks[1..];
      assert Total(blocks) == b.size + Total(tail);
      var next := FillStep(b, tail + rest, byName, s, range, busy, u, filled);
      TailWaits(blocks, byName, s.p.first, range, range.start + filled);
      t := Fill(tail, rest, byName, next, range, busy, u, filled + b.size);
      SameStop(blocks, rest, byName, s, next, t, range);
      NewHeadsStep(blocks, s.p.first, range.start + filled, t.p.first);
    }
  }

  /** With the hole before u too short for n ports but not for m, the cursor places the n after u and
      then finds nothing for the m. */
  lemma Jumped(busy: set<int>, start: int, hole: int, u: int, n: nat, m: nat, cursor: int, end: int)
    requires 1 <= m < n && 1 <= start <= cursor <= hole && u == hole + n - 1 && end == u + n <= 65535
    requires Clear(busy, start, end)
    ensures
      var taken := FilledTo(busy, start, hole - start, u);
      var more := taken + Span(u + 1, n);
      && Advance(taken, cursor, n, end) == u + 1
      && Advance(more, u + 1, m, end) == end - m + 2
      && HasGap(more, m, start, end)
  {
    var taken := FilledTo(busy, start, hole - start, u);
    assert BlockFree(taken, u + 1, n);
    JumpOver(taken, cursor, hole, u, n, end);
    var more := taken + Span(u + 1, n);
    SkipTaken(more, u + 1, end - m + 2, m, end);
    assert BlockFree(more, hole, m);
  }

  /** Where the descent of rest is played out: everything before it fits in front of u, the port in use,
      which ends a hole one place too short for the first block of rest but long enough for the second. */
  ghost predicate Stage(blocks: seq<Block>, rest: seq<Block>, byName: map<string, TemplatePort>, busy: set<int>,
                        u: int, range: Range)
  {
    && |rest| >= 2 && rest[0].size > rest[1].size >= 1
    && u == range.start + Total(blocks) + rest[0].size - 1
    && 1 <= range.start && range.end == u + rest[0].size <= 65535 && Clear(busy, range.start, range.end)
    && !(range.start <= Preferred(byName, rest[0].head) <= range.end)
    && !(range.start <= Preferred(byName, rest[1].head) <= range.end)
  }

  lemma FirstWait(blocks: seq<Block>, rest: seq<Block>, byName: map<string, TemplatePort>, first: map<string, int>,
                  range: Range)
    requires AllWait(blocks + rest, byName, first, range)
    ensures AllWait(blocks, byName, first, range)
  {
    forall k | 0 <= k < |blocks| ensures Waits(blocks[k], byName, first, range) {
      assert Waits((blocks + rest)[k], byName, first, range);
    }
    forall k, l | 0 <= k < l < |blocks| ensures blocks[k].head != blocks[l].head {
      assert (blocks + rest)[k].head != (blocks + rest)[l].head;
    }
  }

  lemma DescentFails(blocks: seq<Block>, rest: seq<Block>, byName: map<string, TemplatePort>, p: Placed, busy: set<int>,
                     u: int, range: Range)
    returns (e: PortError)
    requires Stage(blocks, rest, byName, busy, u, range) && p.taken == busy + {u}
    requires AllWait(blocks + rest, byName, p.first, range)
    ensures PlaceAuto(blocks + rest, byName, Search(p, range.start, 0), range) == Err(e)
    ensures e.NoRoom? && HasGap(e.taken, e.n, range.start, range.end)
  {
    var s := Search(p, range.start, 0);
    assert p.taken == FilledTo(busy, range.start, 0, u);
    FirstWait(blocks, rest, byName, p.first, range);
    var t := Fill(blocks, rest, byName, s, range, busy, u, 0);
    RestIsNew(blocks, rest, byName, p.first, t.p.first, range);
    e := LastTwo(rest, byName, t, range, busy, range.start + Total(blocks), u);
  }

  lemma RestIsNew(blocks: seq<Block>, rest: seq<Block>, byName: map<string, TemplatePort>, before: map<string, int>,
                  after: map<string, int>, range: Range)
    requires |rest| >= 2 && AllWait(blocks + rest, byName, before, range) && NewHeads(blocks, before, after)
    ensures rest[0].head !in after && rest[1].head !in after && rest[0].head != rest[1].head
  {
    var all, n := blocks + rest, |blocks|;
    assert all[n] == rest[0] && all[n + 1] == rest[1];
    assert Waits(all[n], byName, before, range) && Waits(all[n + 1], byName, before, range);
    forall k | 0 <= k < n ensures blocks[k].head != rest[0].head && blocks[k].head != rest[1].head {
      assert all[k] == blocks[k];
    }
  }

  lemma LastTwo(rest: seq<Block>, byName: map<string, TemplatePort>, t: Search, range: Range, busy: set<int>, hole: int,
                u: int)
    returns (e: PortError)
    requires |rest| >= 2 && rest[0].size > rest[1].size >= 1 && rest[0].head != rest[1].head
    requires rest[0].head !in t.p.first && rest[1].head !in t.p.first
    requires !(range.start <= Preferred(byName, rest[0].head) <= range.end)
    requires !(range.start <= Preferred(byName, rest[1].head) <= range.end)
    requires 1 <= range.start <= t.cursor <= hole && u == hole + rest[0].size - 1
    requires range.end == u + rest[0].size <= 65535 && Clear(busy, range.start, range.end)
    requires t.p.taken == FilledTo(busy, range.start, hole - range.start, u)
    ensures PlaceAuto(rest, byName, t, range) == Err(e)
    ensures e.NoRoom? && HasGap(e.taken, e.n, range.start, range.end)
  {
    Jumped(busy, range.start, hole, u, rest[0].size, rest[1].size, t.cursor, range.end);
    CursorPlaces(rest[0], byName, t, range, u + 1);
    var next := PlaceOne(rest[0], byName, t, range).value;
    CursorPlaces(rest[1], byName, next, range, range.end - rest[1].size + 2);
    e := PlaceOne(rest[1], byName, next, range).error;
    assert rest[1..][0] == rest[1];
  }

  // ---- a place for the descent, by counting ----

  lemma {:induction false} TotalOfMore(blocks: seq<Block>, b: Block)
    ensures Total(blocks + [b]) == Total(blocks) + b.size
  {
    if blocks == [] {
      assert [] + [b] == [b] && [b][1..] == [];
    } else {
      assert (blocks + [b])[1..] == blocks[1..] + [b];
      TotalOfMore(blocks[1..], b);
    }
  }

  lemma {:induction false} TotalOfChanged(blocks: seq<Block>, k: nat, b: Block)
    requires k < |blocks|
    ensures Total(blocks[k := b]) == Total(blocks) - blocks[k].size + b.size
  {
    if k == 0 {
      assert blocks[0 := b][1..] == blocks[1..];
    } else {
      assert blocks[k := b][1..] == blocks[1..][k - 1 := b];
      TotalOfChanged(blocks[1..], k - 1, b);
    }
  }

  lemma GrownTotal(s: Sizes, head: string, size: nat)
    requires WellKept(s) && 1 <= size <= (if head in s.size then s.size[head] else 0) + 1
    ensures Total(Entries(Grown(s, head, size))) <= Total(Entries(s)) + 1
  {
    var blocks := Entries(s);
    if head !in s.size {
      assert head !in s.order;
      assert Entries(Grown(s, head, size)) == blocks + [Block(head, size)];
      TotalOfMore(blocks, Block(head, size));
    } else {
      var k :| 0 <= k < |s.order| && s.order[k] == head;
      var b := Block(head, Grown(s, head, size).size[head]);
      assert Entries(Grown(s, head, size)) == blocks[k := b];
      TotalOfChanged(blocks, k, b);
    }
  }

  lemma {:induction false} PlaceReached(ports: seq<TemplatePort>, i: nat)
    requires Valid(ports) && i < |ports|
    ensures
      var size, h := SizesOf(ports, i).size, HeadName(ports, i);
      Offset(ports, i) <= if h in size then size[h] else 0
  {
    if ports[i].follows.None? {
      HeadPlace(ports, i);
    } else {
      assert FollowsEarlier(ports, i);
      var j :| 0 <= j < i && ports[j].name == ports[i].follows.value;
      FollowerPlace(ports, i, j);
      SizesMeasure(ports, i);
      assert Fits(ports, j, SizesOf(ports, i).size);
    }
  }

  lemma SizesStep(ports: seq<TemplatePort>, i: nat)
    requires 0 < i <= |ports|
    ensures SizesOf(ports, i) == Grown(SizesOf(ports, i - 1), HeadName(ports, i - 1), Offset(ports, i - 1) + 1)
  {
  }

  lemma {:induction false} NoneYet(ports: seq<TemplatePort>)
    ensures Total(Entries(SizesOf(ports, 0))) == 0
  {
  }

  lemma OneMorePort(ports: seq<TemplatePort>, i: nat)
    requires Valid(ports) && 0 < i <= |ports|
    ensures Total(Entries(SizesOf(ports, i))) <= Total(Entries(SizesOf(ports, i - 1))) + 1
  {
    SizesFacts(ports, i - 1);
    PlaceReached(ports, i - 1);
    SizesStep(ports, i);
    GrownTotal(SizesOf(ports, i - 1), HeadName(ports, i - 1), Offset(ports, i - 1) + 1);
  }

  /** The blocks of a valid template have no more ports than the template. */
  lemma {:induction false} TotalAtMost(ports: seq<TemplatePort>, i: nat)
    requires Valid(ports) && i <= |ports|
    ensures Total(Entries(SizesOf(ports, i))) <= i
  {
    if i == 0 {
      NoneYet(ports);
    } else {
      TotalAtMost(ports, i - 1);
      OneMorePort(ports, i);
    }
  }

  /** Of more windows side by side than there are points, one holds none of them. */
  lemma {:induction false} ClearWindow(points: seq<int>, lo: int, width: nat) returns (start: int)
    ensures lo <= start <= lo + |points| * width
    ensures forall i :: 0 <= i < |points| ==> !(start <= points[i] < start + width)
    decreases |points|
  {
    start := lo;
    if i :| 0 <= i < |points| && lo <= points[i] < lo + width {
      var rest := points[..i] + points[i + 1..];
      start := ClearWindow(rest, lo + width, width);
      assert |points| * width == |rest| * width + width;
      forall j | 0 <= j < |points| ensures !(start <= points[j] < start + width) {
        if j != i {
          assert points[j] == rest[if j < i then j else j - 1];
        }
      }
    }
  }

  function Run(start: int, n: nat): seq<int> { seq(n, i => start + i) }

  /** What a window for the unchosen blocks must not hold: their preferred ports, and the ports of the
      chosen blocks. */
  function Points(blocks: seq<Block>, choices: map<string, int>, byName: map<string, TemplatePort>): seq<int> {
    if blocks == [] then []
    else
      var Block(head, n) := blocks[0];
      (if head in choices then Run(choices[head], n) else [Preferred(byName, head)])
      + Points(blocks[1..], choices, byName)
  }

  lemma {:induction false} FewPoints(blocks: seq<Block>, choices: map<string, int>, byName: map<string, TemplatePort>)
    requires Sized(blocks)
    ensures |Points(blocks, choices, byName)| <= Total(blocks) && Total(Unchosen(blocks, choices)) <= Total(blocks)
  {
    if blocks != [] {
      FewPoints(blocks[1..], choices, byName);
      var rest := Unchosen(blocks[1..], choices);
      assert ([blocks[0]] + rest)[1..] == rest && [] + rest == rest;
    }
  }

  ghost predicate Avoids(points: seq<int>, start: int, width: nat) {
    forall i :: 0 <= i < |points| ==> !(start <= points[i] < start + width)
  }

  lemma AvoidsParts(a: seq<int>, b: seq<int>, start: int, width: nat)
    requires Avoids(a + b, start, width)
    ensures Avoids(a, start, width) && Avoids(b, start, width)
  {
    forall i | 0 <= i < |a| ensures !(start <= a[i] < start + width) {
      assert (a + b)[i] == a[i];
    }
    forall i | 0 <= i < |b| ensures !(start <= b[i] < start + width) {
      assert (a + b)[|a| + i] == b[i];
    }
  }

  lemma RunAvoided(from: int, n: nat, start: int, width: nat)
    requires Avoids(Run(from, n), start, width)
    ensures forall x :: x in Span(from, n) ==> !(start <= x < start + width)
  {
    forall x | x in Span(from, n) ensures !(start <= x < start + width) {
      assert Run(from, n)[x - from] == x;
    }
  }

  /** With the window clear, chosen blocks are placed as before when u, a port in it, is in use. */
  lemma {:induction false} ChosenElsewhere(blocks: seq<Block>, choices: map<string, int>,
                                           byName: map<string, TemplatePort>, p: Placed, u: int, start: int,
                                           width: nat)
    requires PlaceChosen(blocks, choices, p).Ok? && Avoids(Points(blocks, choices, byName), start, width)
    requires start <= u < start + width && forall x :: x in p.taken ==> !(start <= x < start + width)
    ensures
      var q := PlaceChosen(blocks, choices, p).value;
      && PlaceChosen(blocks, choices, Placed(p.taken + {u}, p.first)) == Ok(Placed(q.taken + {u}, q.first))
      && forall x :: x in q.taken ==> !(start <= x < start + width)
    decreases blocks
  {
    if blocks != [] {
      var Block(head, n) := blocks[0];
      var rest := Points(blocks[1..], choices, byName);
      if head in choices {
        AvoidsParts(Run(choices[head], n), rest, start, width);
        RunAvoided(choices[head], n, start, width);
        var next := Placed(p.taken + Span(choices[head], n), p.first[head := choices[head]]);
        ChosenElsewhere(blocks[1..], choices, byName, next, u, start, width);
        FreeElsewhere(p.taken, choices[head], n, u);
        assert p.taken + {u} + Span(choices[head], n) == next.taken + {u};
      } else {
        AvoidsParts([Preferred(byName, head)], rest, start, width);
        ChosenElsewhere(blocks[1..], choices, byName, p, u, start, width);
      }
    }
  }

  lemma FreeElsewhere(taken: set<int>, port: int, n: nat, u: int)
    requires BlockFree(taken, port, n) && u !in Span(port, n)
    ensures BlockFree(taken + {u}, port, n)
  {
    forall x | port <= x < port + n ensures Usable(taken + {u}, x) {
      assert Usable(taken, x) && x in Span(port, n);
    }
  }

  lemma {:induction false} UnchosenWait(blocks: seq<Block>, choices: map<string, int>,
                                        byName: map<string, TemplatePort>, first: map<string, int>, start: int,
                                        width: nat, range: Range)
    requires Sized(blocks) && Avoids(Points(blocks, choices, byName), start, width)
    requires start == range.start && range.end < start + width
    requires forall h :: h in first ==> h in choices
    ensures forall k :: 0 <= k < |Unchosen(blocks, choices)| ==>
              Waits(Unchosen(blocks, choices)[k], byName, first, range)
  {
    if blocks != [] {
      var Block(head, n) := blocks[0];
      var rest := Points(blocks[1..], choices, byName);
      if head in choices {
        AvoidsParts(Run(choices[head], n), rest, start, width);
      } else {
        AvoidsParts([Preferred(byName, head)], rest, start, width);
        assert [Preferred(byName, head)][0] == Preferred(byName, head);
      }
      UnchosenWait(blocks[1..], choices, byName, first, start, width, range);
    }
  }

  /** Where the unchosen blocks can be made to miss a gap. */
  lemma Window(ports: seq<TemplatePort>, choices: map<string, int>) returns (start: int)
    requires Valid(ports) && |ports| <= MAX_PORTS
    ensures
      var width := 2 * Total(Unchosen(BlocksOf(ports), choices));
      && 1 <= start && start + width <= 65536
      && Avoids(Points(BlocksOf(ports), choices, ByName(ports)), start, width)
  {
    var blocks := BlocksOf(ports);
    var points, width := Points(blocks, choices, ByName(ports)), 2 * Total(Unchosen(blocks, choices));
    SizesFacts(ports, |ports|);
    TotalAtMost(ports, |ports|);
    FewPoints(blocks, choices, ByName(ports));
    start := ClearWindow(points, 1, width);
    AtMostProduct(|points|, MAX_PORTS, width, 2 * MAX_PORTS);
  }

  lemma AtMostProduct(a: nat, b: nat, c: nat, d: nat)
    requires a <= b && c <= d
    ensures a * c <= b * d
  {
    assert a * c <= b * c <= b * d;
  }

  /** A block followed by a smaller one, both not chosen: some pool makes the cursor jump a gap the
      smaller one needs. */
  lemma DescentMisses(ports: seq<TemplatePort>, choices: map<string, int>, d: nat)
    returns (used: set<int>, range: Range)
    requires Valid(ports) && |ports| <= MAX_PORTS && choices.Keys <= ByName(ports).Keys
    requires PlaceChosen(BlocksOf(ports), choices, Placed({}, map[])).Ok?
    requires var auto := Unchosen(BlocksOf(ports), choices); d + 1 < |auto| && auto[d].size > auto[d + 1].size
    ensures Misses(ports, choices, used, range)
  {
    var blocks, byName := BlocksOf(ports), ByName(ports);
    var auto := Unchosen(blocks, choices);
    var width := 2 * Total(auto);
    var start := Window(ports, choices);
    SizesFacts(ports, |ports|);
    UnchosenDistinct(blocks, choices);
    TotalSplits(auto, d);
    assert auto[d..][0] == auto[d] && auto[d..][1] == auto[d + 1] && auto[d..][1..][0] == auto[d + 1];
    assert Total(auto[d..]) >= auto[d].size + auto[d + 1].size;
    var u := start + Total(auto[..d]) + auto[d].size - 1;
    used, range := {u}, Range(start, u + auto[d].size);
    var chosen := PlaceChosen(blocks, choices, Placed({}, map[])).value;
    ChosenElsewhere(blocks, choices, byName, Placed({}, map[]), u, start, width);
    assert {} + {u} == used;
    ChosenHaveRoom(blocks, choices, Placed({}, map[]));
    UnchosenWait(blocks, choices, byName, chosen.first, start, width, range);
    DescentInPool(ports, choices, d, chosen, u, range);
  }

  lemma {:induction false} DescentInPool(ports: seq<TemplatePort>, choices: map<string, int>, d: nat, chosen: Placed,
                                         u: int, range: Range)
    requires choices.Keys <= ByName(ports).Keys
    requires var auto := Unchosen(BlocksOf(ports), choices);
             && d + 1 < |auto| && AllWait(auto, ByName(ports), chosen.first, range)
             && Stage(auto[..d], auto[d..], ByName(ports), chosen.taken, u, range)
    requires PlaceChosen(BlocksOf(ports), choices, Placed({u}, map[])) == Ok(Placed(chosen.taken + {u}, chosen.first))
    requires forall h :: HasHead(BlocksOf(ports), h) && h in choices ==> h in chosen.first
    ensures Misses(ports, choices, {u}, range)
  {
    var auto := Unchosen(BlocksOf(ports), choices);
    var p := Placed(chosen.taken + {u}, chosen.first);
    AutoStepsOver(BlocksOf(ports), choices, ByName(ports), Search(p, range.start, 0), range);
    assert auto[..d] + auto[d..] == auto;
    var e := DescentFails(auto[..d], auto[d..], ByName(ports), p, chosen.taken, u, range);
  }

  /** No pool is given up on while its range still has a gap that fits. */
  ghost predicate Complete(ports: seq<TemplatePort>, choices: map<string, int>) {
    forall used, range :: !Misses(ports, choices, used, range)
  }

  /** With choices that can be placed, a template is served completely in every pool - whatever is in
      use and whatever the range - exactly when the blocks that are not chosen never get smaller from one
      to the next, in template order. */
  lemma {:induction false} CompleteIffNonDecreasing(ports: seq<TemplatePort>, choices: map<string, int>)
    requires Valid(ports) && |ports| <= MAX_PORTS && choices.Keys <= ByName(ports).Keys
    requires PlaceChosen(BlocksOf(ports), choices, Placed({}, map[])).Ok?
    ensures NonDecreasing(Unchosen(BlocksOf(ports), choices)) <==> Complete(ports, choices)
  {
    if NonDecreasing(Unchosen(BlocksOf(ports), choices)) {
      forall used, range ensures !Misses(ports, choices, used, range) {
        NonDecreasingNeverMisses(ports, choices, used, range);
      }
    } else {
      var d := Descent(Unchosen(BlocksOf(ports), choices));
      var used, range := DescentMisses(ports, choices, d);
    }
  }

  lemma Descent(blocks: seq<Block>) returns (d: nat)
    requires !NonDecreasing(blocks)
    ensures d + 1 < |blocks| && blocks[d].size > blocks[d + 1].size
  {
    d :| 0 <= d < |blocks| - 1 && blocks[d].size > blocks[d + 1].size;
  }
}
