/** Port allocation on a node's pool (server/src/modules/instances/ports.ts): where blocks are placed,
    and that a successful allocation is sound. */
module PortAllocator {
  import opened Common
  import opened PortTemplate

  datatype Allocation = Allocation(name: string, caption: string, protocol: string, port: int, primary: bool)

  datatype Range = Range(start: int, end: int)

  /** NoRoom also carries what the search saw: where it began, the ports taken by then and the widest
      block the cursor had placed before. */
  datatype PortError =
    | UnknownPort
    | NeedsRow(port: int, n: nat)
    | InUse(port: int)
    | NoRoom(n: nat, from: int, taken: set<int>, widest: nat)
    | Misplaced(name: string, head: string, offset: nat, port: int)

  // ---- placing ----

  predicate InSpan(x: int, start: int, n: nat) { start <= x < start + n }

  function Span(start: int, n: nat): set<int> { set x | start <= x < start + n && InSpan(x, start, n) }

  predicate Usable(taken: set<int>, x: int) { 1 <= x <= 65535 && x !in taken }

  predicate BlockFree(taken: set<int>, start: int, n: nat) {
    forall x :: start <= x < start + n ==> Usable(taken, x)
  }

  datatype Placed = Placed(taken: set<int>, first: map<string, int>)

  function ChosenError(taken: set<int>, port: int, n: nat): PortError
    decreases n
  {
    if n == 0 then NeedsRow(port, n)
    else
      match ChosenError(taken, port, n - 1)
      case InUse(busy) => InUse(busy)
      case _ => if port + n - 1 in taken then InUse(port + n - 1) else NeedsRow(port, n)
  }

  function PlaceChosen(blocks: seq<Block>, choices: map<string, int>, p: Placed): Result<Placed, PortError> {
    if blocks == [] then Ok(p)
    else
      var Block(head, n) := blocks[0];
      if head !in choices then PlaceChosen(blocks[1..], choices, p)
      else if !BlockFree(p.taken, choices[head], n) then Err(ChosenError(p.taken, choices[head], n))
      else PlaceChosen(blocks[1..], choices,
                       Placed(p.taken + Span(choices[head], n), p.first[head := choices[head]]))
  }

  /** The cursor moved to the next place for n ports, or past the last one. */
  function Advance(taken: set<int>, cursor: int, n: nat, end: int): int
    decreases end - cursor
  {
    if cursor + n - 1 <= end && n > 0 && !BlockFree(taken, cursor, n) then Advance(taken, cursor + 1, n, end)
    else cursor
  }

  function Preferred(byName: map<string, TemplatePort>, head: string): int {
    if head in byName then byName[head].preferred else 0
  }

  predicate PreferredFits(taken: set<int>, wanted: int, n: nat, range: Range) {
    range.start <= wanted && wanted + n - 1 <= range.end && BlockFree(taken, wanted, n)
  }

  /** The automatic pass: what is placed, where the cursor is, and the widest block it placed. */
  datatype Search = Search(p: Placed, cursor: int, widest: nat)

  function PlaceOne(b: Block, byName: map<string, TemplatePort>, s: Search, range: Range): Result<Search, PortError> {
    if b.head in s.p.first then Ok(s)
    else
      var wanted := Preferred(byName, b.head);
      if PreferredFits(s.p.taken, wanted, b.size, range) then
        Ok(s.(p := Placed(s.p.taken + Span(wanted, b.size), s.p.first[b.head := wanted])))
      else
        var next := Advance(s.p.taken, s.cursor, b.size, range.end);
        if next + b.size - 1 > range.end then Err(NoRoom(b.size, s.cursor, s.p.taken, s.widest))
        else Ok(Search(Placed(s.p.taken + Span(next, b.size), s.p.first[b.head := next]), next,
                       if s.widest < b.size then b.size else s.widest))
  }

  function PlaceAuto(blocks: seq<Block>, byName: map<string, TemplatePort>, s: Search, range: Range)
    : Result<Placed, PortError>
  {
    if blocks == [] then Ok(s.p)
    else
      match PlaceOne(blocks[0], byName, s, range)
      case Err(e) => Err(e)
      case Ok(next) => PlaceAuto(blocks[1..], byName, next, range)
  }

  /** The allocation of the first i ports, given where each block starts. */
  function Assigned(ports: seq<TemplatePort>, choices: map<string, int>, first: map<string, int>, i: nat)
    : Result<seq<Allocation>, PortError>
    requires i <= |ports|
  {
    if i == 0 then Ok([])
    else
      match Assigned(ports, choices, first, i - 1)
      case Err(e) => Err(e)
      case Ok(out) =>
        var p := ports[i - 1];
        var (head, offset) := Climb(ports, p, 0);
        var port := (if head.name in first then first[head.name] else 0) + offset;
        if offset > 0 && p.name in choices && choices[p.name] != port
        then Err(Misplaced(p.name, head.name, offset, port))
        else Ok(out + [Allocation(p.name, p.caption, p.protocol, port, p.primary)])
  }

  function Allocate(ports: seq<TemplatePort>, choices: map<string, int>, used: set<int>, range: Range)
    : Result<seq<Allocation>, PortError>
  {
    if !(choices.Keys <= ByName(ports).Keys) then Err(UnknownPort)
    else
      var blocks := BlocksOf(ports);
      match PlaceChosen(blocks, choices, Placed(used, map[]))
      case Err(e) => Err(e)
      case Ok(chosen) =>
        match PlaceAuto(blocks, ByName(ports), Search(chosen, range.start, 0), range)
        case Err(e) => Err(e)
        case Ok(placed) => Assigned(ports, choices, placed.first, |ports|)
  }

  // ---- allocatePorts ----

  method AllocatePorts(ports: seq<TemplatePort>, choices: map<string, int>, used: set<int>, range: Range)
    returns (r: Result<seq<Allocation>, PortError>)
    ensures r == Allocate(ports, choices, used, range)
  {
    var byName := map[];
    for i := 0 to |ports|
      invariant byName == ByName(ports[..i])
    {
      assert ports[..i + 1][..i] == ports[..i];
      byName := byName[ports[i].name := ports[i]];
    }
    assert ports[..|ports|] == ports;
    var sizes := Sizes([], map[]);
    for i := 0 to |ports|
      invariant sizes == SizesOf(ports, i)
    {
      var head, offset := HeadOf(ports, byName, ports[i]);
      sizes := Grown(sizes, head.name, offset + 1);
    }
    if !(choices.Keys <= byName.Keys) {
      return Err(UnknownPort);
    }
    var chosen := TakeChosen(Entries(sizes), choices, used);
    if chosen.Err? {
      return Err(chosen.error);
    }
    SizesFacts(ports, |ports|);
    var placed := TakeAutomatic(Entries(sizes), byName, chosen.value, range);
    if placed.Err? {
      return Err(placed.error);
    }
    r := AssignPorts(ports, byName, choices, placed.value.first);
  }

  method TakeChosen(blocks: seq<Block>, choices: map<string, int>, used: set<int>)
    returns (r: Result<Placed, PortError>)
    ensures r == PlaceChosen(blocks, choices, Placed(used, map[]))
  {
    var p := Placed(used, map[]);
    for i := 0 to |blocks|
      invariant PlaceChosen(blocks[i..], choices, p) == PlaceChosen(blocks, choices, Placed(used, map[]))
    {
      var Block(head, n) := blocks[i];
      assert blocks[i..][1..] == blocks[i + 1..];
      if head in choices {
        var port := choices[head];
        if !BlockFree(p.taken, port, n) {
          return Err(ChosenError(p.taken, port, n));
        }
        p := Placed(p.taken + Span(port, n), p.first[head := port]);
      }
    }
    assert blocks[|blocks|..] == [];
    return Ok(p);
  }

  method TakeAutomatic(blocks: seq<Block>, byName: map<string, TemplatePort>, chosen: Placed, range: Range)
    returns (r: Result<Placed, PortError>)
    requires Sized(blocks)
    ensures r == PlaceAuto(blocks, byName, Search(chosen, range.start, 0), range)
  {
    var p, cursor, widest := chosen, range.start, 0;
    for i := 0 to |blocks|
      invariant PlaceAuto(blocks[i..], byName, Search(p, cursor, widest), range)
             == PlaceAuto(blocks, byName, Search(chosen, range.start, 0), range)
    {
      var Block(head, n) := blocks[i];
      assert blocks[i..][1..] == blocks[i + 1..];
      if head !in p.first {
        var port := Preferred(byName, head);
        if !(range.start <= port && port + n - 1 <= range.end && BlockFree(p.taken, port, n)) {
          var from := cursor;
          while cursor + n - 1 <= range.end && !BlockFree(p.taken, cursor, n)
            invariant Advance(p.taken, cursor, n, range.end) == Advance(p.taken, from, n, range.end)
            decreases range.end - cursor
          {
            cursor := cursor + 1;
          }
          if cursor + n - 1 > range.end {
            return Err(NoRoom(n, from, p.taken, widest));
          }
          port := cursor;
          widest := if widest < n then n else widest;
        }
        p := Placed(p.taken + Span(port, n), p.first[head := port]);
      }
    }
    assert blocks[|blocks|..] == [];
    return Ok(p);
  }

  method AssignPorts(ports: seq<TemplatePort>, byName: map<string, TemplatePort>, choices: map<string, int>,
                     first: map<string, int>)
    returns (r: Result<seq<Allocation>, PortError>)
    requires byName == ByName(ports)
    ensures r == Assigned(ports, choices, first, |ports|)
  {
    var out: seq<Allocation> := [];
    for i := 0 to |ports|
      invariant Assigned(ports, choices, first, i) == Ok(out)
    {
      var p := ports[i];
      var head, offset := HeadOf(ports, byName, p);
      var port := (if head.name in first then first[head.name] else 0) + offset;
      if offset > 0 && p.name in choices && choices[p.name] != port {
        r := Err(Misplaced(p.name, head.name, offset, port));
        AssignedStops(ports, choices, first, i + 1, |ports|);
        return;
      }
      out := out + [Allocation(p.name, p.caption, p.protocol, port, p.primary)];
    }
    return Ok(out);
  }

  lemma {:induction false} AssignedStops(ports: seq<TemplatePort>, choices: map<string, int>, first: map<string, int>,
                                         i: nat, j: nat)
    requires i <= j <= |ports| && Assigned(ports, choices, first, i).Err?
    ensures Assigned(ports, choices, first, j) == Assigned(ports, choices, first, i)
  {
    if i < j {
      AssignedStops(ports, choices, first, i, j - 1);
    }
  }

  // ---- where blocks end up ----

  predicate Inside(first: map<string, int>, size: map<string, nat>, h: string, x: int) {
    h in first && h in size && first[h] <= x < first[h] + size[h]
  }

  /** Blocks lie apart from each other and from the ports in use, inside 1..65535, and with those make
      up what is taken. */
  ghost predicate Apart(p: Placed, used: set<int>, size: map<string, nat>) {
    && (forall h, x :: Inside(p.first, size, h, x) ==> 1 <= x <= 65535 && x !in used && x in p.taken)
    && (forall g, h, x :: Inside(p.first, size, g, x) && Inside(p.first, size, h, x) ==> g == h)
    && (forall x :: x in used ==> x in p.taken)
    && (forall x :: x in p.taken ==> x in used || exists h :: Inside(p.first, size, h, x))
  }

  lemma ApartOneMore(p: Placed, used: set<int>, size: map<string, nat>, head: string, port: int)
    requires Apart(p, used, size) && head !in p.first && head in size && BlockFree(p.taken, port, size[head])
    ensures Apart(Placed(p.taken + Span(port, size[head]), p.first[head := port]), used, size)
  {
    var q := Placed(p.taken + Span(port, size[head]), p.first[head := port]);
    forall x | x in Span(port, size[head]) ensures Usable(p.taken, x) {
    }
    assert forall h, x ::
      Inside(q.first, size, h, x) <==> Inside(p.first, size, h, x) || (h == head && x in Span(port, size[head]));
    forall x | x in q.taken ensures x in used || exists h :: Inside(q.first, size, h, x) {
      if x in Span(port, size[head]) {
        assert Inside(q.first, size, head, x);
      } else if x !in used {
        var h :| Inside(p.first, size, h, x);
        assert Inside(q.first, size, h, x);
      }
    }
  }

  ghost predicate SizedBy(blocks: seq<Block>, size: map<string, nat>) {
    forall k :: 0 <= k < |blocks| ==> blocks[k].head in size && size[blocks[k].head] == blocks[k].size >= 1
  }

  ghost predicate HasHead(blocks: seq<Block>, h: string) {
    exists k :: 0 <= k < |blocks| && blocks[k].head == h
  }

  lemma {:induction false} ChosenLand(blocks: seq<Block>, choices: map<string, int>, p: Placed, used: set<int>,
                                      size: map<string, nat>)
    requires SizedBy(blocks, size) && DistinctHeads(blocks) && Apart(p, used, size)
    requires forall h :: HasHead(blocks, h) ==> h !in p.first
    requires PlaceChosen(blocks, choices, p).Ok?
    ensures
      var q := PlaceChosen(blocks, choices, p).value;
      && Apart(q, used, size)
      && (forall h :: h in q.first <==> h in p.first || (HasHead(blocks, h) && h in choices))
      && (forall h :: h in q.first ==> q.first[h] == if h in p.first then p.first[h] else choices[h])
    decreases blocks
  {
    if blocks != [] {
      var Block(head, n) := blocks[0];
      assert HasHead(blocks, head);
      assert forall h :: HasHead(blocks, h) <==> h == head || HasHead(blocks[1..], h) by { HeadsOf(blocks); }
      if head in choices {
        ApartOneMore(p, used, size, head, choices[head]);
        ChosenLand(blocks[1..], choices, Placed(p.taken + Span(choices[head], n), p.first[head := choices[head]]),
                   used, size);
      } else {
        ChosenLand(blocks[1..], choices, p, used, size);
      }
    }
  }

  lemma HeadsOf(blocks: seq<Block>)
    requires blocks != []
    ensures forall h :: HasHead(blocks, h) <==> h == blocks[0].head || HasHead(blocks[1..], h)
  {
    forall h ensures HasHead(blocks, h) <==> h == blocks[0].head || HasHead(blocks[1..], h) {
      if HasHead(blocks[1..], h) {
        var k :| 0 <= k < |blocks[1..]| && blocks[1..][k].head == h;
        assert blocks[k + 1].head == h;
      }
      if HasHead(blocks, h) && h != blocks[0].head {
        var k :| 0 <= k < |blocks| && blocks[k].head == h;
        assert blocks[1..][k - 1].head == h;
      }
    }
  }

  lemma {:induction false} AdvanceStops(taken: set<int>, cursor: int, n: nat, end: int)
    requires n >= 1
    ensures
      var c := Advance(taken, cursor, n, end);
      && cursor <= c
      && (c + n - 1 <= end ==> BlockFree(taken, c, n))
      && (forall x :: cursor <= x < c ==> !BlockFree(taken, x, n))
    decreases end - cursor
  {
    if cursor + n - 1 <= end && !BlockFree(taken, cursor, n) {
      AdvanceStops(taken, cursor + 1, n, end);
    }
  }

  /** A port block h cannot have: it is no port, in use, or another block's. */
  ghost predicate InTheWay(q: Placed, used: set<int>, size: map<string, nat>, h: string, x: int) {
    x < 1 || x > 65535 || x in used || exists g :: g != h && Inside(q.first, size, g, x)
  }

  /** An automatic block lies in the range, at its preferred place unless something is in the way. */
  ghost predicate Suits(q: Placed, used: set<int>, size: map<string, nat>, range: Range, wanted: int, h: string)
    requires h in q.first && h in size
  {
    && range.start <= q.first[h] && q.first[h] + size[h] - 1 <= range.end
    && (|| q.first[h] == wanted
        || wanted < range.start || wanted + size[h] - 1 > range.end
        || exists x :: wanted <= x < wanted + size[h] && InTheWay(q, used, size, h, x))
  }

  lemma {:induction false} AutoLand(blocks: seq<Block>, byName: map<string, TemplatePort>, p: Placed, cursor: int,
                                    widest: nat, range: Range, used: set<int>, size: map<string, nat>)
    requires SizedBy(blocks, size) && DistinctHeads(blocks) && Apart(p, used, size) && range.start <= cursor
    requires PlaceAuto(blocks, byName, Search(p, cursor, widest), range).Ok?
    ensures
      var q := PlaceAuto(blocks, byName, Search(p, cursor, widest), range).value;
      && Apart(q, used, size)
      && (forall h :: h in q.first <==> h in p.first || HasHead(blocks, h))
      && (forall h :: h in p.first ==> q.first[h] == p.first[h])
      && (forall h :: HasHead(blocks, h) && h !in p.first ==> Suits(q, used, size, range, Preferred(byName, h), h))
    decreases blocks
  {
    if blocks != [] {
      var Block(head, n) := blocks[0];
      HeadsOf(blocks);
      if head in p.first {
        AutoLand(blocks[1..], byName, p, cursor, widest, range, used, size);
      } else {
        var wanted := Preferred(byName, head);
        AdvanceStops(p.taken, cursor, n, range.end);
        var fits := PreferredFits(p.taken, wanted, n, range);
        var port := if fits then wanted else Advance(p.taken, cursor, n, range.end);
        var p' := Placed(p.taken + Span(port, n), p.first[head := port]);
        ApartOneMore(p, used, size, head, port);
        AutoLand(blocks[1..], byName, p', if fits then cursor else port,
                 if fits then widest else if widest < n then n else widest, range, used, size);
        var q := PlaceAuto(blocks, byName, Search(p, cursor, widest), range).value;
        if !fits && range.start <= wanted && wanted + n - 1 <= range.end {
          var x :| wanted <= x < wanted + n && !Usable(p.taken, x);
          if x in p.taken && x !in used {
            var g :| Inside(p.first, size, g, x);
            assert Inside(q.first, size, g, x);
          }
          assert InTheWay(q, used, size, head, x);
        }
        assert Suits(q, used, size, range, wanted, head);
      }
    }
  }

  // ---- soundness ----

  /** A row is its port's, with an unused port number: the chosen one, or one of the range where its
      block's head is not chosen. */
  ghost predicate RowSound(ports: seq<TemplatePort>, choices: map<string, int>, used: set<int>, range: Range,
                           out: seq<Allocation>, i: nat)
    requires i < |ports| == |out|
  {
    var p, row := ports[i], out[i];
    && row == Allocation(p.name, p.caption, p.protocol, row.port, p.primary)
    && 1 <= row.port <= 65535 && row.port !in used
    && (p.name in choices ==> row.port == choices[p.name])
    && (HeadName(ports, i) !in choices ==> range.start <= row.port <= range.end)
  }

  ghost predicate Sound(ports: seq<TemplatePort>, choices: map<string, int>, used: set<int>, range: Range,
                        out: seq<Allocation>)
  {
    && |out| == |ports|
    && (forall i :: 0 <= i < |ports| ==> RowSound(ports, choices, used, range, out, i))
    && (forall i, j :: 0 <= i < j < |ports| ==> out[i].port != out[j].port)
    && (forall i, j :: 0 <= i < |ports| && 0 <= j < |ports| && ports[i].follows == Some(ports[j].name) ==>
          out[i].port == out[j].port + 1)
  }

  /** The out list places port i at its block's start plus its offset. */
  ghost predicate Follows(ports: seq<TemplatePort>, choices: map<string, int>, first: map<string, int>,
                          out: seq<Allocation>, i: nat)
    requires i < |ports| && i < |out|
  {
    && HeadName(ports, i) in first
    && out[i] == Allocation(ports[i].name, ports[i].caption, ports[i].protocol,
                            first[HeadName(ports, i)] + Offset(ports, i), ports[i].primary)
    && (Offset(ports, i) > 0 && ports[i].name in choices ==> choices[ports[i].name] == out[i].port)
  }

  lemma {:induction false} AssignedFollows(ports: seq<TemplatePort>, choices: map<string, int>,
                                           first: map<string, int>, n: nat)
    requires n <= |ports| && Assigned(ports, choices, first, n).Ok?
    requires forall i :: 0 <= i < |ports| ==> HeadName(ports, i) in first
    ensures
      var out := Assigned(ports, choices, first, n).value;
      |out| == n && forall i :: 0 <= i < n ==> Follows(ports, choices, first, out, i)
  {
    if n > 0 {
      AssignedFollows(ports, choices, first, n - 1);
      var before, out := Assigned(ports, choices, first, n - 1).value, Assigned(ports, choices, first, n).value;
      assert forall i :: 0 <= i < n - 1 ==> out[i] == before[i] && Follows(ports, choices, first, before, i);
    }
  }

  lemma {:induction false} HeadsHaveBlocks(ports: seq<TemplatePort>)
    ensures
      var sizes := SizesOf(ports, |ports|);
      && SizedBy(BlocksOf(ports), sizes.size) && DistinctHeads(BlocksOf(ports))
      && (forall h :: HasHead(BlocksOf(ports), h) <==> h in sizes.size)
      && Measures(ports, |ports|, sizes.size)
  {
    var sizes := SizesOf(ports, |ports|);
    SizesFacts(ports, |ports|);
    SizesMeasure(ports, |ports|);
    forall h ensures HasHead(BlocksOf(ports), h) <==> h in sizes.size {
      if h in sizes.size {
        assert h in sizes.order;
        var k :| 0 <= k < |sizes.order| && sizes.order[k] == h;
        assert BlocksOf(ports)[k].head == h;
      }
    }
  }

  /** Where the blocks lie. */
  ghost predicate BlocksLand(ports: seq<TemplatePort>, choices: map<string, int>, used: set<int>, range: Range,
                             q: Placed)
  {
    var size := SizesOf(ports, |ports|).size;
    && Apart(q, used, size) && q.first.Keys == size.Keys && Measures(ports, |ports|, size)
    && (forall h :: h in q.first && h in choices ==> q.first[h] == choices[h])
    && (forall h :: h in q.first && h !in choices ==> Suits(q, used, size, range, Preferred(ByName(ports), h), h))
  }

  /** Where a successful allocation put its blocks. */
  ghost predicate Lands(ports: seq<TemplatePort>, choices: map<string, int>, used: set<int>, range: Range, q: Placed,
                        out: seq<Allocation>)
  {
    && BlocksLand(ports, choices, used, range, q)
    && |out| == |ports| && (forall i :: 0 <= i < |ports| ==> Follows(ports, choices, q.first, out, i))
  }

  lemma {:induction false} ChosenPart(ports: seq<TemplatePort>, choices: map<string, int>, used: set<int>,
                                      chosen: Placed)
    requires PlaceChosen(BlocksOf(ports), choices, Placed(used, map[])) == Ok(chosen)
    ensures
      var size := SizesOf(ports, |ports|).size;
      && Apart(chosen, used, size)
      && (forall h :: h in chosen.first <==> h in size && h in choices)
      && (forall h :: h in chosen.first ==> chosen.first[h] == choices[h])
  {
    var size, p0 := SizesOf(ports, |ports|).size, Placed(used, map[]);
    HeadsHaveBlocks(ports);
    assert Apart(p0, used, size);
    ChosenLand(BlocksOf(ports), choices, p0, used, size);
  }

  lemma {:induction false} PlacedLand(ports: seq<TemplatePort>, choices: map<string, int>, used: set<int>,
                                      range: Range, chosen: Placed, q: Placed)
    requires PlaceChosen(BlocksOf(ports), choices, Placed(used, map[])) == Ok(chosen)
    requires PlaceAuto(BlocksOf(ports), ByName(ports), Search(chosen, range.start, 0), range) == Ok(q)
    ensures BlocksLand(ports, choices, used, range, q)
  {
    var size := SizesOf(ports, |ports|).size;
    ChosenPart(ports, choices, used, chosen);
    HeadsHaveBlocks(ports);
    AutoLand(BlocksOf(ports), ByName(ports), chosen, range.start, 0, range, used, size);
    assert q.first.Keys == size.Keys;
  }

  lemma HeadsIn(ports: seq<TemplatePort>, size: map<string, nat>)
    requires Measures(ports, |ports|, size)
    ensures forall i :: 0 <= i < |ports| ==> HeadName(ports, i) in size
  {
    forall i | 0 <= i < |ports| ensures HeadName(ports, i) in size {
      assert Fits(ports, i, size);
    }
  }

  lemma LandingAndRows(ports: seq<TemplatePort>, choices: map<string, int>, used: set<int>, range: Range,
                       out: seq<Allocation>)
    returns (q: Placed)
    requires Allocate(ports, choices, used, range) == Ok(out)
    ensures Lands(ports, choices, used, range, q, out)
    ensures Assigned(ports, choices, q.first, |ports|) == Ok(out)
  {
    var chosen := PlaceChosen(BlocksOf(ports), choices, Placed(used, map[])).value;
    q := PlaceAuto(BlocksOf(ports), ByName(ports), Search(chosen, range.start, 0), range).value;
    PlacedLand(ports, choices, used, range, chosen, q);
    HeadsIn(ports, SizesOf(ports, |ports|).size);
    AssignedFollows(ports, choices, q.first, |ports|);
  }

  lemma Landing(ports: seq<TemplatePort>, choices: map<string, int>, used: set<int>, range: Range, out: seq<Allocation>)
    returns (q: Placed)
    requires Allocate(ports, choices, used, range) == Ok(out)
    ensures Lands(ports, choices, used, range, q, out)
  {
    q := LandingAndRows(ports, choices, used, range, out);
  }

  lemma LandsInside(ports: seq<TemplatePort>, choices: map<string, int>, q: Placed, size: map<string, nat>,
                    out: seq<Allocation>, i: nat)
    requires i < |ports| == |out| && Measures(ports, |ports|, size)
    requires Follows(ports, choices, q.first, out, i)
    ensures Inside(q.first, size, HeadName(ports, i), out[i].port)
  {
    assert Fits(ports, i, size);
  }

  lemma LandApart(ports: seq<TemplatePort>, choices: map<string, int>, used: set<int>, q: Placed,
                  size: map<string, nat>, out: seq<Allocation>, i: nat, j: nat)
    requires Valid(ports) && i < j < |ports| == |out| && Measures(ports, |ports|, size) && Apart(q, used, size)
    requires Follows(ports, choices, q.first, out, i) && Follows(ports, choices, q.first, out, j)
    ensures out[i].port != out[j].port
  {
    LandsInside(ports, choices, q, size, out, i);
    LandsInside(ports, choices, q, size, out, j);
    PlaceInjective(ports, i, j);
  }

  lemma LandsSound(ports: seq<TemplatePort>, choices: map<string, int>, used: set<int>, range: Range, q: Placed,
                   out: seq<Allocation>, i: nat)
    requires Valid(ports) && Lands(ports, choices, used, range, q, out) && i < |ports|
    ensures RowSound(ports, choices, used, range, out, i)
  {
    assert Follows(ports, choices, q.first, out, i);
    LandsInside(ports, choices, q, SizesOf(ports, |ports|).size, out, i);
    if ports[i].follows.None? {
      HeadPlace(ports, i);
    } else {
      assert FollowsEarlier(ports, i);
      var j :| 0 <= j < i && ports[j].name == ports[i].follows.value;
      FollowerPlace(ports, i, j);
    }
  }

  /** A successful allocation is sound, whatever the template's preferred ports, the operator's choices,
      the ports in use and the node's range. */
  lemma AllocationSound(ports: seq<TemplatePort>, choices: map<string, int>, used: set<int>, range: Range,
                        out: seq<Allocation>)
    requires Valid(ports) && Allocate(ports, choices, used, range) == Ok(out)
    ensures Sound(ports, choices, used, range, out)
  {
    var size := SizesOf(ports, |ports|).size;
    var q := Landing(ports, choices, used, range, out);
    forall i | 0 <= i < |ports| ensures RowSound(ports, choices, used, range, out, i) {
      LandsSound(ports, choices, used, range, q, out, i);
    }
    forall i, j | 0 <= i < j < |ports| ensures out[i].port != out[j].port {
      assert Follows(ports, choices, q.first, out, i) && Follows(ports, choices, q.first, out, j);
      LandApart(ports, choices, used, q, size, out, i, j);
    }
    forall i, j | 0 <= i < |ports| && 0 <= j < |ports| && ports[i].follows == Some(ports[j].name)
      ensures out[i].port == out[j].port + 1
    {
      FollowerPlace(ports, i, j);
      assert Follows(ports, choices, q.first, out, i) && Follows(ports, choices, q.first, out, j);
    }
  }

  lemma PortAt(ports: seq<TemplatePort>, size: map<string, nat>, h: string, k: nat) returns (j: nat)
    requires Valid(ports) && Measures(ports, |ports|, size) && h in size && k < size[h]
    ensures j < |ports| && HeadName(ports, j) == h && Offset(ports, j) == k
  {
    var last :| 0 <= last < |ports| && Ends(ports, last, h, size[h]);
    j := PlaceFull(ports, last, k);
  }

  /** Every place inside a block is some port's. */
  lemma InsideIsPort(ports: seq<TemplatePort>, choices: map<string, int>, q: Placed, size: map<string, nat>,
                     out: seq<Allocation>, h: string, x: int) returns (j: nat)
    requires Valid(ports) && |ports| == |out| && Measures(ports, |ports|, size) && Inside(q.first, size, h, x)
    requires forall i :: 0 <= i < |ports| ==> Follows(ports, choices, q.first, out, i)
    ensures j < |ports| && HeadName(ports, j) == h && out[j].port == x
  {
    j := PortAt(ports, size, h, x - q.first[h]);
    assert Follows(ports, choices, q.first, out, j);
  }

  lemma PreferredUnlessMet(q: Placed, used: set<int>, size: map<string, nat>, range: Range, wanted: int, h: string,
                           n: nat)
    requires h in q.first && h in size && size[h] <= n && Suits(q, used, size, range, wanted, h)
    requires range.start <= wanted && wanted + n - 1 <= range.end
    requires BlockFree(used, wanted, n)
    requires forall g, x :: g != h && wanted <= x < wanted + n ==> !Inside(q.first, size, g, x)
    ensures q.first[h] == wanted
  {
    forall x | wanted <= x < wanted + size[h] ensures !InTheWay(q, used, size, h, x) {
      assert Usable(used, x);
      forall g | g != h ensures !Inside(q.first, size, g, x) {
      }
    }
  }

  /** An automatic block of at most n ports lies at its preferred place unless that leaves the range or
      meets a port in use or a port of another block. */
  lemma PreferredHonoured(ports: seq<TemplatePort>, choices: map<string, int>, used: set<int>, range: Range,
                          out: seq<Allocation>, i: nat, n: nat)
    requires Valid(ports) && i < |ports| == |out| && ports[i].follows.None? && ports[i].name !in choices
    requires Allocate(ports, choices, used, range) == Ok(out)
    requires forall j :: 0 <= j < |ports| && HeadName(ports, j) == ports[i].name ==> Offset(ports, j) < n
    requires range.start <= ports[i].preferred && ports[i].preferred + n - 1 <= range.end
    requires BlockFree(used, ports[i].preferred, n)
    requires forall j :: 0 <= j < |ports| && HeadName(ports, j) != ports[i].name ==>
               !(ports[i].preferred <= out[j].port < ports[i].preferred + n)
    ensures out[i].port == ports[i].preferred
  {
    var q := Landing(ports, choices, used, range, out);
    var size, h, wanted := SizesOf(ports, |ports|).size, ports[i].name, ports[i].preferred;
    HeadPlace(ports, i);
    ByNameFinds(ports, i);
    assert Follows(ports, choices, q.first, out, i);
    forall g, x | g != h && wanted <= x < wanted + n ensures !Inside(q.first, size, g, x) {
      if Inside(q.first, size, g, x) {
        var j := InsideIsPort(ports, choices, q, size, out, g, x);
      }
    }
    assert size[h] <= n;
    PreferredUnlessMet(q, used, size, range, wanted, h, n);
  }
}
