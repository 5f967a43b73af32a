/** Re-allocating an instance's ports when it is updated (server/src/modules/instances/service.ts). */
module PortUpdate {
  import opened Common
  import opened PortTemplate
  import opened PortAllocator
  import PortCursor

  // ---- re-allocating on an update ----

  /** The choices an update allocates with: the caller's, and the current port of every other port
      that follows none. */
  function Kept(ports: seq<TemplatePort>, rows: seq<Allocation>, wanted: map<string, int>): map<string, int> {
    if rows == [] then wanted
    else
      var row := rows[|rows| - 1];
      var choices := Kept(ports, rows[..|rows| - 1], wanted);
      var found := Find(ports, row.name);
      if row.name !in choices && found.Some? && found.value.follows.None? then choices[row.name := row.port]
      else choices
  }

  method UpdateChoices(ports: seq<TemplatePort>, rows: seq<Allocation>, wanted: map<string, int>)
    returns (choices: map<string, int>)
    ensures choices == Kept(ports, rows, wanted)
  {
    choices := wanted;
    for i := 0 to |rows|
      invariant choices == Kept(ports, rows[..i], wanted)
    {
      assert rows[..i + 1][..i] == rows[..i];
      var found := Find(ports, rows[i].name);
      if rows[i].name !in choices && found.Some? && found.value.follows.None? {
        choices := choices[rows[i].name := rows[i].port];
      }
    }
    assert rows[..|rows|] == rows;
  }

  /** The port an instance has under a name: that of its first row. */
  function PortOf(rows: seq<Allocation>, name: string): Option<int> {
    if rows == [] then None else if rows[0].name == name then Some(rows[0].port) else PortOf(rows[1..], name)
  }

  /** The template has a port of that name that follows none. */
  predicate Leads(ports: seq<TemplatePort>, name: string) {
    Find(ports, name).Some? && Find(ports, name).value.follows.None?
  }

  lemma {:induction false} PortOfMore(rows: seq<Allocation>, row: Allocation, name: string)
    ensures PortOf(rows + [row], name) ==
            if PortOf(rows, name).Some? then PortOf(rows, name) else if row.name == name then Some(row.port) else None
  {
    if rows == [] {
      assert [] + [row] == [row];
    } else {
      assert (rows + [row])[1..] == rows[1..] + [row];
      PortOfMore(rows[1..], row, name);
    }
  }

  /** Whatever rows the instance has, in whatever order and from whichever version of the template: the
      choices are the caller's, and the current port of every other port that now follows none. */
  lemma {:induction false} KeptChoices(ports: seq<TemplatePort>, rows: seq<Allocation>, wanted: map<string, int>,
                                       h: string)
    ensures
      var choices := Kept(ports, rows, wanted);
      && (h in choices <==> h in wanted || (Leads(ports, h) && PortOf(rows, h).Some?))
      && (h in choices ==> choices[h] == if h in wanted then wanted[h] else PortOf(rows, h).value)
  {
    if rows != [] {
      var before, row := rows[..|rows| - 1], rows[|rows| - 1];
      assert rows == before + [row];
      KeptChoices(ports, before, wanted, h);
      KeptChoices(ports, before, wanted, row.name);
      PortOfMore(before, row, h);
    }
  }

  lemma HeadIndex(ports: seq<TemplatePort>, i: nat) returns (k: nat)
    requires Valid(ports) && i < |ports|
    ensures k < |ports| && ports[k].follows.None? && ports[k].name == HeadName(ports, i)
    ensures HeadName(ports, k) == ports[k].name && Offset(ports, k) == 0 && Leads(ports, ports[k].name)
  {
    ClimbIsChain(ports, i, 0);
    k := Chain(ports, i).0;
    ClimbIsChain(ports, k, 0);
    FindFinds(ports, k);
  }

  /** An update that succeeds starts every block whose head was not chosen anew where the head's row had
      it, even if the template has changed since the rows were made. */
  lemma {:induction false} UpdateKeepsHeads(ports: seq<TemplatePort>, rows: seq<Allocation>, wanted: map<string, int>,
                                            used: set<int>, range: Range, out: seq<Allocation>, i: nat)
    requires Valid(ports) && Allocate(ports, Kept(ports, rows, wanted), used, range) == Ok(out)
    requires i < |ports| && HeadName(ports, i) !in wanted && PortOf(rows, HeadName(ports, i)).Some?
    ensures i < |out| && out[i].port == PortOf(rows, HeadName(ports, i)).value + Offset(ports, i)
  {
    var q := Landing(ports, Kept(ports, rows, wanted), used, range, out);
    var k := HeadIndex(ports, i);
    KeptChoices(ports, rows, wanted, HeadName(ports, i));
    assert Follows(ports, Kept(ports, rows, wanted), q.first, out, i);
  }

  // ---- rows made under an earlier version of the template ----

  /** The instance's rows are those an allocation made, in any order. */
  ghost predicate Holds(rows: seq<Allocation>, made: seq<Allocation>) {
    forall j :: 0 <= j < |made| ==> PortOf(rows, made[j].name) == Some(made[j].port)
  }

  /** Port j of the earlier template and port i of this one have the same place in the same block. */
  predicate SamePlace(before: seq<TemplatePort>, j: nat, ports: seq<TemplatePort>, i: nat)
    requires j < |before| && i < |ports|
  {
    HeadName(before, j) == HeadName(ports, i) && Offset(before, j) == Offset(ports, i)
  }

  /** An allocation made for before that gave row made[j] its port. */
  lemma {:induction false} MadeAt(before: seq<TemplatePort>, choices0: map<string, int>, q0: Placed,
                                  made: seq<Allocation>, rows: seq<Allocation>, j: nat)
    requires Valid(before) && j < |before| == |made| && Holds(rows, made)
    requires forall i :: 0 <= i < |before| ==> Follows(before, choices0, q0.first, made, i)
    ensures HeadName(before, j) in q0.first && made[j].port == q0.first[HeadName(before, j)] + Offset(before, j)
    ensures PortOf(rows, HeadName(before, j)) == Some(q0.first[HeadName(before, j)])
  {
    var k := HeadIndex(before, j);
    assert Follows(before, choices0, q0.first, made, j) && Follows(before, choices0, q0.first, made, k);
  }

  /** An update that succeeds leaves every port where it was, as long as its place in its block has not
      changed and its head was not chosen anew - whatever else changed in the template, the range, and
      what other instances use. */
  lemma {:induction false} UpdateKeepsBlocks(before: seq<TemplatePort>, choices0: map<string, int>, used0: set<int>,
                                             range0: Range, made: seq<Allocation>, rows: seq<Allocation>,
                                             ports: seq<TemplatePort>, wanted: map<string, int>, used: set<int>,
                                             range: Range, out: seq<Allocation>, j: nat, i: nat)
    requires Valid(before) && Allocate(before, choices0, used0, range0) == Ok(made) && Holds(rows, made)
    requires Valid(ports) && Allocate(ports, Kept(ports, rows, wanted), used, range) == Ok(out)
    requires j < |before| && i < |ports| && SamePlace(before, j, ports, i) && HeadName(ports, i) !in wanted
    ensures j < |made| && i < |out| && out[i].port == made[j].port
  {
    var q0 := Landing(before, choices0, used0, range0, made);
    MadeAt(before, choices0, q0, made, rows, j);
    UpdateKeepsHeads(ports, rows, wanted, used, range, out, i);
  }

  // ---- an update that chooses nothing ----

  /** Every port of this template has its place in the earlier one: ports may be gone or in another order,
      and everything but their places may differ. */
  ghost predicate Within(ports: seq<TemplatePort>, before: seq<TemplatePort>) {
    forall i :: 0 <= i < |ports| ==> PlaceIn(before, ports, i)
  }

  ghost predicate PlaceIn(before: seq<TemplatePort>, ports: seq<TemplatePort>, i: nat)
    requires i < |ports|
  {
    exists j :: 0 <= j < |before| && SamePlace(before, j, ports, i)
  }

  /** No other instance uses a port that stays. */
  ghost predicate StayingUnused(ports: seq<TemplatePort>, before: seq<TemplatePort>, made: seq<Allocation>,
                                used: set<int>)
    requires |made| == |before|
  {
    forall i, j :: 0 <= i < |ports| && 0 <= j < |before| && SamePlace(before, j, ports, i) ==> made[j].port !in used
  }

  ghost predicate Repeats(blocks: seq<Block>, choices: map<string, int>, first: map<string, int>) {
    forall k :: 0 <= k < |blocks| ==>
      blocks[k].head in choices && blocks[k].head in first && choices[blocks[k].head] == first[blocks[k].head]
  }

  lemma BlockAgain(head: string, n: nat, port: int, p: Placed, used: set<int>, first: map<string, int>,
                   size: map<string, nat>)
    requires head in size && size[head] == n && head in first && first[head] == port && head !in p.first
    requires forall h, x :: Inside(first, size, h, x) ==> 1 <= x <= 65535 && x !in used
    requires forall g, h, x :: Inside(first, size, g, x) && Inside(first, size, h, x) ==> g == h
    requires forall x :: x in p.taken ==> x in used || exists g :: g in p.first && Inside(first, size, g, x)
    ensures BlockFree(p.taken, port, n)
  {
    forall x | port <= x < port + n ensures Usable(p.taken, x) {
      assert Inside(first, size, head, x);
      assert x !in used;
    }
  }

  /** Blocks that lay apart before can be placed again in the same order. */
  lemma {:induction false} ChosenAgain(blocks: seq<Block>, choices: map<string, int>, p: Placed, used: set<int>,
                                       first: map<string, int>, size: map<string, nat>)
    requires SizedBy(blocks, size) && DistinctHeads(blocks) && Repeats(blocks, choices, first)
    requires forall h, x :: Inside(first, size, h, x) ==> 1 <= x <= 65535 && x !in used
    requires forall g, h, x :: Inside(first, size, g, x) && Inside(first, size, h, x) ==> g == h
    requires forall h :: HasHead(blocks, h) ==> h !in p.first
    requires forall x :: x in p.taken ==> x in used || exists g :: g in p.first && Inside(first, size, g, x)
    requires forall h :: h in p.first ==> h in first && p.first[h] == first[h]
    ensures
      var r := PlaceChosen(blocks, choices, p);
      && r.Ok?
      && (forall h :: h in r.value.first <==> h in p.first || HasHead(blocks, h))
      && (forall h :: h in r.value.first ==> h in first && r.value.first[h] == first[h])
    decreases blocks
  {
    if blocks != [] {
      var Block(head, n) := blocks[0];
      HeadsOf(blocks);
      assert HasHead(blocks, head);
      var port := choices[head];
      BlockAgain(head, n, port, p, used, first, size);
      var q := Placed(p.taken + Span(port, n), p.first[head := port]);
      forall x | x in q.taken ensures x in used || exists g :: g in q.first && Inside(first, size, g, x) {
        if x in Span(port, n) {
          assert Inside(first, size, head, x);
        } else if x !in used {
          var g :| g in p.first && Inside(first, size, g, x);
          assert g in q.first;
        }
      }
      ChosenAgain(blocks[1..], choices, q, used, first, size);
    }
  }

  lemma {:induction false} AutoIdle(blocks: seq<Block>, byName: map<string, TemplatePort>, p: Placed, cursor: int,
                                    widest: nat, range: Range)
    requires forall h :: HasHead(blocks, h) ==> h in p.first
    ensures PlaceAuto(blocks, byName, Search(p, cursor, widest), range) == Ok(p)
    decreases blocks
  {
    if blocks != [] {
      HeadsOf(blocks);
      assert HasHead(blocks, blocks[0].head);
      AutoIdle(blocks[1..], byName, p, cursor, widest, range);
    }
  }

  /** With only heads chosen, no follower's choice contradicts its place. */
  lemma {:induction false} AssignedOk(ports: seq<TemplatePort>, choices: map<string, int>, first: map<string, int>,
                                      n: nat)
    requires n <= |ports|
    requires forall i :: 0 <= i < |ports| && ports[i].name in choices ==> Offset(ports, i) == 0
    ensures Assigned(ports, choices, first, n).Ok?
  {
    if n > 0 {
      AssignedOk(ports, choices, first, n - 1);
      assert ports[n - 1].name in choices ==> Offset(ports, n - 1) == 0;
    }
  }

  /** A block is no longer than it was. */
  lemma {:induction false} NotLonger(ports: seq<TemplatePort>, before: seq<TemplatePort>, h: string)
    requires Within(ports, before) && h in SizesOf(ports, |ports|).size
    ensures h in SizesOf(before, |before|).size
    ensures SizesOf(ports, |ports|).size[h] <= SizesOf(before, |before|).size[h]
  {
    SizesMeasure(ports, |ports|);
    SizesMeasure(before, |before|);
    var size := SizesOf(ports, |ports|).size;
    assert Ended(ports, |ports|, h, size[h]);
    var i :| 0 <= i < |ports| && Ends(ports, i, h, size[h]);
    assert PlaceIn(before, ports, i);
    var j :| 0 <= j < |before| && SamePlace(before, j, ports, i);
    assert Fits(before, j, SizesOf(before, |before|).size);
  }

  /** The ports that have a place in this template's block h, and had it in the earlier one's. */
  lemma Counterparts(ports: seq<TemplatePort>, before: seq<TemplatePort>, h: string, k: nat) returns (i: nat, j: nat)
    requires Valid(ports) && Within(ports, before)
    requires h in SizesOf(ports, |ports|).size && k < SizesOf(ports, |ports|).size[h]
    ensures i < |ports| && j < |before| && SamePlace(before, j, ports, i)
    ensures HeadName(before, j) == h && Offset(before, j) == k
  {
    SizesMeasure(ports, |ports|);
    i := PortAt(ports, SizesOf(ports, |ports|).size, h, k);
    assert PlaceIn(before, ports, i);
    j :| 0 <= j < |before| && SamePlace(before, j, ports, i);
  }

  lemma {:induction false} StaysUnused(ports: seq<TemplatePort>, before: seq<TemplatePort>,
                                       choices0: map<string, int>, q0: Placed, made: seq<Allocation>,
                                       rows: seq<Allocation>, used: set<int>, h: string, x: int)
    requires Valid(before) && Valid(ports) && Within(ports, before) && |made| == |before| && Holds(rows, made)
    requires forall j :: 0 <= j < |before| ==> Follows(before, choices0, q0.first, made, j)
    requires StayingUnused(ports, before, made, used) && Inside(q0.first, SizesOf(ports, |ports|).size, h, x)
    ensures x !in used
  {
    var i, j := Counterparts(ports, before, h, x - q0.first[h]);
    MadeAt(before, choices0, q0, made, rows, j);
  }

  lemma {:induction false} StaysInside(ports: seq<TemplatePort>, before: seq<TemplatePort>,
                                       choices0: map<string, int>, q0: Placed, made: seq<Allocation>,
                                       rows: seq<Allocation>, used: set<int>, h: string, x: int)
    requires Valid(before) && Valid(ports) && Within(ports, before) && |made| == |before| && Holds(rows, made)
    requires forall j :: 0 <= j < |before| ==> Follows(before, choices0, q0.first, made, j)
    requires StayingUnused(ports, before, made, used) && Inside(q0.first, SizesOf(ports, |ports|).size, h, x)
    ensures Inside(q0.first, SizesOf(before, |before|).size, h, x) && x !in used
  {
    NotLonger(ports, before, h);
    StaysUnused(ports, before, choices0, q0, made, rows, used, h, x);
  }

  /** The blocks of this template, put where the earlier allocation had them, lie apart and are unused. */
  lemma {:induction false} StayApart(ports: seq<TemplatePort>, before: seq<TemplatePort>, choices0: map<string, int>,
                                     q0: Placed, made: seq<Allocation>, rows: seq<Allocation>, used0: set<int>,
                                     used: set<int>)
    requires Valid(before) && Valid(ports) && Within(ports, before) && |made| == |before|
    requires Apart(q0, used0, SizesOf(before, |before|).size) && Holds(rows, made)
    requires forall j :: 0 <= j < |before| ==> Follows(before, choices0, q0.first, made, j)
    requires StayingUnused(ports, before, made, used)
    ensures
      var size := SizesOf(ports, |ports|).size;
      && (forall h, x :: Inside(q0.first, size, h, x) ==> 1 <= x <= 65535 && x !in used)
      && (forall g, h, x :: Inside(q0.first, size, g, x) && Inside(q0.first, size, h, x) ==> g == h)
  {
    var size, size0 := SizesOf(ports, |ports|).size, SizesOf(before, |before|).size;
    forall h, x | Inside(q0.first, size, h, x) ensures Inside(q0.first, size0, h, x) && x !in used {
      StaysInside(ports, before, choices0, q0, made, rows, used, h, x);
    }
  }

  lemma {:induction false} HeadsRepeat(ports: seq<TemplatePort>, before: seq<TemplatePort>,
                                       choices0: map<string, int>, q0: Placed, made: seq<Allocation>,
                                       rows: seq<Allocation>)
    requires Valid(before) && Valid(ports) && Within(ports, before) && |made| == |before| && Holds(rows, made)
    requires forall j :: 0 <= j < |before| ==> Follows(before, choices0, q0.first, made, j)
    ensures Repeats(BlocksOf(ports), Kept(ports, rows, map[]), q0.first)
  {
    HeadsHaveBlocks(ports);
    var blocks, size := BlocksOf(ports), SizesOf(ports, |ports|).size;
    forall b | 0 <= b < |blocks|
      ensures
        var h := blocks[b].head;
        h in Kept(ports, rows, map[]) && h in q0.first && Kept(ports, rows, map[])[h] == q0.first[h]
    {
      assert HasHead(blocks, blocks[b].head);
      var i := PortAt(ports, size, blocks[b].head, 0);
      HeadRepeats(ports, before, choices0, q0, made, rows, i);
    }
  }

  lemma {:induction false} HeadRepeats(ports: seq<TemplatePort>, before: seq<TemplatePort>,
                                       choices0: map<string, int>, q0: Placed, made: seq<Allocation>,
                                       rows: seq<Allocation>, i: nat)
    requires Valid(before) && Valid(ports) && Within(ports, before) && |made| == |before| && Holds(rows, made)
    requires forall j :: 0 <= j < |before| ==> Follows(before, choices0, q0.first, made, j)
    requires i < |ports|
    ensures
      var h := HeadName(ports, i);
      h in Kept(ports, rows, map[]) && h in q0.first && Kept(ports, rows, map[])[h] == q0.first[h]
  {
    var _ := HeadIndex(ports, i);
    assert PlaceIn(before, ports, i);
    var j :| 0 <= j < |before| && SamePlace(before, j, ports, i);
    MadeAt(before, choices0, q0, made, rows, j);
    KeptChoices(ports, rows, map[], HeadName(ports, i));
  }

  lemma {:induction false} LeaderIndex(ports: seq<TemplatePort>, h: string) returns (i: nat)
    requires Leads(ports, h)
    ensures i < |ports| && ports[i].name == h && ports[i].follows.None?
  {
    if ports[0].name == h {
      i := 0;
    } else {
      var k := LeaderIndex(ports[1..], h);
      i := k + 1;
    }
  }

  lemma {:induction false} OnlyHeadsChosen(ports: seq<TemplatePort>, rows: seq<Allocation>)
    requires Valid(ports)
    ensures Kept(ports, rows, map[]).Keys <= ByName(ports).Keys
    ensures forall i :: 0 <= i < |ports| && ports[i].name in Kept(ports, rows, map[]) ==> Offset(ports, i) == 0
  {
    forall h | h in Kept(ports, rows, map[]) ensures h in ByName(ports) {
      KeptChoices(ports, rows, map[], h);
      var i := LeaderIndex(ports, h);
      ByNameFinds(ports, i);
    }
    forall i | 0 <= i < |ports| && ports[i].name in Kept(ports, rows, map[]) ensures Offset(ports, i) == 0 {
      KeptChoices(ports, rows, map[], ports[i].name);
      var k := LeaderIndex(ports, ports[i].name);
      assert i == k;
      HeadPlace(ports, i);
    }
  }

  lemma {:induction false} AllocatedAgain(ports: seq<TemplatePort>, rows: seq<Allocation>, first: map<string, int>,
                                          used: set<int>, range: Range)
    requires Valid(ports) && Repeats(BlocksOf(ports), Kept(ports, rows, map[]), first)
    requires
      var size := SizesOf(ports, |ports|).size;
      && (forall h, x :: Inside(first, size, h, x) ==> 1 <= x <= 65535 && x !in used)
      && (forall g, h, x :: Inside(first, size, g, x) && Inside(first, size, h, x) ==> g == h)
    ensures Allocate(ports, Kept(ports, rows, map[]), used, range).Ok?
  {
    var blocks, choices, size := BlocksOf(ports), Kept(ports, rows, map[]), SizesOf(ports, |ports|).size;
    HeadsHaveBlocks(ports);
    OnlyHeadsChosen(ports, rows);
    ChosenAgain(blocks, choices, Placed(used, map[]), used, first, size);
    var p := PlaceChosen(blocks, choices, Placed(used, map[])).value;
    AutoIdle(blocks, ByName(ports), p, range.start, 0, range);
    AssignedOk(ports, choices, p.first, |ports|);
  }

  /** An update that chooses no port, with no port that stays used by another instance, succeeds - under
      the template the rows were made with, or a later one in which every port has a place it had - and
      every port keeps its number, even outside the range, if the node's range changed. */
  lemma {:induction false} UpdateWithoutChoices(before: seq<TemplatePort>, choices0: map<string, int>,
                                                used0: set<int>, range0: Range, made: seq<Allocation>,
                                                rows: seq<Allocation>, ports: seq<TemplatePort>, used: set<int>,
                                                range: Range)
    requires Valid(before) && Allocate(before, choices0, used0, range0) == Ok(made) && Holds(rows, made)
    requires Valid(ports) && Within(ports, before)
    requires |made| == |before| ==> StayingUnused(ports, before, made, used)
    ensures |made| == |before|
    ensures
      var r := Allocate(ports, Kept(ports, rows, map[]), used, range);
      && r.Ok? && |r.value| == |ports|
      && forall i, j :: 0 <= i < |ports| && 0 <= j < |before| && SamePlace(before, j, ports, i) ==>
           r.value[i].port == made[j].port
  {
    var q0 := Landing(before, choices0, used0, range0, made);
    StayApart(ports, before, choices0, q0, made, rows, used0, used);
    HeadsRepeat(ports, before, choices0, q0, made, rows);
    AllocatedAgain(ports, rows, q0.first, used, range);
    var out := Allocate(ports, Kept(ports, rows, map[]), used, range).value;
    forall i, j | 0 <= i < |ports| && 0 <= j < |before| && SamePlace(before, j, ports, i)
      ensures i < |out| && out[i].port == made[j].port
    {
      UpdateKeepsBlocks(before, choices0, used0, range0, made, rows, ports, map[], used, range, out, j, i);
    }
    var q := Landing(ports, Kept(ports, rows, map[]), used, range, out);
  }

  /** With the template unchanged, that is the very same allocation. */
  lemma {:induction false} UpdateChangesNothing(ports: seq<TemplatePort>, choices0: map<string, int>, used0: set<int>,
                                                range0: Range, made: seq<Allocation>, rows: seq<Allocation>,
                                                used: set<int>, range: Range)
    requires Valid(ports) && Allocate(ports, choices0, used0, range0) == Ok(made) && Holds(rows, made)
    requires forall j :: 0 <= j < |made| ==> made[j].port !in used
    ensures Allocate(ports, Kept(ports, rows, map[]), used, range) == Ok(made)
  {
    var q0 := Landing(ports, choices0, used0, range0, made);
    forall i | 0 <= i < |ports| ensures PlaceIn(ports, ports, i) {
      assert SamePlace(ports, i, ports, i);
    }
    UpdateWithoutChoices(ports, choices0, used0, range0, made, rows, ports, used, range);
    var out := Allocate(ports, Kept(ports, rows, map[]), used, range).value;
    var q := Landing(ports, Kept(ports, rows, map[]), used, range, out);
    forall i | 0 <= i < |ports| ensures out[i] == made[i] {
      assert SamePlace(ports, i, ports, i);
      assert Follows(ports, choices0, q0.first, made, i);
      assert Follows(ports, Kept(ports, rows, map[]), q.first, out, i);
    }
    assert out == made;
  }

  // ---- under any later template, exactly when the kept blocks still fit ----

  /** Where an update that chooses nothing would have port i, if its head has a row. */
  function KeptPort(ports: seq<TemplatePort>, rows: seq<Allocation>, i: nat): Option<int>
    requires i < |ports|
  {
    match PortOf(rows, HeadName(ports, i))
    case Some(port) => Some(port + Offset(ports, i))
    case None => None
  }

  ghost predicate KeptFree(ports: seq<TemplatePort>, rows: seq<Allocation>, used: set<int>, i: nat)
    requires i < |ports|
  {
    KeptPort(ports, rows, i).Some? ==> Usable(used, KeptPort(ports, rows, i).value)
  }

  ghost predicate KeptApart(ports: seq<TemplatePort>, rows: seq<Allocation>, i: nat, j: nat)
    requires i < |ports| && j < |ports|
  {
    KeptPort(ports, rows, i).Some? ==> KeptPort(ports, rows, i) != KeptPort(ports, rows, j)
  }

  /** Those ports are unused port numbers, and no two are the same. */
  ghost predicate KeptFit(ports: seq<TemplatePort>, rows: seq<Allocation>, used: set<int>) {
    && (forall i :: 0 <= i < |ports| ==> KeptFree(ports, rows, used, i))
    && (forall i, j :: 0 <= i < j < |ports| ==> KeptApart(ports, rows, i, j))
  }

  /** The choices are the heads that have a row. */
  lemma {:induction false} ChoiceOf(ports: seq<TemplatePort>, rows: seq<Allocation>, i: nat)
    requires Valid(ports) && i < |ports|
    ensures
      var choices, h := Kept(ports, rows, map[]), HeadName(ports, i);
      && (h in choices <==> PortOf(rows, h).Some?)
      && (h in choices ==> choices[h] == PortOf(rows, h).value)
  {
    var _ := HeadIndex(ports, i);
    KeptChoices(ports, rows, map[], HeadName(ports, i));
  }

  lemma {:induction false} PlacedInside(ports: seq<TemplatePort>, rows: seq<Allocation>, chosen: Placed, i: nat)
    requires Valid(ports) && i < |ports| && KeptPort(ports, rows, i).Some?
    requires forall h :: h in chosen.first <==> h in SizesOf(ports, |ports|).size && h in Kept(ports, rows, map[])
    requires forall h :: h in chosen.first ==> chosen.first[h] == Kept(ports, rows, map[])[h]
    ensures Inside(chosen.first, SizesOf(ports, |ports|).size, HeadName(ports, i), KeptPort(ports, rows, i).value)
  {
    ChoiceOf(ports, rows, i);
    SizesMeasure(ports, |ports|);
    assert Fits(ports, i, SizesOf(ports, |ports|).size);
  }

  /** Chosen blocks that could be placed have their ports apart and unused. */
  lemma {:induction false} PlacedFit(ports: seq<TemplatePort>, rows: seq<Allocation>, used: set<int>)
    requires Valid(ports)
    requires PlaceChosen(BlocksOf(ports), Kept(ports, rows, map[]), Placed(used, map[])).Ok?
    ensures KeptFit(ports, rows, used)
  {
    var size := SizesOf(ports, |ports|).size;
    var chosen := PlaceChosen(BlocksOf(ports), Kept(ports, rows, map[]), Placed(used, map[])).value;
    ChosenPart(ports, Kept(ports, rows, map[]), used, chosen);
    forall i | 0 <= i < |ports| ensures KeptFree(ports, rows, used, i) {
      if KeptPort(ports, rows, i).Some? {
        PlacedInside(ports, rows, chosen, i);
      }
    }
    forall i, j | 0 <= i < j < |ports| ensures KeptApart(ports, rows, i, j) {
      if KeptPort(ports, rows, i).Some? && KeptPort(ports, rows, j).Some? {
        PlacedInside(ports, rows, chosen, i);
        PlacedInside(ports, rows, chosen, j);
        PlaceInjective(ports, i, j);
      }
    }
  }

  /** Where the kept blocks would lie. */
  function KeptFirst(ports: seq<TemplatePort>, rows: seq<Allocation>): map<string, int> { Kept(ports, rows, map[]) }

  lemma {:induction false} InsideIsKept(ports: seq<TemplatePort>, rows: seq<Allocation>, h: string, x: int)
    returns (i: nat)
    requires Valid(ports) && Inside(KeptFirst(ports, rows), SizesOf(ports, |ports|).size, h, x)
    ensures i < |ports| && HeadName(ports, i) == h && KeptPort(ports, rows, i) == Some(x)
  {
    SizesMeasure(ports, |ports|);
    i := PortAt(ports, SizesOf(ports, |ports|).size, h, x - KeptFirst(ports, rows)[h]);
    ChoiceOf(ports, rows, i);
  }

  lemma {:induction false} KeptLieApart(ports: seq<TemplatePort>, rows: seq<Allocation>, used: set<int>)
    requires Valid(ports) && KeptFit(ports, rows, used)
    ensures
      var first, size := KeptFirst(ports, rows), SizesOf(ports, |ports|).size;
      && (forall h, x :: Inside(first, size, h, x) ==> 1 <= x <= 65535 && x !in used)
      && (forall g, h, x :: Inside(first, size, g, x) && Inside(first, size, h, x) ==> g == h)
  {
    var first, size := KeptFirst(ports, rows), SizesOf(ports, |ports|).size;
    forall h, x | Inside(first, size, h, x) ensures 1 <= x <= 65535 && x !in used {
      var i := InsideIsKept(ports, rows, h, x);
      assert KeptFree(ports, rows, used, i);
    }
    forall g, h, x | Inside(first, size, g, x) && Inside(first, size, h, x) ensures g == h {
      var i := InsideIsKept(ports, rows, g, x);
      var j := InsideIsKept(ports, rows, h, x);
      assert i < j ==> KeptApart(ports, rows, i, j);
      assert j < i ==> KeptApart(ports, rows, j, i);
    }
  }

  /** Blocks whose places lie apart can be placed, where the others are passed over. */
  lemma {:induction false} SomeChosen(blocks: seq<Block>, choices: map<string, int>, p: Placed, used: set<int>,
                                      size: map<string, nat>)
    requires SizedBy(blocks, size) && DistinctHeads(blocks)
    requires forall h, x :: Inside(choices, size, h, x) ==> 1 <= x <= 65535 && x !in used
    requires forall g, h, x :: Inside(choices, size, g, x) && Inside(choices, size, h, x) ==> g == h
    requires forall h :: HasHead(blocks, h) ==> h !in p.first
    requires forall x :: x in p.taken ==> x in used || exists g :: g in p.first && Inside(choices, size, g, x)
    ensures PlaceChosen(blocks, choices, p).Ok?
    decreases blocks
  {
    if blocks != [] {
      var Block(head, n) := blocks[0];
      HeadsOf(blocks);
      assert HasHead(blocks, head);
      if head in choices {
        var port := choices[head];
        BlockAgain(head, n, port, p, used, choices, size);
        var q := Placed(p.taken + Span(port, n), p.first[head := port]);
        TakenBySome(p, head, n, port, used, choices, size);
        SomeChosen(blocks[1..], choices, q, used, size);
      } else {
        SomeChosen(blocks[1..], choices, p, used, size);
      }
    }
  }

  lemma {:induction false} TakenBySome(p: Placed, head: string, n: nat, port: int, used: set<int>,
                                       choices: map<string, int>, size: map<string, nat>)
    requires head in choices && choices[head] == port && head in size && size[head] == n
    requires forall x :: x in p.taken ==> x in used || exists g :: g in p.first && Inside(choices, size, g, x)
    ensures
      var q := Placed(p.taken + Span(port, n), p.first[head := port]);
      forall x :: x in q.taken ==> x in used || exists g :: g in q.first && Inside(choices, size, g, x)
  {
    var q := Placed(p.taken + Span(port, n), p.first[head := port]);
    forall x | x in q.taken ensures x in used || exists g :: g in q.first && Inside(choices, size, g, x) {
      if x in Span(port, n) {
        assert Inside(choices, size, head, x);
      } else if x !in used {
        var g :| g in p.first && Inside(choices, size, g, x);
        assert g in q.first;
      }
    }
  }

  lemma {:induction false} FitPlaced(ports: seq<TemplatePort>, rows: seq<Allocation>, used: set<int>)
    requires Valid(ports) && KeptFit(ports, rows, used)
    ensures PlaceChosen(BlocksOf(ports), Kept(ports, rows, map[]), Placed(used, map[])).Ok?
  {
    HeadsHaveBlocks(ports);
    KeptLieApart(ports, rows, used);
    SomeChosen(BlocksOf(ports), KeptFirst(ports, rows), Placed(used, map[]), used, SizesOf(ports, |ports|).size);
  }

  lemma {:induction false} AutoErrorKinds(blocks: seq<Block>, byName: map<string, TemplatePort>, s: Search,
                                          range: Range)
    ensures
      var r := PlaceAuto(blocks, byName, s, range);
      r.Err? ==> r.error.NoRoom?
    decreases blocks
  {
    if blocks != [] && PlaceOne(blocks[0], byName, s, range).Ok? {
      AutoErrorKinds(blocks[1..], byName, PlaceOne(blocks[0], byName, s, range).value, range);
    }
  }

  /** An update that chooses nothing, under any later template, whatever rows there are: it succeeds, or
      finds no room for a block that has no row, exactly when the blocks that have one still fit where they
      are - unused and apart from each other, at the size they have now. */
  lemma {:induction false} UpdateFitsIff(ports: seq<TemplatePort>, rows: seq<Allocation>, used: set<int>, range: Range)
    requires Valid(ports)
    ensures
      var r := Allocate(ports, Kept(ports, rows, map[]), used, range);
      (r.Ok? || r.error.NoRoom?) <==> KeptFit(ports, rows, used)
  {
    var choices := Kept(ports, rows, map[]);
    OnlyHeadsChosen(ports, rows);
    PortCursor.ChosenTakes(BlocksOf(ports), choices, Placed(used, map[]));
    var chosen := PlaceChosen(BlocksOf(ports), choices, Placed(used, map[]));
    if chosen.Ok? {
      PlacedFit(ports, rows, used);
      var s := Search(chosen.value, range.start, 0);
      AutoErrorKinds(BlocksOf(ports), ByName(ports), s, range);
      if PlaceAuto(BlocksOf(ports), ByName(ports), s, range).Ok? {
        AssignedOk(ports, choices, PlaceAuto(BlocksOf(ports), ByName(ports), s, range).value.first, |ports|);
      }
    } else if KeptFit(ports, rows, used) {
      FitPlaced(ports, rows, used);
    }
  }

  lemma {:induction false} HeadHasRow(ports: seq<TemplatePort>, rows: seq<Allocation>, h: string)
    requires Valid(ports) && forall i :: 0 <= i < |ports| ==> KeptPort(ports, rows, i).Some?
    requires HasHead(BlocksOf(ports), h)
    ensures h in SizesOf(ports, |ports|).size && h in Kept(ports, rows, map[])
  {
    HeadsHaveBlocks(ports);
    var i := PortAt(ports, SizesOf(ports, |ports|).size, h, 0);
    assert KeptPort(ports, rows, i).Some?;
    ChoiceOf(ports, rows, i);
  }

  lemma {:induction false} AllHaveRows(ports: seq<TemplatePort>, rows: seq<Allocation>, used: set<int>, range: Range)
    requires Valid(ports) && forall i :: 0 <= i < |ports| ==> KeptPort(ports, rows, i).Some?
    requires PlaceChosen(BlocksOf(ports), Kept(ports, rows, map[]), Placed(used, map[])).Ok?
    ensures Allocate(ports, Kept(ports, rows, map[]), used, range).Ok?
  {
    var blocks, choices := BlocksOf(ports), Kept(ports, rows, map[]);
    var chosen := PlaceChosen(blocks, choices, Placed(used, map[])).value;
    HeadsHaveBlocks(ports);
    ChosenPart(ports, choices, used, chosen);
    OnlyHeadsChosen(ports, rows);
    forall h | HasHead(blocks, h) ensures h in chosen.first {
      HeadHasRow(ports, rows, h);
    }
    AutoIdle(blocks, ByName(ports), chosen, range.start, 0, range);
    AssignedOk(ports, choices, chosen.first, |ports|);
  }

  /** So when every block has a row, it succeeds exactly then. */
  lemma {:induction false} UpdateSucceedsIff(ports: seq<TemplatePort>, rows: seq<Allocation>, used: set<int>,
                                             range: Range)
    requires Valid(ports) && forall i :: 0 <= i < |ports| ==> KeptPort(ports, rows, i).Some?
    ensures Allocate(ports, Kept(ports, rows, map[]), used, range).Ok? <==> KeptFit(ports, rows, used)
  {
    UpdateFitsIff(ports, rows, used, range);
    if KeptFit(ports, rows, used) {
      FitPlaced(ports, rows, used);
      AllHaveRows(ports, rows, used, range);
    }
  }
}
