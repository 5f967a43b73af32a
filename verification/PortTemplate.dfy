/** A template's ports: the rules its schema enforces, and the blocks of consecutive ports they form
    (shared/src/api/templates.ts, server/src/modules/instances/ports.ts). */
module PortTemplate {
  import opened Common

  datatype TemplatePort = TemplatePort(
    name: string, caption: string, protocol: string, preferred: int, primary: bool, follows: Option<string>)

  datatype Block = Block(head: string, size: nat)

  /** How many ports the schema lets a template have. */
  const MAX_PORTS := 32

  // ---- the template rules ----

  ghost predicate Named(ports: seq<TemplatePort>, name: string) {
    exists j :: 0 <= j < |ports| && ports[j].name == name
  }

  predicate DistinctNames(ports: seq<TemplatePort>) {
    forall i, j :: 0 <= i < j < |ports| ==> ports[i].name != ports[j].name
  }

  ghost predicate FollowsEarlier(ports: seq<TemplatePort>, i: nat)
    requires i < |ports|
  {
    ports[i].follows.Some? ==> Named(ports[..i], ports[i].follows.value)
  }

  ghost predicate FollowedOnce(ports: seq<TemplatePort>, i: nat)
    requires i < |ports|
  {
    ports[i].follows.Some? ==> forall j :: 0 <= j < i ==> ports[j].follows != ports[i].follows
  }

  predicate PrimaryLeads(p: TemplatePort) { p.follows.Some? ==> !p.primary }

  /** What the schema asks of a template's ports: distinct names, a port follows an earlier one, no two
      ports follow the same one, and none that follows another is the primary one. */
  ghost predicate Valid(ports: seq<TemplatePort>) {
    && DistinctNames(ports)
    && (forall i :: 0 <= i < |ports| ==> FollowsEarlier(ports, i))
    && (forall i :: 0 <= i < |ports| ==> FollowedOnce(ports, i))
    && (forall i :: 0 <= i < |ports| ==> PrimaryLeads(ports[i]))
  }

  /** The schema's check: the ports it finds fault with. */
  method FaultyPorts(ports: seq<TemplatePort>) returns (faults: set<int>)
    ensures faults == {} <==> Valid(ports)
  {
    var names: set<string> := {};
    faults := {};
    for i := 0 to |ports|
      invariant forall s :: s in names <==> Named(ports[..i], s)
      invariant forall k :: k in faults ==> 0 <= k < i
      invariant faults == {} <==> Valid(ports[..i])
    {
      var p := ports[i];
      var before := ports[..i];
      assert ports[..i + 1] == before + [p];
      assert forall k :: 0 <= k < i ==> ports[..i + 1][..k] == before[..k];
      assert ports[..i + 1][..i] == before;
      var shared := exists j :: 0 <= j < i && ports[j].follows == p.follows;
      if p.name in names {
        faults := faults + {i};
      }
      if p.follows.Some? && p.follows.value !in names {
        faults := faults + {i};
      }
      if p.follows.Some? && shared {
        faults := faults + {i};
      }
      if p.follows.Some? && p.primary {
        faults := faults + {i};
      }
      NamedOneMore(before, p);
      ValidOneMore(before, p);
      names := names + {p.name};
    }
    assert ports[..|ports|] == ports;
  }

  lemma NamedOneMore(ports: seq<TemplatePort>, p: TemplatePort)
    ensures forall s :: Named(ports + [p], s) <==> Named(ports, s) || s == p.name
  {
    forall s ensures Named(ports + [p], s) <==> Named(ports, s) || s == p.name {
      if Named(ports, s) {
        var j :| 0 <= j < |ports| && ports[j].name == s;
        assert (ports + [p])[j].name == s;
      }
      assert (ports + [p])[|ports|] == p;
    }
  }

  lemma ValidOneMore(ports: seq<TemplatePort>, p: TemplatePort)
    ensures Valid(ports + [p]) <==>
              && Valid(ports) && !Named(ports, p.name) && PrimaryLeads(p)
              && (p.follows.Some? ==>
                    && Named(ports, p.follows.value)
                    && forall j :: 0 <= j < |ports| ==> ports[j].follows != p.follows)
  {
    var all := ports + [p];
    assert all[|ports|] == p && all[..|ports|] == ports;
    assert forall i :: 0 <= i < |ports| ==> all[i] == ports[i] && all[..i] == ports[..i];
    assert forall i :: 0 <= i < |ports| ==> (FollowsEarlier(all, i) <==> FollowsEarlier(ports, i));
    assert forall i :: 0 <= i < |ports| ==> (FollowedOnce(all, i) <==> FollowedOnce(ports, i));
    assert FollowsEarlier(all, |ports|) <==> (p.follows.Some? ==> Named(ports, p.follows.value));
    assert FollowedOnce(all, |ports|) <==>
      (p.follows.Some? ==> forall j :: 0 <= j < |ports| ==> ports[j].follows != p.follows);
    if Valid(all) {
      assert forall i :: 0 <= i < |ports| ==> FollowsEarlier(all, i) && FollowedOnce(all, i);
    }
  }

  // ---- blocks ----

  /** Later ports of the same name win, as in a JavaScript Map built from a list. */
  function ByName(ports: seq<TemplatePort>): map<string, TemplatePort> {
    if ports == [] then map[] else ByName(ports[..|ports| - 1])[ports[|ports| - 1].name := ports[|ports| - 1]]
  }

  function Climb(ports: seq<TemplatePort>, head: TemplatePort, offset: nat): (TemplatePort, nat)
    decreases |ports| - offset
  {
    if head.follows.Some? && head.follows.value in ByName(ports) && offset < |ports|
    then Climb(ports, ByName(ports)[head.follows.value], offset + 1)
    else (head, offset)
  }

  /** The port whose block p is in, and how far into it p is. */
  method HeadOf(ports: seq<TemplatePort>, byName: map<string, TemplatePort>, p: TemplatePort)
    returns (head: TemplatePort, offset: nat)
    requires byName == ByName(ports)
    ensures (head, offset) == Climb(ports, p, 0)
  {
    head, offset := p, 0;
    while head.follows.Some? && head.follows.value in byName && offset < |ports|
      invariant Climb(ports, head, offset) == Climb(ports, p, 0)
    {
      head := byName[head.follows.value];
      offset := offset + 1;
    }
  }

  /** The first port of that name. */
  function Find(ports: seq<TemplatePort>, name: string): Option<TemplatePort> {
    if ports == [] then None else if ports[0].name == name then Some(ports[0]) else Find(ports[1..], name)
  }

  function RunFrom(ports: seq<TemplatePort>, head: string, offset: nat): (string, nat)
    decreases |ports| - offset
  {
    match Find(ports, head)
    case Some(TemplatePort(_, _, _, _, _, Some(follows))) =>
      if offset >= |ports| then (head, offset) else RunFrom(ports, follows, offset + 1)
    case _ => (head, offset)
  }

  method PortRun(ports: seq<TemplatePort>, name: string) returns (head: string, offset: nat)
    ensures (head, offset) == RunFrom(ports, name, 0)
  {
    head, offset := name, 0;
    while true
      invariant offset <= |ports|
      invariant RunFrom(ports, head, offset) == RunFrom(ports, name, 0)
      decreases |ports| - offset
    {
      var found := Find(ports, head);
      if found.None? || found.value.follows.None? || offset >= |ports| {
        return;
      }
      head := found.value.follows.value;
      offset := offset + 1;
    }
  }

  /** A JavaScript Map from head to size: entries stay where they were first set. */
  datatype Sizes = Sizes(order: seq<string>, size: map<string, nat>)

  function Grown(s: Sizes, head: string, size: nat): Sizes {
    if head in s.size then s.(size := s.size[head := if s.size[head] < size then size else s.size[head]])
    else Sizes(s.order + [head], s.size[head := size])
  }

  function Entries(s: Sizes): (blocks: seq<Block>)
    ensures |blocks| == |s.order|
  {
    seq(|s.order|, i requires 0 <= i < |s.order| =>
      Block(s.order[i], if s.order[i] in s.size then s.size[s.order[i]] else 1))
  }

  /** The blocks of the first i ports: heads in order of first appearance, with their sizes. */
  function SizesOf(ports: seq<TemplatePort>, i: nat): Sizes
    requires i <= |ports|
  {
    if i == 0 then Sizes([], map[])
    else
      var (head, offset) := Climb(ports, ports[i - 1], 0);
      Grown(SizesOf(ports, i - 1), head.name, offset + 1)
  }

  function BlocksOf(ports: seq<TemplatePort>): seq<Block> { Entries(SizesOf(ports, |ports|)) }

  // ---- facts about blocks ----

  predicate Sized(blocks: seq<Block>) { forall k :: 0 <= k < |blocks| ==> blocks[k].size >= 1 }

  predicate DistinctHeads(blocks: seq<Block>) {
    forall k, l :: 0 <= k < l < |blocks| ==> blocks[k].head != blocks[l].head
  }

  ghost predicate WellKept(s: Sizes) {
    && (forall h :: h in s.order <==> h in s.size)
    && (forall k, l :: 0 <= k < l < |s.order| ==> s.order[k] != s.order[l])
    && (forall h :: h in s.size ==> s.size[h] >= 1)
  }

  lemma GrownKeeps(s: Sizes, head: string, size: nat)
    requires WellKept(s) && size >= 1
    ensures WellKept(Grown(s, head, size))
  {
    var t := Grown(s, head, size);
    forall h ensures h in t.order <==> h in t.size {
      if head !in s.size && h == head {
        assert t.order[|s.order|] == head;
      }
    }
  }

  lemma {:induction false} SizesFacts(ports: seq<TemplatePort>, i: nat)
    requires i <= |ports|
    ensures WellKept(SizesOf(ports, i))
    ensures Sized(Entries(SizesOf(ports, i))) && DistinctHeads(Entries(SizesOf(ports, i)))
  {
    if i > 0 {
      SizesFacts(ports, i - 1);
      GrownKeeps(SizesOf(ports, i - 1), Climb(ports, ports[i - 1], 0).0.name, Climb(ports, ports[i - 1], 0).1 + 1);
    }
  }

  /** For a valid template: the index of the port a port's block starts at, and how far into it it is. */
  ghost function Chain(ports: seq<TemplatePort>, i: nat): (r: (nat, nat))
    requires Valid(ports) && i < |ports|
    ensures r.0 <= i && r.1 <= i && ports[r.0].follows.None?
  {
    if ports[i].follows.None? then (i, 0)
    else
      assert FollowsEarlier(ports, i);
      var j :| 0 <= j < i && ports[j].name == ports[i].follows.value;
      var (head, offset) := Chain(ports, j);
      (head, offset + 1)
  }

  lemma {:induction false} ChainStep(ports: seq<TemplatePort>, i: nat, j: nat)
    requires Valid(ports) && i < |ports| && j < |ports| && ports[i].follows == Some(ports[j].name)
    ensures j < i && Chain(ports, i) == (Chain(ports, j).0, Chain(ports, j).1 + 1)
  {
    assert FollowsEarlier(ports, i);
  }

  lemma {:induction false} ByNameFinds(ports: seq<TemplatePort>, i: nat)
    requires i < |ports| && DistinctNames(ports)
    ensures ports[i].name in ByName(ports) && ByName(ports)[ports[i].name] == ports[i]
  {
    if i < |ports| - 1 {
      ByNameFinds(ports[..|ports| - 1], i);
    }
  }

  lemma {:induction false} FindFinds(ports: seq<TemplatePort>, i: nat)
    requires i < |ports| && DistinctNames(ports)
    ensures Find(ports, ports[i].name) == Some(ports[i])
  {
    if i > 0 {
      FindFinds(ports[1..], i - 1);
    }
  }

  lemma {:induction false} ClimbIsChain(ports: seq<TemplatePort>, i: nat, offset: nat)
    requires Valid(ports) && i < |ports| && offset + Chain(ports, i).1 <= |ports|
    ensures Climb(ports, ports[i], offset) == (ports[Chain(ports, i).0], offset + Chain(ports, i).1)
    ensures RunFrom(ports, ports[i].name, offset) == (ports[Chain(ports, i).0].name, offset + Chain(ports, i).1)
    decreases i
  {
    FindFinds(ports, i);
    if ports[i].follows.Some? {
      assert FollowsEarlier(ports, i);
      var j :| 0 <= j < i && ports[j].name == ports[i].follows.value;
      ChainStep(ports, i, j);
      ByNameFinds(ports, j);
      ClimbIsChain(ports, j, offset + 1);
    }
  }

  /** The name of the head of port i's block, and how far into the block it is. */
  function HeadName(ports: seq<TemplatePort>, i: nat): string
    requires i < |ports|
  {
    Climb(ports, ports[i], 0).0.name
  }

  function Offset(ports: seq<TemplatePort>, i: nat): nat
    requires i < |ports|
  {
    Climb(ports, ports[i], 0).1
  }

  /** headOf and portRun agree on every port of a valid template. */
  lemma {:induction false} HeadOfIsPortRun(ports: seq<TemplatePort>, i: nat)
    requires Valid(ports) && i < |ports|
    ensures RunFrom(ports, ports[i].name, 0) == (HeadName(ports, i), Offset(ports, i))
  {
    ClimbIsChain(ports, i, 0);
  }

  lemma HeadPlace(ports: seq<TemplatePort>, i: nat)
    requires Valid(ports) && i < |ports| && ports[i].follows.None?
    ensures HeadName(ports, i) == ports[i].name && Offset(ports, i) == 0
  {
    ClimbIsChain(ports, i, 0);
  }

  lemma FollowerPlace(ports: seq<TemplatePort>, i: nat, j: nat)
    requires Valid(ports) && i < |ports| && j < |ports| && ports[i].follows == Some(ports[j].name)
    ensures HeadName(ports, i) == HeadName(ports, j) && Offset(ports, i) == Offset(ports, j) + 1
  {
    ChainStep(ports, i, j);
    ClimbIsChain(ports, i, 0);
    ClimbIsChain(ports, j, 0);
  }

  lemma {:induction false} ChainInjective(ports: seq<TemplatePort>, i: nat, j: nat)
    requires Valid(ports) && i < |ports| && j < |ports| && Chain(ports, i) == Chain(ports, j)
    ensures i == j
    decreases i
  {
    if ports[i].follows.Some? && ports[j].follows.Some? {
      assert FollowsEarlier(ports, i) && FollowsEarlier(ports, j) && FollowedOnce(ports, i) && FollowedOnce(ports, j);
      var k :| 0 <= k < i && ports[k].name == ports[i].follows.value;
      var l :| 0 <= l < j && ports[l].name == ports[j].follows.value;
      ChainStep(ports, i, k);
      ChainStep(ports, j, l);
      ChainInjective(ports, k, l);
    }
  }

  /** No two ports of a valid template share a place. */
  lemma PlaceInjective(ports: seq<TemplatePort>, i: nat, j: nat)
    requires Valid(ports) && i < j < |ports|
    ensures HeadName(ports, i) != HeadName(ports, j) || Offset(ports, i) != Offset(ports, j)
  {
    ClimbIsChain(ports, i, 0);
    ClimbIsChain(ports, j, 0);
    var k, l := Chain(ports, i).0, Chain(ports, j).0;
    if k != l {
      assert ports[k].name != ports[l].name;
    } else if Chain(ports, i).1 == Chain(ports, j).1 {
      ChainInjective(ports, i, j);
    }
  }

  /** A block has a port at every offset up to its last. */
  lemma {:induction false} PlaceFull(ports: seq<TemplatePort>, i: nat, k: nat) returns (j: nat)
    requires Valid(ports) && i < |ports| && k <= Offset(ports, i)
    ensures j < |ports| && HeadName(ports, j) == HeadName(ports, i) && Offset(ports, j) == k
    decreases i
  {
    j := i;
    if k < Offset(ports, i) {
      ClimbIsChain(ports, i, 0);
      assert FollowsEarlier(ports, i);
      var p :| 0 <= p < i && ports[p].name == ports[i].follows.value;
      FollowerPlace(ports, i, p);
      j := PlaceFull(ports, p, k);
    }
  }

  /** Port k is the last of a block of n. */
  ghost predicate Ends(ports: seq<TemplatePort>, k: nat, h: string, n: nat)
    requires k < |ports|
  {
    HeadName(ports, k) == h && Offset(ports, k) + 1 == n
  }

  ghost predicate Fits(ports: seq<TemplatePort>, k: nat, size: map<string, nat>)
    requires k < |ports|
  {
    HeadName(ports, k) in size && Offset(ports, k) < size[HeadName(ports, k)]
  }

  ghost predicate Ended(ports: seq<TemplatePort>, i: nat, h: string, n: nat)
    requires i <= |ports|
  {
    exists k :: 0 <= k < i && Ends(ports, k, h, n)
  }

  /** Of the first i ports, each is within its block, and each block ends with one of them. */
  ghost predicate Measures(ports: seq<TemplatePort>, i: nat, size: map<string, nat>)
    requires i <= |ports|
  {
    && (forall k :: 0 <= k < i ==> Fits(ports, k, size))
    && (forall h :: h in size ==> Ended(ports, i, h, size[h]))
  }

  lemma GrownMeasures(ports: seq<TemplatePort>, i: nat, before: map<string, nat>, after: map<string, nat>)
    requires 0 < i <= |ports| && Measures(ports, i - 1, before)
    requires var h, n := HeadName(ports, i - 1), Offset(ports, i - 1) + 1;
             after == before[h := if h in before && before[h] > n then before[h] else n]
    ensures Measures(ports, i, after)
  {
    forall k | 0 <= k < i ensures Fits(ports, k, after) {
      assert k < i - 1 ==> Fits(ports, k, before);
    }
    forall h | h in after ensures Ended(ports, i, h, after[h]) {
      if h in before && after[h] == before[h] {
        assert Ended(ports, i - 1, h, before[h]);
        var k :| 0 <= k < i - 1 && Ends(ports, k, h, before[h]);
      } else {
        assert Ends(ports, i - 1, h, after[h]);
      }
    }
  }

  lemma {:induction false} SizesMeasure(ports: seq<TemplatePort>, i: nat)
    requires i <= |ports|
    ensures Measures(ports, i, SizesOf(ports, i).size)
  {
    if i > 0 {
      SizesMeasure(ports, i - 1);
      GrownMeasures(ports, i, SizesOf(ports, i - 1).size, SizesOf(ports, i).size);
    }
  }
}
