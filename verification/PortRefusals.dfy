/** What the allocator of ports.ts says when it refuses, and in which order it serves the blocks. */
module PortRefusals {
  import opened Common
  import opened PortTemplate
  import opened PortAllocator
  import opened PortCursor

  // ---- choices for ports the template has not ----

  lemma {:induction false} KnownNames(ports: seq<TemplatePort>, name: string)
    ensures name in ByName(ports) <==> Named(ports, name)
  {
    if ports != [] {
      var n := |ports| - 1;
      KnownNames(ports[..n], name);
      NamedOneMore(ports[..n], ports[n]);
      assert ports == ports[..n] + [ports[n]];
    }
  }

  lemma {:induction false} ChosenErrorIs(taken: set<int>, port: int, n: nat)
    ensures
      match ChosenError(taken, port, n)
      case InUse(x) => InSpan(x, port, n) && x in taken && forall y :: port <= y < x ==> y !in taken
      case NeedsRow(p, m) => p == port && m == n && forall y :: port <= y < port + n ==> y !in taken
      case _ => false
  {
    if n > 0 {
      ChosenErrorIs(taken, port, n - 1);
    }
  }

  ghost predicate Chosen(blocks: seq<Block>, choices: map<string, int>, k: nat, x: int) {
    k < |blocks| && blocks[k].head in choices && InSpan(x, choices[blocks[k].head], blocks[k].size)
  }

  /** The choice for block k cannot be met: its first port in use is used by another instance or by a chosen
      block before it, or none is in use but some are no ports. */
  ghost predicate CannotHave(blocks: seq<Block>, choices: map<string, int>, taken: set<int>, k: nat, e: PortError) {
    && k < |blocks| && blocks[k].head in choices
    && match e
       case InUse(x) => Chosen(blocks, choices, k, x) && (x in taken || exists l: nat :: l < k && Chosen(blocks, choices, l, x))
       case NeedsRow(port, n) =>
         && port == choices[blocks[k].head] && n == blocks[k].size && (port < 1 || port + n - 1 > 65535)
         && forall x :: port <= x < port + n ==> x !in taken
       case _ => false
  }

  lemma CannotLater(blocks: seq<Block>, choices: map<string, int>, taken: set<int>, more: set<int>, k: nat, e: PortError)
    requires blocks != [] && CannotHave(blocks[1..], choices, taken + more, k, e)
    requires forall x :: x in more ==> Chosen(blocks, choices, 0, x)
    ensures CannotHave(blocks, choices, taken, k + 1, e)
  {
    assert forall l: nat, x :: Chosen(blocks[1..], choices, l, x) <==> Chosen(blocks, choices, l + 1, x);
    if e.InUse? && e.port !in taken && e.port !in more {
      var l: nat :| l < k && Chosen(blocks[1..], choices, l, e.port);
      assert Chosen(blocks, choices, l + 1, e.port);
    }
  }

  lemma {:induction false} ChosenRefused(blocks: seq<Block>, choices: map<string, int>, p: Placed) returns (k: nat)
    requires PlaceChosen(blocks, choices, p).Err?
    ensures CannotHave(blocks, choices, p.taken, k, PlaceChosen(blocks, choices, p).error)
    decreases blocks
  {
    var Block(head, n) := blocks[0];
    var e := PlaceChosen(blocks, choices, p).error;
    if head !in choices {
      k := ChosenRefused(blocks[1..], choices, p);
      assert p.taken + {} == p.taken;
      CannotLater(blocks, choices, p.taken, {}, k, e);
      k := k + 1;
    } else if BlockFree(p.taken, choices[head], n) {
      var span := Span(choices[head], n);
      k := ChosenRefused(blocks[1..], choices, Placed(p.taken + span, p.first[head := choices[head]]));
      CannotLater(blocks, choices, p.taken, span, k, e);
      k := k + 1;
    } else {
      ChosenErrorIs(p.taken, choices[head], n);
      var x :| choices[head] <= x < choices[head] + n && !Usable(p.taken, x);
      k := 0;
    }
  }

  lemma {:induction false} AssignedRefused(ports: seq<TemplatePort>, choices: map<string, int>,
                                           first: map<string, int>, n: nat) returns (i: nat)
    requires n <= |ports| && Assigned(ports, choices, first, n).Err?
    ensures i < n && Contradicts(ports, choices, i, Assigned(ports, choices, first, n).error)
  {
    i := n - 1;
    if Assigned(ports, choices, first, n - 1).Err? {
      i := AssignedRefused(ports, choices, first, n - 1);
    }
  }

  /** Port i follows another, and its own choice is not the port it gets. */
  ghost predicate Contradicts(ports: seq<TemplatePort>, choices: map<string, int>, i: nat, e: PortError)
    requires i < |ports|
  {
    && e.Misplaced? && e.name == ports[i].name && e.head == HeadName(ports, i) && e.offset == Offset(ports, i) > 0
    && e.name in choices && choices[e.name] != e.port
  }

  /** The allocator refuses for unknown ports exactly when some choice is for a port the template has not. */
  lemma {:induction false} UnknownIff(ports: seq<TemplatePort>, choices: map<string, int>, used: set<int>, range: Range)
    ensures
      var r := Allocate(ports, choices, used, range);
      (r.Err? && r.error.UnknownPort?) <==> exists name :: name in choices && !Named(ports, name)
  {
    forall name ensures name in ByName(ports) <==> Named(ports, name) {
      KnownNames(ports, name);
    }
    if choices.Keys <= ByName(ports).Keys {
      if Allocate(ports, choices, used, range).Err? {
        var k := RefusalIsTrue(ports, choices, used, range);
      }
    } else {
      var name :| name in choices.Keys && name !in ByName(ports).Keys;
      assert !Named(ports, name);
    }
  }

  /** Every refusal of known choices is true: the choice k for a block is in the way of what it says, the
      choice of port k contradicts its place, or the pool has no room for what is left. */
  lemma {:induction false} RefusalIsTrue(ports: seq<TemplatePort>, choices: map<string, int>, used: set<int>,
                                         range: Range) returns (k: nat)
    requires choices.Keys <= ByName(ports).Keys && Allocate(ports, choices, used, range).Err?
    ensures
      var e := Allocate(ports, choices, used, range).error;
      || CannotHave(BlocksOf(ports), choices, used, k, e)
      || NoRoomMeans(e, range, used)
      || (k < |ports| && Contradicts(ports, choices, k, e))
  {
    var blocks, p := BlocksOf(ports), Placed(used, map[]);
    k := 0;
    var chosen := PlaceChosen(blocks, choices, p);
    if chosen.Err? {
      k := ChosenRefused(blocks, choices, p);
    } else {
      var placed := PlaceAuto(blocks, ByName(ports), Search(chosen.value, range.start, 0), range);
      if placed.Err? {
        SizesFacts(ports, |ports|);
        AutoComplete(blocks, ByName(ports), chosen.value, range.start, 0, range);
        ChosenTakes(blocks, choices, p);
      } else {
        k := AssignedRefused(ports, choices, placed.value.first, |ports|);
      }
    }
  }

  // ---- the order of the blocks ----

  /** The names of the first i ports that follow none, in the template's order. */
  function Leads(ports: seq<TemplatePort>, i: nat): seq<string>
    requires i <= |ports|
  {
    if i == 0 then []
    else Leads(ports, i - 1) + if ports[i - 1].follows.None? then [ports[i - 1].name] else []
  }

  lemma {:induction false} LeadIn(ports: seq<TemplatePort>, i: nat, j: nat)
    requires j < i <= |ports| && ports[j].follows.None?
    ensures ports[j].name in Leads(ports, i)
  {
    if j < i - 1 {
      LeadIn(ports, i - 1, j);
    }
  }

  lemma {:induction false} LeadIs(ports: seq<TemplatePort>, i: nat, name: string) returns (j: nat)
    requires i <= |ports| && name in Leads(ports, i)
    ensures j < i && ports[j].name == name && ports[j].follows.None?
  {
    if ports[i - 1].follows.None? && ports[i - 1].name == name {
      j := i - 1;
    } else {
      j := LeadIs(ports, i - 1, name);
    }
  }

  lemma {:induction false} HeadAmongLeads(ports: seq<TemplatePort>, i: nat)
    requires Valid(ports) && i < |ports|
    ensures HeadName(ports, i) in Leads(ports, i) <==> ports[i].follows.Some?
    ensures ports[i].follows.None? ==> HeadName(ports, i) == ports[i].name
  {
    ClimbIsChain(ports, i, 0);
    if ports[i].follows.None? {
      if ports[i].name in Leads(ports, i) {
        var j := LeadIs(ports, i, ports[i].name);
        assert false;
      }
    } else {
      assert FollowsEarlier(ports, i);
      var j :| 0 <= j < i && ports[j].name == ports[i].follows.value;
      ChainStep(ports, i, j);
      LeadIn(ports, i, Chain(ports, i).0);
    }
  }

  /** The blocks of a valid template are served in the order in which the template lists their first ports. */
  lemma {:induction false} BlocksInOrder(ports: seq<TemplatePort>, i: nat)
    requires Valid(ports) && i <= |ports|
    ensures SizesOf(ports, i).order == Leads(ports, i)
  {
    if i > 0 {
      BlocksInOrder(ports, i - 1);
      SizesFacts(ports, i - 1);
      HeadAmongLeads(ports, i - 1);
      var before := SizesOf(ports, i - 1);
      assert HeadName(ports, i - 1) in before.order <==> HeadName(ports, i - 1) in before.size;
    }
  }
}
