/** The firewall rules an agent adds on its node, against a firewall whose commands can fail. */
module Firewall {
  import opened Common

  // agent/internal/firewall/firewall.go, with one backend whose commands take effect entirely or not
  // at all.

  datatype Protocol = Tcp | Udp

  datatype Port = Port(number: nat, protocol: Protocol)

  /** Existing rules were there before the agent looked. */
  datatype Rule = Rule(port: Port, existing: bool)

  datatype Report = Open | Existing | Error

  /** The node: broad are ports its firewall opens by rules for ranges or for both protocols, which
      cover a port without being its rule. */
  datatype Node = Node(firewalld: bool, broad: set<Port>)

  /** What the commands of one call do: whether a firewall is detected, and whether the i-th query or
      opening (by the position of the port) and closing (by that of the rule) succeeds. */
  datatype Fate = Fate(detected: bool, queries: nat -> bool, opens: nat -> bool, closes: nat -> bool)

  /** The agent's record, and the firewall's own rules for single ports. */
  datatype State = State(managed: bool, rules: map<string, seq<Rule>>, fw: set<Port>)

  const SFTP_KEY := "sftp"

  // ---- one call of apply ----

  datatype Kept = Kept(rules: seq<Rule>, fw: set<Port>)

  function CloseOne(k: Kept, r: Rule, ports: seq<Port>, closed: bool): Kept {
    if r.port in ports then k.(rules := k.rules + [r])
    else if r.existing then k
    else if closed then k.(fw := k.fw - {r.port})
    else k.(rules := k.rules + [r])
  }

  /** Rules no longer wanted go; one that cannot be removed stays, for the next time. */
  function Close(rules: seq<Rule>, fw: set<Port>, ports: seq<Port>, closes: nat -> bool): Kept {
    if rules == [] then Kept([], fw)
    else
      var n := |rules| - 1;
      CloseOne(Close(rules[..n], fw, ports, closes), rules[n], ports, closes(n))
  }

  function IndexOf(rules: seq<Rule>, p: Port): Option<Rule> {
    if rules == [] then None else if rules[0].port == p then Some(rules[0]) else IndexOf(rules[1..], p)
  }

  function ReportOf(r: Rule): Report { if r.existing then Existing else Open }

  datatype Opened = Opened(kept: Kept, reports: seq<Report>)

  /** firewalld's queries that fail read as a no. */
  function OpenOne(o: Opened, p: Port, i: nat, managed: bool, node: Node, fate: Fate): Opened {
    var found := IndexOf(o.kept.rules, p);
    if found.Some? then o.(reports := o.reports + [ReportOf(found.value)])
    else if !managed || !fate.detected || (!fate.queries(i) && !node.firewalld) then o.(reports := o.reports + [Error])
    else if fate.queries(i) && (p in o.kept.fw || p in node.broad) then
      Opened(o.kept.(rules := o.kept.rules + [Rule(p, true)]), o.reports + [Existing])
    else if !fate.opens(i) then o.(reports := o.reports + [Error])
    else Opened(Kept(o.kept.rules + [Rule(p, false)], o.kept.fw + {p}), o.reports + [Open])
  }

  function OpenAll(k: Kept, ports: seq<Port>, managed: bool, node: Node, fate: Fate): Opened {
    if ports == [] then Opened(k, [])
    else
      var n := |ports| - 1;
      OpenOne(OpenAll(k, ports[..n], managed, node, fate), ports[n], n, managed, node, fate)
  }

  function RulesOf(st: State, key: string): seq<Rule> { if key in st.rules then st.rules[key] else [] }

  function Recorded(st: State, key: string, k: Kept): State {
    st.(rules := if k.rules == [] then st.rules - {key} else st.rules[key := k.rules], fw := k.fw)
  }

  function Applied(st: State, key: string, ports: seq<Port>, node: Node, fate: Fate): State {
    var kept := Close(RulesOf(st, key), st.fw, ports, fate.closes);
    Recorded(st, key, OpenAll(kept, ports, st.managed, node, fate).kept)
  }

  function Removed(st: State, key: string, node: Node, fate: Fate): State {
    if key in st.rules then Applied(st, key, [], node, fate) else st
  }

  /** The keys in the order they are visited, with the fate of the call for each. */
  function AllRemoved(st: State, order: seq<string>, node: Node, fates: nat -> Fate): State {
    if order == [] then st
    else
      var n := |order| - 1;
      Applied(AllRemoved(st, order[..n], node, fates), order[n], [], node, fates(n))
  }

  function SftpPorts(port: Option<nat>): seq<Port> { if port.Some? then [Port(port.value, Tcp)] else [] }

  function Configured(st: State, managed: bool, sftp: Option<nat>, order: seq<string>, node: Node, fates: nat -> Fate)
    : State
  {
    var toggled := st.(managed := managed);
    if managed then Applied(toggled, SFTP_KEY, SftpPorts(sftp), node, fates(0))
    else AllRemoved(toggled, order, node, fates)
  }

  class Manager {
    const node: Node
    var managed: bool
    var rules: map<string, seq<Rule>>
    /** The firewall itself, which the commands change. */
    var fw: set<Port>

    ghost function View(): State
      reads this
    {
      State(managed, rules, fw)
    }

    constructor (node: Node, fw: set<Port>)
      ensures this.node == node && View() == State(false, map[], fw)
    {
      this.node, this.fw, managed, rules := node, fw, false, map[];
    }

    method Exists(p: Port, answered: bool) returns (r: Option<bool>)
      ensures r == if !answered && !node.firewalld then None else Some(answered && (p in fw || p in node.broad))
    {
      if !answered {
        return if node.firewalld then Some(false) else None;
      }
      return Some(p in fw || p in node.broad);
    }

    method Apply(key: string, ports: seq<Port>, fate: Fate) returns (reports: seq<Report>)
      modifies this
      ensures View() == Applied(old(View()), key, ports, node, fate)
      ensures reports == OpenAll(Close(RulesOf(old(View()), key), old(fw), ports, fate.closes),
                                 ports, old(managed), node, fate).reports
    {
      ghost var st := View();
      var recorded := if key in rules then rules[key] else [];
      var keep: seq<Rule> := [];
      for i := 0 to |recorded|
        invariant managed == st.managed && rules == st.rules
        invariant Kept(keep, fw) == Close(recorded[..i], st.fw, ports, fate.closes)
      {
        assert recorded[..i + 1][..i] == recorded[..i];
        var r := recorded[i];
        if r.port in ports || r.existing {
          if r.port in ports {
            keep := keep + [r];
          }
        } else if fate.closes(i) {
          fw := fw - {r.port};
        } else {
          keep := keep + [r];
        }
      }
      assert recorded[..|recorded|] == recorded;
      ghost var kept := Kept(keep, fw);
      reports := [];
      for i := 0 to |ports|
        invariant managed == st.managed && rules == st.rules
        invariant Opened(Kept(keep, fw), reports) == OpenAll(kept, ports[..i], st.managed, node, fate)
      {
        assert ports[..i + 1][..i] == ports[..i];
        var p := ports[i];
        var found := IndexOf(keep, p);
        var report := Error;
        if found.Some? {
          report := ReportOf(found.value);
        } else if managed && fate.detected {
          var exists_ := Exists(p, fate.queries(i));
          if exists_ == Some(true) {
            keep, report := keep + [Rule(p, true)], Existing;
          } else if exists_ == Some(false) && fate.opens(i) {
            fw := fw + {p};
            keep, report := keep + [Rule(p, false)], Open;
          }
        }
        reports := reports + [report];
      }
      assert ports[..|ports|] == ports;
      rules := if keep == [] then rules - {key} else rules[key := keep];
    }

    method Remove(key: string, fate: Fate)
      modifies this
      ensures View() == Removed(old(View()), key, node, fate)
    {
      if key in rules {
        var _ := Apply(key, [], fate);
      }
    }

    method Configure(managed: bool, sftp: Option<nat>, order: seq<string>, fates: nat -> Fate)
      modifies this
      ensures View() == Configured(old(View()), managed, sftp, order, node, fates)
    {
      this.managed := managed;
      ghost var st := View();
      if managed {
        var _ := Apply(SFTP_KEY, SftpPorts(sftp), fates(0));
      } else {
        for i := 0 to |order|
          invariant View() == AllRemoved(st, order[..i], node, fates)
        {
          assert order[..i + 1][..i] == order[..i];
          var _ := Apply(order[i], [], fates(i));
        }
        assert order[..|order|] == order;
      }
    }
  }

  // ---- what a list of rules records ----

  function Ports(rules: seq<Rule>): set<Port> {
    if rules == [] then {} else Ports(rules[..|rules| - 1]) + {rules[|rules| - 1].port}
  }

  /** The ports the agent opened itself. */
  function Own(rules: seq<Rule>): set<Port> {
    if rules == [] then {}
    else
      var r := rules[|rules| - 1];
      Own(rules[..|rules| - 1]) + if r.existing then {} else {r.port}
  }

  ghost predicate NoRepeats(rules: seq<Rule>) {
    rules == [] ||
    (NoRepeats(rules[..|rules| - 1]) && rules[|rules| - 1].port !in Ports(rules[..|rules| - 1]))
  }

  lemma {:induction false} ConcatRules(a: seq<Rule>, b: seq<Rule>)
    ensures Ports(a + b) == Ports(a) + Ports(b) && Own(a + b) == Own(a) + Own(b)
    ensures NoRepeats(a + b) <==> NoRepeats(a) && NoRepeats(b) && Ports(a) !! Ports(b)
  {
    if b == [] {
      assert a + b == a;
    } else {
      ConcatRules(a, b[..|b| - 1]);
      assert (a + b)[..|a + b| - 1] == a + b[..|b| - 1];
    }
  }

  lemma {:induction false} OwnInPorts(rules: seq<Rule>)
    ensures Own(rules) <= Ports(rules)
  {
    if rules != [] {
      OwnInPorts(rules[..|rules| - 1]);
    }
  }

  lemma OneRule(r: Rule)
    ensures Ports([r]) == {r.port} && Own([r]) == (if r.existing then {} else {r.port}) && NoRepeats([r])
  {
    assert [r][..0] == [];
  }

  lemma {:induction false} IndexOfIs(rules: seq<Rule>, p: Port)
    ensures IndexOf(rules, p).Some? <==> p in Ports(rules)
    ensures IndexOf(rules, p).Some? ==> IndexOf(rules, p).value.port == p
    ensures IndexOf(rules, p).Some? && !IndexOf(rules, p).value.existing ==> p in Own(rules)
  {
    if rules != [] {
      IndexOfIs(rules[1..], p);
      OneRule(rules[0]);
      ConcatRules([rules[0]], rules[1..]);
      assert [rules[0]] + rules[1..] == rules;
    }
  }

  /** One key's rules against the firewall: base is everything in it that they do not own. */
  ghost predicate Local(base: set<Port>, k: Kept) {
    NoRepeats(k.rules) && k.fw == base + Own(k.rules) && base !! Own(k.rules)
  }

  // ---- closing keeps it ----

  lemma {:induction false} DropRule(a: seq<Rule>, r: Rule, b: seq<Rule>)
    requires NoRepeats(a + ([r] + b))
    ensures NoRepeats(a + b) && r.port !in Own(a + b)
    ensures Own(a + ([r] + b)) == Own(a + b) + if r.existing then {} else {r.port}
  {
    OneRule(r);
    ConcatRules([r], b);
    ConcatRules(a, [r] + b);
    ConcatRules(a, b);
    OwnInPorts(a);
    OwnInPorts(b);
  }

  lemma DropExisting(base: set<Port>, a: seq<Rule>, r: Rule, b: seq<Rule>, fw: set<Port>)
    requires Local(base, Kept(a + ([r] + b), fw)) && r.existing
    ensures Local(base, Kept(a + b, fw))
  {
    DropRule(a, r, b);
  }

  lemma WithoutPort(base: set<Port>, own: set<Port>, p: Port)
    requires p !in own && base !! own + {p}
    ensures base + (own + {p}) - {p} == base + own && base !! own
  {
  }

  lemma DropOwn(base: set<Port>, a: seq<Rule>, r: Rule, b: seq<Rule>, fw: set<Port>)
    requires Local(base, Kept(a + ([r] + b), fw)) && !r.existing
    ensures Local(base, Kept(a + b, fw - {r.port}))
  {
    DropRule(a, r, b);
    WithoutPort(base, Own(a + b), r.port);
  }

  lemma CloseOneKeeps(base: set<Port>, k: Kept, r: Rule, rest: seq<Rule>, ports: seq<Port>, closed: bool)
    requires Local(base, Kept(k.rules + ([r] + rest), k.fw))
    ensures var n := CloseOne(k, r, ports, closed); Local(base, Kept(n.rules + rest, n.fw))
  {
    if r.port !in ports && r.existing {
      DropExisting(base, k.rules, r, rest, k.fw);
    } else if r.port !in ports && closed {
      DropOwn(base, k.rules, r, rest, k.fw);
    } else {
      assert k.rules + ([r] + rest) == (k.rules + [r]) + rest;
    }
  }

  lemma {:induction false} CloseKeeps(base: set<Port>, rules: seq<Rule>, rest: seq<Rule>, fw: set<Port>,
                                      ports: seq<Port>, closes: nat -> bool)
    requires Local(base, Kept(rules + rest, fw))
    ensures var n := Close(rules, fw, ports, closes); Local(base, Kept(n.rules + rest, n.fw))
  {
    if rules != [] {
      var n := |rules| - 1;
      assert rules + rest == rules[..n] + ([rules[n]] + rest);
      CloseKeeps(base, rules[..n], [rules[n]] + rest, fw, ports, closes);
      CloseOneKeeps(base, Close(rules[..n], fw, ports, closes), rules[n], rest, ports, closes(n));
    }
  }

  // ---- opening keeps it, unless a query is misread ----

  /** A port is opened, and recorded as the agent's, although the firewall has it: its query failed. */
  predicate Misread(o: Opened, p: Port, i: nat, managed: bool, node: Node, fate: Fate) {
    && p !in Ports(o.kept.rules) && managed && fate.detected
    && node.firewalld && !fate.queries(i) && fate.opens(i)
    && p in o.kept.fw
  }

  lemma OpenOneKeeps(base: set<Port>, o: Opened, p: Port, i: nat, managed: bool, node: Node, fate: Fate)
    requires Local(base, o.kept)
    ensures Local(base, OpenOne(o, p, i, managed, node, fate).kept) <==> !Misread(o, p, i, managed, node, fate)
  {
    IndexOfIs(o.kept.rules, p);
    OneRule(Rule(p, true));
    OneRule(Rule(p, false));
    ConcatRules(o.kept.rules, [Rule(p, true)]);
    ConcatRules(o.kept.rules, [Rule(p, false)]);
    OwnInPorts(o.kept.rules);
  }

  lemma OwnGrows(o: Opened, p: Port, i: nat, managed: bool, node: Node, fate: Fate)
    ensures Own(o.kept.rules) <= Own(OpenOne(o, p, i, managed, node, fate).kept.rules)
  {
    ConcatRules(o.kept.rules, [Rule(p, true)]);
    ConcatRules(o.kept.rules, [Rule(p, false)]);
  }

  ghost predicate MisreadAt(k: Kept, ports: seq<Port>, i: nat, managed: bool, node: Node, fate: Fate)
    requires i < |ports|
  {
    Misread(OpenAll(k, ports[..i], managed, node, fate), ports[i], i, managed, node, fate)
  }

  ghost predicate SomeMisread(k: Kept, ports: seq<Port>, managed: bool, node: Node, fate: Fate) {
    exists i :: 0 <= i < |ports| && MisreadAt(k, ports, i, managed, node, fate)
  }

  lemma MisreadStep(k: Kept, ports: seq<Port>, managed: bool, node: Node, fate: Fate)
    requires ports != []
    ensures
      var n := |ports| - 1;
      SomeMisread(k, ports, managed, node, fate) <==>
        SomeMisread(k, ports[..n], managed, node, fate) || MisreadAt(k, ports, n, managed, node, fate)
  {
    var n := |ports| - 1;
    forall i | 0 <= i < n
      ensures MisreadAt(k, ports[..n], i, managed, node, fate) <==> MisreadAt(k, ports, i, managed, node, fate)
    {
      assert ports[..n][..i] == ports[..i];
    }
    if i :| 0 <= i < n && MisreadAt(k, ports[..n], i, managed, node, fate) {
      assert MisreadAt(k, ports, i, managed, node, fate);
    }
    if i :| 0 <= i < |ports| && MisreadAt(k, ports, i, managed, node, fate) {
      assert i < n ==> MisreadAt(k, ports[..n], i, managed, node, fate);
    }
  }

  /** Opening keeps the account right exactly when no query is misread. */
  lemma {:induction false} OpenKeepsIff(base: set<Port>, k: Kept, ports: seq<Port>, managed: bool, node: Node,
                                        fate: Fate)
    requires Local(base, k)
    ensures Local(base, OpenAll(k, ports, managed, node, fate).kept) <==> !SomeMisread(k, ports, managed, node, fate)
    ensures SomeMisread(k, ports, managed, node, fate) ==>
            !(base !! Own(OpenAll(k, ports, managed, node, fate).kept.rules))
  {
    if ports != [] {
      var n := |ports| - 1;
      var o := OpenAll(k, ports[..n], managed, node, fate);
      OpenKeepsIff(base, k, ports[..n], managed, node, fate);
      MisreadStep(k, ports, managed, node, fate);
      OwnGrows(o, ports[n], n, managed, node, fate);
      if !SomeMisread(k, ports[..n], managed, node, fate) {
        OpenOneKeeps(base, o, ports[n], n, managed, node, fate);
        MisreadOverlaps(base, o, ports[n], n, managed, node, fate);
      }
    }
  }

  lemma MisreadOverlaps(base: set<Port>, o: Opened, p: Port, i: nat, managed: bool, node: Node, fate: Fate)
    requires Local(base, o.kept)
    ensures Misread(o, p, i, managed, node, fate) ==>
            p in base && p in Own(OpenOne(o, p, i, managed, node, fate).kept.rules)
  {
    IndexOfIs(o.kept.rules, p);
    OneRule(Rule(p, false));
    ConcatRules(o.kept.rules, [Rule(p, false)]);
    OwnInPorts(o.kept.rules);
  }

  // ---- the whole record ----

  function OwnAll(rules: map<string, seq<Rule>>): set<Port> {
    set key, p | key in rules && p in Own(rules[key]) :: p
  }

  ghost predicate Apart(rules: map<string, seq<Rule>>) {
    forall j, k :: j in rules && k in rules && j != k ==> Own(rules[j]) !! Own(rules[k])
  }

  /** The firewall is what it was at first and what the agent recorded as opened by itself; none of the
      latter was there at first, and nothing is recorded twice. */
  ghost predicate Conserved(st: State, initial: set<Port>) {
    && st.fw == initial + OwnAll(st.rules)
    && initial !! OwnAll(st.rules)
    && Apart(st.rules)
    && forall key :: key in st.rules ==> NoRepeats(st.rules[key])
  }

  /** All of the firewall that a key's rules do not own. */
  function Base(st: State, key: string): set<Port> { st.fw - Own(RulesOf(st, key)) }

  lemma OwnAllHas(rules: map<string, seq<Rule>>, key: string, p: Port)
    requires key in rules && p in Own(rules[key])
    ensures p in OwnAll(rules)
  {
  }

  lemma OwnAllWithout(rules: map<string, seq<Rule>>, key: string, p: Port)
    requires Apart(rules) && key in rules
    ensures p in OwnAll(rules - {key}) <==> p in OwnAll(rules) && p !in Own(rules[key])
  {
    if p in OwnAll(rules - {key}) {
      var j :| j in rules - {key} && p in Own((rules - {key})[j]);
      OwnAllHas(rules, j, p);
    }
    if p in OwnAll(rules) && p !in Own(rules[key]) {
      var j :| j in rules && p in Own(rules[j]);
      OwnAllHas(rules - {key}, j, p);
    }
  }

  lemma SplitKey(st: State, initial: set<Port>, key: string)
    requires Conserved(st, initial)
    ensures Local(Base(st, key), Kept(RulesOf(st, key), st.fw))
    ensures Base(st, key) == initial + OwnAll(st.rules - {key})
  {
    if key in st.rules {
      forall p ensures p in OwnAll(st.rules - {key}) <==> p in OwnAll(st.rules) && p !in Own(st.rules[key]) {
        OwnAllWithout(st.rules, key, p);
      }
      forall p | p in Own(st.rules[key]) ensures p in OwnAll(st.rules) {
        OwnAllHas(st.rules, key, p);
      }
    } else {
      assert st.rules - {key} == st.rules;
    }
  }

  lemma RejoinKey(st: State, initial: set<Port>, key: string, k: Kept)
    requires Conserved(st, initial) && Local(Base(st, key), k)
    ensures Conserved(Recorded(st, key, k), initial)
  {
    SplitKey(st, initial, key);
    var n := Recorded(st, key, k);
    var others := st.rules - {key};
    assert forall j :: j in others ==> n.rules[j] == others[j];
    forall p ensures p in OwnAll(n.rules) <==> p in OwnAll(others) || p in Own(k.rules) {
      if p in OwnAll(others) {
        var j :| j in others && p in Own(others[j]);
        assert p in Own(n.rules[j]);
      }
      if p in Own(k.rules) {
        assert key in n.rules && p in Own(n.rules[key]);
      }
    }
    forall j | j in others ensures Own(others[j]) !! Own(k.rules) {
      forall p | p in Own(others[j]) ensures p !in Own(k.rules) {
        assert p in OwnAll(others);
      }
    }
  }

  lemma OverlapBreaks(st: State, initial: set<Port>, key: string, k: Kept)
    requires Conserved(st, initial) && !(Base(st, key) !! Own(k.rules))
    ensures !Conserved(Recorded(st, key, k), initial)
  {
    SplitKey(st, initial, key);
    var n := Recorded(st, key, k);
    var p :| p in Base(st, key) && p in Own(k.rules);
    assert key in n.rules && p in OwnAll(n.rules);
    if p !in initial {
      var j :| j in st.rules - {key} && p in Own((st.rules - {key})[j]);
      assert n.rules[j] == st.rules[j] && !(Own(n.rules[j]) !! Own(n.rules[key]));
    }
  }

  /** Apply keeps the account right exactly when no query of its ports is misread. */
  lemma {:induction false} ApplyKeepsIff(st: State, initial: set<Port>, key: string, ports: seq<Port>, node: Node,
                                         fate: Fate)
    requires Conserved(st, initial)
    ensures Conserved(Applied(st, key, ports, node, fate), initial) <==>
            !SomeMisread(Close(RulesOf(st, key), st.fw, ports, fate.closes), ports, st.managed, node, fate)
  {
    var rules := RulesOf(st, key);
    var kept := Close(rules, st.fw, ports, fate.closes);
    SplitKey(st, initial, key);
    assert rules + [] == rules && kept.rules + [] == kept.rules;
    CloseKeeps(Base(st, key), rules, [], st.fw, ports, fate.closes);
    OpenKeepsIff(Base(st, key), kept, ports, st.managed, node, fate);
    var k := OpenAll(kept, ports, st.managed, node, fate).kept;
    if SomeMisread(kept, ports, st.managed, node, fate) {
      OverlapBreaks(st, initial, key, k);
    } else {
      RejoinKey(st, initial, key, k);
    }
  }

  /** Queries of the node's firewall are answered, or an unanswered one is told apart from a no. */
  ghost predicate Answers(node: Node, fate: Fate) { !node.firewalld || forall i :: fate.queries(i) }

  lemma ApplyKeeps(st: State, initial: set<Port>, key: string, ports: seq<Port>, node: Node, fate: Fate)
    requires Conserved(st, initial) && Answers(node, fate)
    ensures Conserved(Applied(st, key, ports, node, fate), initial)
  {
    ApplyKeepsIff(st, initial, key, ports, node, fate);
  }

  lemma {:induction false} AllRemovedKeeps(st: State, initial: set<Port>, order: seq<string>, node: Node,
                                           fates: nat -> Fate)
    requires Conserved(st, initial)
    ensures Conserved(AllRemoved(st, order, node, fates), initial)
  {
    if order != [] {
      var n := |order| - 1;
      AllRemovedKeeps(st, initial, order[..n], node, fates);
      ApplyKeepsIff(AllRemoved(st, order[..n], node, fates), initial, order[n], [], node, fates(n));
    }
  }

  // ---- runs ----

  datatype Step =
    | Apply(key: string, ports: seq<Port>, fate: Fate)
    | Remove(key: string, fate: Fate)
    | Configure(managed: bool, sftp: Option<nat>, order: seq<string>, fates: nat -> Fate)

  function Do(st: State, step: Step, node: Node): State {
    match step
    case Apply(key, ports, fate) => Applied(st, key, ports, node, fate)
    case Remove(key, fate) => Removed(st, key, node, fate)
    case Configure(managed, sftp, order, fates) => Configured(st, managed, sftp, order, node, fates)
  }

  ghost predicate StepAnswers(step: Step, node: Node) {
    match step
    case Apply(_, _, fate) => Answers(node, fate)
    case Remove(_, _) => true
    case Configure(managed, _, _, fates) => managed ==> Answers(node, fates(0))
  }

  function After(initial: set<Port>, steps: seq<Step>, node: Node): State {
    if steps == [] then State(false, map[], initial)
    else Do(After(initial, steps[..|steps| - 1], node), steps[|steps| - 1], node)
  }

  /** Whatever is applied, removed and configured, and whichever commands fail: the firewall is its
      initial rules plus those recorded as opened by the agent, and no initial rule is ever removed. */
  lemma {:induction false} AlwaysConserved(initial: set<Port>, steps: seq<Step>, node: Node)
    requires forall i :: 0 <= i < |steps| ==> StepAnswers(steps[i], node)
    ensures Conserved(After(initial, steps, node), initial)
    ensures initial <= After(initial, steps, node).fw
  {
    if steps != [] {
      var before, step := steps[..|steps| - 1], steps[|steps| - 1];
      AlwaysConserved(initial, before, node);
      var st := After(initial, before, node);
      match step {
        case Apply(key, ports, fate) => ApplyKeeps(st, initial, key, ports, node, fate);
        case Remove(key, fate) => ApplyKeepsIff(st, initial, key, [], node, fate);
        case Configure(managed, sftp, order, fates) =>
          assert Conserved(st.(managed := managed), initial);
          if managed {
            ApplyKeeps(st.(managed := true), initial, SFTP_KEY, SftpPorts(sftp), node, fates(0));
          } else {
            AllRemovedKeeps(st.(managed := false), initial, order, node, fates);
          }
      }
    }
  }

  // ---- while management is off ----

  lemma {:induction false} CloseOnlyCloses(rules: seq<Rule>, fw: set<Port>, ports: seq<Port>, closes: nat -> bool)
    ensures Close(rules, fw, ports, closes).fw <= fw
  {
    if rules != [] {
      CloseOnlyCloses(rules[..|rules| - 1], fw, ports, closes);
    }
  }

  /** What is reported when nothing can be opened: the ports that have a rule already, and errors. */
  ghost predicate Reported(k: Kept, ports: seq<Port>, reports: seq<Report>) {
    && |reports| == |ports|
    && forall i :: 0 <= i < |ports| ==>
         reports[i] == match IndexOf(k.rules, ports[i]) case Some(r) => ReportOf(r) case None => Error
  }

  /** With management off, or without a firewall, nothing is opened, and every port without a rule is an error. */
  lemma {:induction false} CannotOpen(k: Kept, ports: seq<Port>, managed: bool, node: Node, fate: Fate)
    requires !managed || !fate.detected
    ensures OpenAll(k, ports, managed, node, fate).kept == k
    ensures Reported(k, ports, OpenAll(k, ports, managed, node, fate).reports)
  {
    if ports != [] {
      CannotOpen(k, ports[..|ports| - 1], managed, node, fate);
    }
  }

  lemma {:induction false} OffOpensNothing(st: State, order: seq<string>, node: Node, fates: nat -> Fate)
    requires !st.managed
    ensures AllRemoved(st, order, node, fates).fw <= st.fw && !AllRemoved(st, order, node, fates).managed
  {
    if order != [] {
      var n := |order| - 1;
      var before := AllRemoved(st, order[..n], node, fates);
      OffOpensNothing(st, order[..n], node, fates);
      CloseOnlyCloses(RulesOf(before, order[n]), before.fw, [], fates(n).closes);
    }
  }

  /** Nothing is opened while management is off, or by turning it off. */
  lemma NothingOpenedWhileOff(st: State, step: Step, node: Node)
    requires if step.Configure? then !step.managed else !st.managed
    ensures Do(st, step, node).fw <= st.fw
  {
    match step {
      case Apply(key, ports, fate) =>
        CloseOnlyCloses(RulesOf(st, key), st.fw, ports, fate.closes);
        CannotOpen(Close(RulesOf(st, key), st.fw, ports, fate.closes), ports, st.managed, node, fate);
      case Remove(key, fate) =>
        CloseOnlyCloses(RulesOf(st, key), st.fw, [], fate.closes);
      case Configure(_, _, order, fates) =>
        OffOpensNothing(st.(managed := false), order, node, fates);
    }
  }

  lemma {:induction false} AllClosed(rules: seq<Rule>, fw: set<Port>, closes: nat -> bool)
    requires forall i :: closes(i)
    ensures Close(rules, fw, [], closes).rules == []
  {
    if rules != [] {
      AllClosed(rules[..|rules| - 1], fw, closes);
    }
  }

  lemma {:induction false} OrderRemoved(st: State, order: seq<string>, node: Node, fates: nat -> Fate)
    requires forall n, i :: fates(n).closes(i)
    ensures AllRemoved(st, order, node, fates).rules == map key | key in st.rules && key !in order :: st.rules[key]
  {
    if order != [] {
      var n := |order| - 1;
      var before := AllRemoved(st, order[..n], node, fates);
      OrderRemoved(st, order[..n], node, fates);
      AllClosed(RulesOf(before, order[n]), before.fw, fates(n).closes);
      assert order == order[..n] + [order[n]];
    }
  }

  /** Turning management off, with closes that succeed, leaves the firewall as it was at first. */
  lemma {:induction false} TurningOffRestores(initial: set<Port>, steps: seq<Step>, node: Node, order: seq<string>,
                                              fates: nat -> Fate, sftp: Option<nat>)
    requires forall i :: 0 <= i < |steps| ==> StepAnswers(steps[i], node)
    requires forall n, i :: fates(n).closes(i)
    requires forall key :: key in After(initial, steps, node).rules ==> key in order
    ensures var st := Do(After(initial, steps, node), Configure(false, sftp, order, fates), node);
            st == State(false, map[], initial)
  {
    AlwaysConserved(initial, steps, node);
    var st := After(initial, steps, node).(managed := false);
    OrderRemoved(st, order, node, fates);
    AllRemovedKeeps(st, initial, order, node, fates);
    OffOpensNothing(st, order, node, fates);
    assert AllRemoved(st, order, node, fates).rules == map[];
  }

  // ---- what is reported ----

  ghost predicate OpenHolds(o: Opened, ports: seq<Port>) {
    |o.reports| == |ports| && forall i :: 0 <= i < |ports| && o.reports[i].Open? ==> ports[i] in Own(o.kept.rules)
  }

  lemma {:induction false} OpenIsOwned(k: Kept, ports: seq<Port>, managed: bool, node: Node, fate: Fate)
    ensures OpenHolds(OpenAll(k, ports, managed, node, fate), ports)
  {
    if ports != [] {
      var n := |ports| - 1;
      var o := OpenAll(k, ports[..n], managed, node, fate);
      OpenIsOwned(k, ports[..n], managed, node, fate);
      OwnGrows(o, ports[n], n, managed, node, fate);
      IndexOfIs(o.kept.rules, ports[n]);
      OneRule(Rule(ports[n], false));
      ConcatRules(o.kept.rules, [Rule(ports[n], false)]);
      assert forall i :: 0 <= i < n ==> ports[..n][i] == ports[i];
    }
  }

  /** A port that apply reports as open is open in the firewall. */
  lemma {:induction false} ReportedOpenIsOpen(st: State, initial: set<Port>, key: string, ports: seq<Port>,
                                              node: Node, fate: Fate, i: nat)
    requires Conserved(st, initial) && Answers(node, fate) && i < |ports|
    ensures
      var o := OpenAll(Close(RulesOf(st, key), st.fw, ports, fate.closes), ports, st.managed, node, fate);
      |o.reports| == |ports| && (o.reports[i].Open? ==> ports[i] in Applied(st, key, ports, node, fate).fw)
  {
    var o := OpenAll(Close(RulesOf(st, key), st.fw, ports, fate.closes), ports, st.managed, node, fate);
    var n := Applied(st, key, ports, node, fate);
    OpenIsOwned(Close(RulesOf(st, key), st.fw, ports, fate.closes), ports, st.managed, node, fate);
    ApplyKeeps(st, initial, key, ports, node, fate);
    if o.reports[i].Open? {
      assert key in n.rules && ports[i] in Own(n.rules[key]);
    }
  }

  /** Some command of the call that opens the port succeeds. */
  ghost predicate OpenedBy(ports: seq<Port>, p: Port, managed: bool, fate: Fate) {
    managed && fate.detected && exists i :: 0 <= i < |ports| && ports[i] == p && fate.opens(i)
  }

  lemma {:induction false} CommandOpens(k: Kept, ports: seq<Port>, managed: bool, node: Node, fate: Fate, p: Port)
    requires p in OpenAll(k, ports, managed, node, fate).kept.fw && p !in k.fw
    ensures OpenedBy(ports, p, managed, fate)
  {
    var n := |ports| - 1;
    if p in OpenAll(k, ports[..n], managed, node, fate).kept.fw {
      CommandOpens(k, ports[..n], managed, node, fate, p);
      var i :| 0 <= i < n && ports[..n][i] == p && fate.opens(i);
      assert ports[i] == p;
    } else {
      assert ports[n] == p && fate.opens(n);
    }
  }

  /** Whatever fails: apply opens no port but those it is given, each by a command that succeeds, with management
      on. */
  lemma {:induction false} OnlyCommandsOpen(st: State, key: string, ports: seq<Port>, node: Node, fate: Fate, p: Port)
    requires p in Applied(st, key, ports, node, fate).fw && p !in st.fw
    ensures OpenedBy(ports, p, st.managed, fate)
  {
    CloseOnlyCloses(RulesOf(st, key), st.fw, ports, fate.closes);
    CommandOpens(Close(RulesOf(st, key), st.fw, ports, fate.closes), ports, st.managed, node, fate, p);
  }

  // ---- what is reported as existing ----

  /** The ports recorded as open before the agent looked. */
  function Foreign(rules: seq<Rule>): set<Port> { set r | r in rules && r.existing :: r.port }

  lemma {:induction false} IndexOfForeign(rules: seq<Rule>, p: Port)
    ensures IndexOf(rules, p).Some? && IndexOf(rules, p).value.existing ==> p in Foreign(rules)
  {
    if rules != [] && rules[0].port != p {
      IndexOfForeign(rules[1..], p);
    }
  }

  ghost predicate ExistingHolds(k: Kept, o: Opened, ports: seq<Port>, node: Node) {
    && |o.reports| == |ports|
    && o.kept.fw <= k.fw + Ports(o.kept.rules)
    && Foreign(o.kept.rules) <= Foreign(k.rules) + k.fw + node.broad
    && forall i :: 0 <= i < |ports| && o.reports[i].Existing? ==> ports[i] in Foreign(k.rules) + k.fw + node.broad
  }

  lemma ExistingNext(k: Kept, o: Opened, ports: seq<Port>, p: Port, managed: bool, node: Node, fate: Fate)
    requires ExistingHolds(k, o, ports, node)
    ensures ExistingHolds(k, OpenOne(o, p, |ports|, managed, node, fate), ports + [p], node)
  {
    var rules := o.kept.rules;
    IndexOfIs(rules, p);
    IndexOfForeign(rules, p);
    PortsNext(rules, Rule(p, true));
    PortsNext(rules, Rule(p, false));
  }

  lemma PortsNext(rules: seq<Rule>, r: Rule)
    ensures Ports(rules + [r]) == Ports(rules) + {r.port}
    ensures Foreign(rules + [r]) == Foreign(rules) + if r.existing then {r.port} else {}
  {
    OneRule(r);
    ConcatRules(rules, [r]);
  }

  lemma {:induction false} ExistingIsThere(k: Kept, ports: seq<Port>, managed: bool, node: Node, fate: Fate)
    ensures ExistingHolds(k, OpenAll(k, ports, managed, node, fate), ports, node)
  {
    if ports != [] {
      var n := |ports| - 1;
      ExistingIsThere(k, ports[..n], managed, node, fate);
      ExistingNext(k, OpenAll(k, ports[..n], managed, node, fate), ports[..n], ports[n], managed, node, fate);
      assert ports == ports[..n] + [ports[n]];
    }
  }

  lemma {:induction false} CloseAddsNone(rules: seq<Rule>, fw: set<Port>, ports: seq<Port>, closes: nat -> bool)
    ensures Foreign(Close(rules, fw, ports, closes).rules) <= Foreign(rules)
  {
    if rules != [] {
      var n := |rules| - 1;
      CloseAddsNone(rules[..n], fw, ports, closes);
      var k := Close(rules[..n], fw, ports, closes);
      assert forall r :: r in rules[..n] ==> r in rules;
      assert Foreign(rules[..n]) <= Foreign(rules);
      assert Foreign(k.rules + [rules[n]]) == Foreign(k.rules) + if rules[n].existing then {rules[n].port} else {};
    }
  }

  /** A port that apply reports as existing was open before the call, or was recorded so earlier:
      whatever fails. */
  lemma ReportedExistingIsThere(st: State, key: string, ports: seq<Port>, node: Node, fate: Fate, i: nat)
    requires i < |ports|
    ensures
      var o := OpenAll(Close(RulesOf(st, key), st.fw, ports, fate.closes), ports, st.managed, node, fate);
      |o.reports| == |ports| &&
      (o.reports[i].Existing? ==> ports[i] in st.fw || ports[i] in node.broad || ports[i] in Foreign(RulesOf(st, key)))
  {
    var k := Close(RulesOf(st, key), st.fw, ports, fate.closes);
    ExistingIsThere(k, ports, st.managed, node, fate);
    CloseOnlyCloses(RulesOf(st, key), st.fw, ports, fate.closes);
    CloseAddsNone(RulesOf(st, key), st.fw, ports, fate.closes);
  }

  // ---- a call in which every command succeeds ----

  function Elements(ports: seq<Port>): set<Port> { set p | p in ports }

  /** The first n ports can be opened: management is on, a firewall is there, its commands succeed. */
  ghost predicate CanOpen(managed: bool, fate: Fate, n: nat) {
    forall i :: 0 <= i < n ==> OpensAt(managed, fate, i)
  }

  ghost predicate OpensAt(managed: bool, fate: Fate, i: nat) {
    managed && fate.detected && fate.queries(i) && fate.opens(i)
  }

  /** The ports of a call that nothing opened yet: no rule of the key, and no rule of the firewall. */
  function Unopened(k: Kept, ports: seq<Port>, node: Node): set<Port> {
    Elements(ports) - Ports(k.rules) - k.fw - node.broad
  }

  function Expected(k: Kept, p: Port, node: Node): Report {
    if p in Own(k.rules) || (p !in Ports(k.rules) && p !in k.fw && p !in node.broad) then Open else Existing
  }

  ghost predicate OpenedExactly(k: Kept, o: Opened, ports: seq<Port>, node: Node) {
    && NoRepeats(o.kept.rules)
    && Ports(o.kept.rules) == Ports(k.rules) + Elements(ports)
    && Own(o.kept.rules) == Own(k.rules) + Unopened(k, ports, node)
    && o.kept.fw == k.fw + Unopened(k, ports, node)
    && |o.reports| == |ports|
    && forall i :: 0 <= i < |ports| ==> o.reports[i] == Expected(k, ports[i], node)
  }

  lemma {:induction false} RepeatedFinds(rules: seq<Rule>, p: Port)
    requires NoRepeats(rules)
    ensures IndexOf(rules, p).Some? && IndexOf(rules, p).value.existing ==> p !in Own(rules)
  {
    if rules != [] {
      var rest := rules[1..];
      assert rules == [rules[0]] + rest;
      ConcatRules([rules[0]], rest);
      OneRule(rules[0]);
      OwnInPorts(rest);
      RepeatedFinds(rest, p);
    }
  }

  lemma NoneOpened(k: Kept, node: Node)
    requires NoRepeats(k.rules)
    ensures OpenedExactly(k, Opened(k, []), [], node)
  {
    assert Elements([]) == {};
  }

  lemma {:induction false} AllOpened(k: Kept, ports: seq<Port>, managed: bool, node: Node, fate: Fate)
    requires NoRepeats(k.rules) && CanOpen(managed, fate, |ports|)
    ensures OpenedExactly(k, OpenAll(k, ports, managed, node, fate), ports, node)
  {
    if ports == [] {
      NoneOpened(k, node);
    } else {
      var n := |ports| - 1;
      var first, p := ports[..n], ports[n];
      assert OpensAt(managed, fate, n);
      AllOpened(k, first, managed, node, fate);
      var o := OpenAll(k, first, managed, node, fate);
      assert OpenAll(k, ports, managed, node, fate) == OpenOne(o, p, n, managed, node, fate);
      assert first + [p] == ports;
      OpenedNext(k, o, first, p, managed, node, fate);
    }
  }

  lemma RulesNext(rules: seq<Rule>, r: Rule)
    requires NoRepeats(rules) && IndexOf(rules, r.port).None?
    ensures NoRepeats(rules + [r]) && Ports(rules + [r]) == Ports(rules) + {r.port}
    ensures Own(rules + [r]) == Own(rules) + if r.existing then {} else {r.port}
  {
    IndexOfIs(rules, r.port);
    OneRule(r);
    ConcatRules(rules, [r]);
  }

  lemma OpenedNext(k: Kept, o: Opened, ports: seq<Port>, p: Port, managed: bool, node: Node, fate: Fate)
    requires OpenedExactly(k, o, ports, node) && OpensAt(managed, fate, |ports|)
    ensures OpenedExactly(k, OpenOne(o, p, |ports|, managed, node, fate), ports + [p], node)
  {
    IndexOfIs(o.kept.rules, p);
    OwnInPorts(k.rules);
    assert Elements(ports + [p]) == Elements(ports) + {p};
    if IndexOf(o.kept.rules, p).Some? {
      RepeatedFinds(o.kept.rules, p);
      assert Unopened(k, ports + [p], node) == Unopened(k, ports, node);
    } else if p in o.kept.fw || p in node.broad {
      RulesNext(o.kept.rules, Rule(p, true));
      assert Unopened(k, ports + [p], node) == Unopened(k, ports, node);
    } else {
      RulesNext(o.kept.rules, Rule(p, false));
      assert Unopened(k, ports + [p], node) == Unopened(k, ports, node) + {p};
    }
  }

  /** What closing does not concern stays: the rules for ports that are wanted, and those ports. */
  lemma {:induction false} CloseLeavesWanted(rules: seq<Rule>, fw: set<Port>, ports: seq<Port>, closes: nat -> bool,
                                             p: Port)
    requires p in ports
    ensures
      var k := Close(rules, fw, ports, closes);
      && (p in Ports(k.rules) <==> p in Ports(rules)) && (p in Own(k.rules) <==> p in Own(rules))
      && (p in k.fw <==> p in fw)
  {
    if rules != [] {
      var n := |rules| - 1;
      CloseLeavesWanted(rules[..n], fw, ports, closes, p);
      var k := Close(rules[..n], fw, ports, closes);
      OneRule(rules[n]);
      ConcatRules(k.rules, [rules[n]]);
    }
  }

  /** What is left after closing all rules that are wanted no more. */
  ghost predicate Closed(rules: seq<Rule>, fw: set<Port>, k: Kept, ports: seq<Port>) {
    && Ports(k.rules) == Ports(rules) * Elements(ports)
    && Own(k.rules) == Own(rules) * Elements(ports)
    && k.fw == fw - (Own(rules) - Elements(ports))
  }

  lemma ClosedNext(rules: seq<Rule>, fw: set<Port>, k: Kept, ports: seq<Port>, r: Rule)
    requires Closed(rules, fw, k, ports)
    ensures Closed(rules + [r], fw, CloseOne(k, r, ports, true), ports)
  {
    OneRule(r);
    ConcatRules(rules, [r]);
    ConcatRules(k.rules, [r]);
  }

  lemma {:induction false} ClosedExactly(rules: seq<Rule>, fw: set<Port>, ports: seq<Port>, closes: nat -> bool)
    requires forall i :: 0 <= i < |rules| ==> closes(i)
    ensures Closed(rules, fw, Close(rules, fw, ports, closes), ports)
  {
    if rules != [] {
      var n := |rules| - 1;
      ClosedExactly(rules[..n], fw, ports, closes);
      ClosedNext(rules[..n], fw, Close(rules[..n], fw, ports, closes), ports, rules[n]);
      assert rules == rules[..n] + [rules[n]];
    }
  }

  lemma {:induction false} NoPorts(rules: seq<Rule>)
    ensures Ports(rules) == {} <==> rules == []
  {
  }

  lemma ClosedHasNoRepeats(st: State, initial: set<Port>, key: string, ports: seq<Port>, closes: nat -> bool)
    requires Conserved(st, initial)
    ensures NoRepeats(Close(RulesOf(st, key), st.fw, ports, closes).rules)
  {
    var rules := RulesOf(st, key);
    SplitKey(st, initial, key);
    var k := Close(rules, st.fw, ports, closes);
    assert rules + [] == rules && k.rules + [] == k.rules;
    CloseKeeps(Base(st, key), rules, [], st.fw, ports, closes);
  }

  /** With management on and commands that succeed, each port is reported, never as an error: as existing
      when the key has it recorded so, or has no rule for it and the firewall opens it already; otherwise as
      open. */
  lemma ReportsTell(st: State, initial: set<Port>, key: string, ports: seq<Port>, node: Node, fate: Fate, i: nat)
    requires Conserved(st, initial) && CanOpen(st.managed, fate, |ports|) && i < |ports|
    ensures
      var o := OpenAll(Close(RulesOf(st, key), st.fw, ports, fate.closes), ports, st.managed, node, fate);
      && |o.reports| == |ports|
      && o.reports[i] == Expected(Kept(RulesOf(st, key), st.fw), ports[i], node)
  {
    var rules := RulesOf(st, key);
    ClosedHasNoRepeats(st, initial, key, ports, fate.closes);
    AllOpened(Close(rules, st.fw, ports, fate.closes), ports, st.managed, node, fate);
    CloseLeavesWanted(rules, st.fw, ports, fate.closes, ports[i]);
  }

  /** With management on and commands that succeed, apply makes the rules of the key exactly the ports: those
      it had opened and are wanted no more are closed, and every port that nothing opens yet is opened. The
      same holds of no ports with management off or without a firewall. No other key's rules change. */
  lemma ApplyMakesExactly(st: State, initial: set<Port>, key: string, ports: seq<Port>, node: Node, fate: Fate)
    requires Conserved(st, initial) && CanOpen(st.managed, fate, |ports|)
    requires forall i :: 0 <= i < |RulesOf(st, key)| ==> fate.closes(i)
    ensures
      var before, after := RulesOf(st, key), Applied(st, key, ports, node, fate);
      var added := Unopened(Kept(before, st.fw), ports, node);
      && Ports(RulesOf(after, key)) == Elements(ports) && (key in after.rules <==> ports != [])
      && Own(RulesOf(after, key)) == Own(before) * Elements(ports) + added
      && after.fw == st.fw - (Own(before) - Elements(ports)) + added
      && after.managed == st.managed
      && forall other :: other != key ==> RulesOf(after, other) == RulesOf(st, other)
  {
    var rules := RulesOf(st, key);
    var k := Close(rules, st.fw, ports, fate.closes);
    ClosedHasNoRepeats(st, initial, key, ports, fate.closes);
    AllOpened(k, ports, st.managed, node, fate);
    ClosedExactly(rules, st.fw, ports, fate.closes);
    var n := OpenAll(k, ports, st.managed, node, fate).kept;
    ExactlyMade(Kept(rules, st.fw), k, n, ports, node);
    assert RulesOf(Recorded(st, key, n), key) == n.rules;
  }

  lemma ExactlyMade(first: Kept, k: Kept, n: Kept, ports: seq<Port>, node: Node)
    requires Closed(first.rules, first.fw, k, ports)
    requires Ports(n.rules) == Ports(k.rules) + Elements(ports)
    requires Own(n.rules) == Own(k.rules) + Unopened(k, ports, node) && n.fw == k.fw + Unopened(k, ports, node)
    ensures
      var added := Unopened(first, ports, node);
      && Ports(n.rules) == Elements(ports) && (n.rules != [] <==> ports != [])
      && Own(n.rules) == Own(first.rules) * Elements(ports) + added
      && n.fw == first.fw - (Own(first.rules) - Elements(ports)) + added
  {
    assert Unopened(k, ports, node) == Unopened(first, ports, node);
    NoPorts(n.rules);
    assert ports != [] ==> ports[0] in Elements(ports);
  }

  /** Each port of such a call is open afterwards, unless the key has recorded it as existing before. */
  lemma EachPortIsOpen(st: State, initial: set<Port>, key: string, ports: seq<Port>, node: Node, fate: Fate, p: Port)
    requires Conserved(st, initial) && CanOpen(st.managed, fate, |ports|) && p in ports
    requires forall i :: 0 <= i < |RulesOf(st, key)| ==> fate.closes(i)
    ensures p in Applied(st, key, ports, node, fate).fw || p in node.broad || p in Foreign(RulesOf(st, key))
  {
    ApplyMakesExactly(st, initial, key, ports, node, fate);
    OwnOrForeign(RulesOf(st, key));
    if p in Own(RulesOf(st, key)) {
      assert key in st.rules && p in OwnAll(st.rules);
    }
  }

  lemma {:induction false} OwnOrForeign(rules: seq<Rule>)
    ensures Ports(rules) == Own(rules) + Foreign(rules)
  {
    if rules != [] {
      var n := |rules| - 1;
      OwnOrForeign(rules[..n]);
      assert rules == rules[..n] + [rules[n]];
      assert Foreign(rules) == Foreign(rules[..n]) + if rules[n].existing then {rules[n].port} else {};
    }
  }

  /** Removing a key, with closes that succeed, closes exactly the ports the agent opened for it. */
  lemma RemoveCloses(st: State, initial: set<Port>, key: string, node: Node, fate: Fate)
    requires Conserved(st, initial) && forall i :: 0 <= i < |RulesOf(st, key)| ==> fate.closes(i)
    ensures
      var after := Do(st, Remove(key, fate), node);
      after == State(st.managed, st.rules - {key}, st.fw - Own(RulesOf(st, key)))
  {
    ApplyMakesExactly(st, initial, key, [], node, fate);
    assert Elements([]) == {};
  }

  /** Turning management on opens the port of the file server, where nothing else opens it yet. */
  lemma TurningOnOpens(st: State, initial: set<Port>, port: nat, order: seq<string>, node: Node, fates: nat -> Fate)
    requires Conserved(st, initial) && CanOpen(true, fates(0), 1)
    requires forall i :: 0 <= i < |RulesOf(st, SFTP_KEY)| ==> fates(0).closes(i)
    ensures
      var p, after := Port(port, Tcp), Do(st, Configure(true, Some(port), order, fates), node);
      && after.managed && Ports(RulesOf(after, SFTP_KEY)) == {p}
      && (p in after.fw || p in node.broad || p in Foreign(RulesOf(st, SFTP_KEY)))
  {
    var p, on := Port(port, Tcp), st.(managed := true);
    assert Conserved(on, initial);
    ApplyMakesExactly(on, initial, SFTP_KEY, [p], node, fates(0));
    EachPortIsOpen(on, initial, SFTP_KEY, [p], node, fates(0), p);
    assert Elements([p]) == {p};
  }

  // ---- a misread query loses an initial rule ----

  const ANSWERED := Fate(true, (_: nat) => true, (_: nat) => true, (_: nat) => true)

  const UNANSWERED := Fate(true, (_: nat) => false, (_: nat) => true, (_: nat) => true)

  /** Management is turned on, a port is applied for a key while its query fails, and the key is removed. */
  function LossRun(key: string, p: Port): seq<Step> {
    [Step.Configure(true, None, [], (_: nat) => ANSWERED), Step.Apply(key, [p], UNANSWERED),
     Step.Remove(key, ANSWERED)]
  }

  lemma {:induction false} TurnedOn(initial: set<Port>, key: string, p: Port, node: Node)
    ensures After(initial, LossRun(key, p)[..1], node) == State(true, map[], initial)
  {
    var on := LossRun(key, p)[..1];
    assert on[..0] == [] && on[0] == LossRun(key, p)[0];
    assert Close([], initial, [], ANSWERED.closes) == Kept([], initial);
    assert OpenAll(Kept([], initial), [], true, node, ANSWERED).kept == Kept([], initial);
  }

  lemma MisreadApplied(initial: set<Port>, key: string, p: Port, broad: set<Port>)
    ensures Applied(State(true, map[], initial), key, [p], Node(true, broad), UNANSWERED) ==
            State(true, map[key := [Rule(p, false)]], initial + {p})
  {
    var node := Node(true, broad);
    assert [p][..0] == [];
    assert OpenAll(Kept([], initial), [], true, node, UNANSWERED) == Opened(Kept([], initial), []);
    assert OpenAll(Kept([], initial), [p], true, node, UNANSWERED).kept == Kept([Rule(p, false)], initial + {p});
  }

  lemma RecordedRemoved(fw: set<Port>, key: string, p: Port, node: Node)
    ensures Removed(State(true, map[key := [Rule(p, false)]], fw), key, node, ANSWERED).fw == fw - {p}
  {
    assert [Rule(p, false)][..0] == [];
    assert Close([Rule(p, false)], fw, [], ANSWERED.closes) == Kept([], fw - {p});
  }

  /** On firewalld such a run removes the port from the firewall, whether or not it was open at first: an
      initial rule is lost. */
  lemma {:induction false} InitialRuleLost(initial: set<Port>, key: string, p: Port, broad: set<Port>)
    ensures After(initial, LossRun(key, p), Node(true, broad)).fw == initial - {p}
  {
    var node, steps := Node(true, broad), LossRun(key, p);
    assert steps[..2][..1] == steps[..1] && steps[..2] == steps[..3][..2] && steps[..3] == steps;
    TurnedOn(initial, key, p, node);
    MisreadApplied(initial, key, p, broad);
    assert After(initial, steps[..2], node) == State(true, map[key := [Rule(p, false)]], initial + {p});
    RecordedRemoved(initial + {p}, key, p, node);
    assert initial + {p} - {p} == initial - {p};
  }
}
