/** What a backup leaves out (the Matcher of agent/internal/backups/backups.go). */
module Globs {
  import opened Common
  import opened Text

  /** How one pattern segment matches one name: path.Match of the Go library. */
  type Segment = (string, string) -> bool

  const ANY := "**"

  // ---- patterns as lists of segments ----

  predicate Matches(p: seq<string>, s: seq<string>, seg: Segment)
    decreases |p|
  {
    if p == [] then s == []
    else if p[0] == ANY then |p| == 1 || exists i :: 0 <= i <= |s| && Matches(p[1..], s[i..], seg)
    else s != [] && seg(p[0], s[0]) && Matches(p[1..], s[1..], seg)
  }

  method MatchSegs(pattern: seq<string>, segments: seq<string>, seg: Segment) returns (r: bool)
    ensures r == Matches(pattern, segments, seg)
    decreases |pattern|
  {
    var p, s := pattern, segments;
    while p != []
      invariant |p| <= |pattern| && Matches(p, s, seg) == Matches(pattern, segments, seg)
      decreases |p|
    {
      if p[0] == ANY {
        if |p| == 1 {
          return true;
        }
        for i := 0 to |s| + 1
          invariant forall j :: 0 <= j < i ==> !Matches(p[1..], s[j..], seg)
        {
          var found := MatchSegs(p[1..], s[i..], seg);
          if found {
            return true;
          }
        }
        return false;
      }
      if s == [] || !seg(p[0], s[0]) {
        return false;
      }
      p, s := p[1..], s[1..];
    }
    return s == [];
  }

  // ---- what a pattern means ----

  /** The names one pattern segment stands for: any run of them for `**`, else one that it matches. */
  ghost predicate StandsFor(p: string, run: seq<string>, seg: Segment) {
    p == ANY || (|run| == 1 && seg(p, run[0]))
  }

  ghost predicate Splits(p: seq<string>, s: seq<string>, runs: seq<seq<string>>, seg: Segment) {
    |runs| == |p| && Flat(runs) == s && forall i :: 0 <= i < |p| ==> StandsFor(p[i], runs[i], seg)
  }

  lemma {:induction false} SplitOf(p: seq<string>, s: seq<string>, seg: Segment) returns (runs: seq<seq<string>>)
    requires Matches(p, s, seg)
    ensures Splits(p, s, runs, seg)
    decreases |p|
  {
    if p == [] {
      runs := [];
    } else if p[0] == ANY && |p| == 1 {
      runs := [s];
      FlatFirst(runs);
      assert runs[1..] == [];
    } else {
      var i: nat := 1;
      if p[0] == ANY {
        i :| 0 <= i <= |s| && Matches(p[1..], s[i..], seg);
      }
      var rest := SplitOf(p[1..], s[i..], seg);
      runs := [s[..i]] + rest;
      assert runs[1..] == rest;
      FlatFirst(runs);
      forall k | 0 <= k < |p| ensures StandsFor(p[k], runs[k], seg) {
        assert k > 0 ==> p[k] == p[1..][k - 1] && runs[k] == rest[k - 1];
      }
    }
  }

  lemma {:induction false} SplitMatches(p: seq<string>, s: seq<string>, runs: seq<seq<string>>, seg: Segment)
    requires Splits(p, s, runs, seg)
    ensures Matches(p, s, seg)
    decreases |p|
  {
    if p != [] {
      var n := |runs[0]|;
      FlatFirst(runs);
      assert s[n..] == Flat(runs[1..]) && s[..n] == runs[0];
      forall k | 0 <= k < |p[1..]| ensures StandsFor(p[1..][k], runs[1..][k], seg) {
        assert StandsFor(p[k + 1], runs[k + 1], seg);
      }
      SplitMatches(p[1..], s[n..], runs[1..], seg);
      assert StandsFor(p[0], runs[0], seg);
    }
  }

  /** A pattern matches exactly the paths that split into runs its segments stand for. */
  lemma {:induction false} MatchesIffSplits(p: seq<string>, s: seq<string>, seg: Segment)
    ensures Matches(p, s, seg) <==> exists runs :: Splits(p, s, runs, seg)
  {
    if Matches(p, s, seg) {
      var runs := SplitOf(p, s, seg);
    }
    if runs :| Splits(p, s, runs, seg) {
      SplitMatches(p, s, runs, seg);
    }
  }

  // ---- one pattern and one path ----

  function LastName(segments: seq<string>): string {
    if segments == [] then "/"
    else if segments[|segments| - 1] != "" then segments[|segments| - 1]
    else LastName(segments[..|segments| - 1])
  }

  /** path.Base of the path with these segments. */
  function Base(segments: seq<string>): string { if segments == [""] then "." else LastName(segments) }

  predicate GlobMatches(pattern: string, segments: seq<string>, seg: Segment)
    requires segments != []
  {
    if '/' !in pattern then seg(pattern, Base(segments)) else Matches(Split(pattern, '/'), segments, seg)
  }

  predicate DirOnly(pattern: string) { pattern != "" && pattern[|pattern| - 1] == '/' }

  function WithoutSlash(pattern: string): string {
    if DirOnly(pattern) then pattern[..|pattern| - 1] else pattern
  }

  /** The first i segments of a path match a pattern; all but the whole path name directories. */
  predicate Hit(pattern: string, segments: seq<string>, i: nat, isDir: bool, seg: Segment)
    requires 0 < i <= |segments|
  {
    && (DirOnly(pattern) ==> isDir || i < |segments|)
    && GlobMatches(WithoutSlash(pattern), segments[..i], seg)
  }

  predicate PatternHits(pattern: string, segments: seq<string>, isDir: bool, seg: Segment) {
    exists i :: 1 <= i <= |segments| && Hit(pattern, segments, i, isDir, seg)
  }

  /** The path, or a directory it is in, matches one of the patterns. */
  predicate Ignored(patterns: seq<string>, segments: seq<string>, isDir: bool, seg: Segment) {
    exists k :: 0 <= k < |patterns| && PatternHits(patterns[k], segments, isDir, seg)
  }

  method MatchGlob(pattern: string, rel: string, seg: Segment) returns (r: bool)
    ensures r == GlobMatches(pattern, Split(rel, '/'), seg)
  {
    var segments := Split(rel, '/');
    if '/' !in pattern {
      return seg(pattern, Base(segments));
    }
    r := MatchSegs(Split(pattern, '/'), segments, seg);
  }

  function TrimSlashes(s: string): string {
    if s == "" then s
    else if s[0] == '/' then TrimSlashes(s[1..])
    else if s[|s| - 1] == '/' then TrimSlashes(s[..|s| - 1])
    else s
  }

  class Matcher {
    const patterns: seq<string>

    constructor (list: seq<string>)
      ensures patterns == Compiled(list)
    {
      var kept: seq<string> := [];
      for i := 0 to |list|
        invariant kept == Compiled(list[..i])
      {
        assert list[..i + 1][..i] == list[..i];
        var p := TrimSpace(list[i]);
        if p != "" && p[0] != '#' {
          kept := kept + [if p[0] == '/' then p[1..] else p];
        }
      }
      assert list[..|list|] == list;
      patterns := kept;
    }

    method Match(rel: string, isDir: bool, seg: Segment) returns (r: bool)
      ensures r == Ignored(patterns, Split(TrimSlashes(rel), '/'), isDir, seg)
    {
      var segments := Split(TrimSlashes(rel), '/');
      SplitFree(TrimSlashes(rel), '/');
      for k := 0 to |patterns|
        invariant forall j :: 0 <= j < k ==> !PatternHits(patterns[j], segments, isDir, seg)
      {
        var p := patterns[k];
        var i := |segments|;
        while i >= 1
          invariant 0 <= i <= |segments|
          invariant forall j :: i < j <= |segments| ==> !Hit(p, segments, j, isDir, seg)
        {
          if !(DirOnly(p) && !(isDir || i < |segments|)) {
            SplitJoin(segments[..i], '/');
            var found := MatchGlob(WithoutSlash(p), Join(segments[..i], '/'), seg);
            if found {
              assert Hit(p, segments, i, isDir, seg);
              return true;
            }
          }
          i := i - 1;
        }
      }
      return false;
    }
  }

  /** The patterns of an ignore list: trimmed, without blank lines, comments and one leading slash. */
  function Compiled(list: seq<string>): seq<string> {
    if list == [] then []
    else
      var p := TrimSpace(list[|list| - 1]);
      Compiled(list[..|list| - 1]) +
        if p == "" || p[0] == '#' then [] else [if p[0] == '/' then p[1..] else p]
  }

  // ---- what a pattern of a list means ----

  /** The first i names of a path are what a pattern stands for: without a slash, the last of them is, at
      whatever depth; with one, they split into runs its segments stand for. */
  ghost predicate Stands(p: string, path: seq<string>, i: nat, seg: Segment)
    requires 1 <= i <= |path|
  {
    if '/' !in p then seg(p, path[i - 1]) else exists runs :: Splits(Split(p, '/'), path[..i], runs, seg)
  }

  lemma {:induction false} StandsIff(p: string, path: seq<string>, i: nat, seg: Segment)
    requires 1 <= i <= |path| && forall k :: 0 <= k < |path| ==> NameFits(path[k])
    ensures GlobMatches(p, path[..i], seg) <==> Stands(p, path, i, seg)
  {
    assert NameFits(path[i - 1]) && path[..i][i - 1] == path[i - 1];
    MatchesIffSplits(Split(p, '/'), path[..i], seg);
  }

  /** A pattern hits a path when it stands for the path or for a directory the path is in; one that ends in a
      slash, only when what it stands for is a directory. */
  lemma {:induction false} PatternMeans(p: string, path: seq<string>, isDir: bool, seg: Segment)
    requires path != [] && forall k :: 0 <= k < |path| ==> NameFits(path[k])
    ensures
      PatternHits(p + "/", path, isDir, seg) <==>
        exists i :: 1 <= i <= |path| && Stands(p, path, i, seg) && (isDir || i < |path|)
    ensures
      p == "" || p[|p| - 1] != '/' ==>
        (PatternHits(p, path, isDir, seg) <==> exists i :: 1 <= i <= |path| && Stands(p, path, i, seg))
  {
    assert WithoutSlash(p + "/") == p;
    forall i | 1 <= i <= |path|
      ensures Hit(p + "/", path, i, isDir, seg) <==> Stands(p, path, i, seg) && (isDir || i < |path|)
      ensures p == "" || p[|p| - 1] != '/' ==> (Hit(p, path, i, isDir, seg) <==> Stands(p, path, i, seg))
    {
      StandsIff(p, path, i, seg);
    }
  }

  /** A line of an ignore list is a pattern whatever blanks are around it, and a slash before it; a blank
      line and a comment hit nothing. */
  lemma LineMeans(l: string, p: string, r: string, path: seq<string>, isDir: bool, seg: Segment)
    requires Blank(l) && Blank(r) && p != "" && !IsSpace(p[0]) && !IsSpace(p[|p| - 1])
    ensures p[0] != '#' && p[0] != '/' ==>
              && (LineHits(l + p + r, path, isDir, seg) <==> PatternHits(p, path, isDir, seg))
              && (LineHits(l + ("/" + p) + r, path, isDir, seg) <==> PatternHits(p, path, isDir, seg))
    ensures p[0] == '#' ==> !LineHits(l + p + r, path, isDir, seg)
    ensures !LineHits(l, path, isDir, seg)
  {
    Unpadded(l, p, r);
    Unpadded(l, "/" + p, r);
    Unpadded(l, "", "");
    assert l + "" + "" == l;
  }

  // ---- pruning ----

  lemma PatternInherited(pattern: string, segments: seq<string>, more: seq<string>, isDir: bool, seg: Segment)
    requires more != [] && PatternHits(pattern, segments, true, seg)
    ensures PatternHits(pattern, segments + more, isDir, seg)
  {
    var i :| 1 <= i <= |segments| && Hit(pattern, segments, i, true, seg);
    assert (segments + more)[..i] == segments[..i];
    assert Hit(pattern, segments + more, i, isDir, seg);
  }

  /** What matches a directory matches everything below it. */
  lemma Inherited(patterns: seq<string>, segments: seq<string>, more: seq<string>, isDir: bool, seg: Segment)
    requires more != [] && Ignored(patterns, segments, true, seg)
    ensures Ignored(patterns, segments + more, isDir, seg)
  {
    var k :| 0 <= k < |patterns| && PatternHits(patterns[k], segments, true, seg);
    PatternInherited(patterns[k], segments, more, isDir, seg);
  }

  /** What reading a file comes to: it is copied; nothing can be learnt of it; it has size bytes but cannot
      be opened; or it ends before the size its entry said. */
  datatype Content = Copied | NoInfo | Unopenable(size: nat) | Shrunk

  /** Less follows the header in the archive than the header says. */
  predicate ComesShort(content: Content) { content.Shrunk? || (content.Unopenable? && content.size > 0) }

  /** A directory's entries, in the order they are walked. A directory may have no information of its own;
      its children are what could be read of them. */
  datatype Node =
    | File(name: string, content: Content)
    | Special(name: string)
    | Dir(name: string, known: bool, children: seq<Node>)

  /** A header in the archive, and what follows it. */
  datatype Visit = Visit(path: seq<string>, isDir: bool, content: Content)

  function FileVisit(path: seq<string>, content: Content): seq<Visit> {
    if content.NoInfo? then [] else [Visit(path, false, content)]
  }

  function DirVisit(path: seq<string>, known: bool): seq<Visit> {
    if known then [Visit(path, true, Copied)] else []
  }

  /** Every file and directory of a tree, in walking order. */
  function All(nodes: seq<Node>, at: seq<string>): seq<Visit>
    decreases nodes
  {
    if nodes == [] then []
    else
      var path := at + [nodes[0].name];
      (match nodes[0]
       case File(_, content) => FileVisit(path, content)
       case Special(_) => []
       case Dir(_, known, children) => DirVisit(path, known) + All(children, path))
      + All(nodes[1..], at)
  }

  /** The entry a trail of positions in nested directories leads to. */
  function NodeAt(nodes: seq<Node>, trail: seq<nat>): Option<Node> {
    if trail == [] || trail[0] >= |nodes| then None
    else if |trail| == 1 then Some(nodes[trail[0]])
    else if nodes[trail[0]].Dir? then NodeAt(nodes[trail[0]].children, trail[1..])
    else None
  }

  function NamesAlong(nodes: seq<Node>, trail: seq<nat>): seq<string> {
    if trail == [] || trail[0] >= |nodes| then []
    else [nodes[trail[0]].name] + if nodes[trail[0]].Dir? then NamesAlong(nodes[trail[0]].children, trail[1..]) else []
  }

  /** The trail leads to a file or directory there is information of, and the header is that entry's. */
  ghost predicate LeadsTo(nodes: seq<Node>, at: seq<string>, trail: seq<nat>, v: Visit) {
    && NodeAt(nodes, trail).Some? && v.path == at + NamesAlong(nodes, trail)
    && match NodeAt(nodes, trail).value
       case File(_, content) => !content.NoInfo? && v == Visit(v.path, false, content)
       case Special(_) => false
       case Dir(_, known, _) => known && v == Visit(v.path, true, Copied)
  }

  lemma LeadsLater(nodes: seq<Node>, at: seq<string>, trail: seq<nat>, v: Visit)
    requires nodes != [] && trail != [] && trail[0] > 0
    ensures LeadsTo(nodes, at, trail, v) <==> LeadsTo(nodes[1..], at, [trail[0] - 1] + trail[1..], v)
  {
    var rest := [trail[0] - 1] + trail[1..];
    assert rest[1..] == trail[1..];
    assert trail[0] < |nodes| ==> nodes[1..][rest[0]] == nodes[trail[0]];
  }

  lemma LeadsDeeper(nodes: seq<Node>, at: seq<string>, trail: seq<nat>, v: Visit)
    requires nodes != [] && nodes[0].Dir? && |trail| > 1 && trail[0] == 0
    ensures LeadsTo(nodes, at, trail, v) <==> LeadsTo(nodes[0].children, at + [nodes[0].name], trail[1..], v)
  {
    var path := at + [nodes[0].name];
    assert at + NamesAlong(nodes, trail) == path + NamesAlong(nodes[0].children, trail[1..]);
  }

  lemma LeadsHere(nodes: seq<Node>, at: seq<string>, v: Visit)
    requires nodes != []
    ensures
      LeadsTo(nodes, at, [0], v) <==>
        v in (match nodes[0]
              case File(_, content) => FileVisit(at + [nodes[0].name], content)
              case Special(_) => []
              case Dir(_, known, _) => DirVisit(at + [nodes[0].name], known))
  {
    assert [0][1..] == [];
    assert NamesAlong(nodes, [0]) == [nodes[0].name];
  }

  lemma {:induction false} TrailTo(nodes: seq<Node>, at: seq<string>, v: Visit) returns (trail: seq<nat>)
    requires v in All(nodes, at)
    ensures LeadsTo(nodes, at, trail, v)
    decreases nodes
  {
    var path := at + [nodes[0].name];
    if v in All(nodes[1..], at) {
      var rest := TrailTo(nodes[1..], at, v);
      trail := [rest[0] + 1] + rest[1..];
      assert [trail[0] - 1] + trail[1..] == rest;
      LeadsLater(nodes, at, trail, v);
    } else if nodes[0].Dir? && v in All(nodes[0].children, path) {
      var rest := TrailTo(nodes[0].children, path, v);
      trail := [0] + rest;
      assert trail[1..] == rest;
      LeadsDeeper(nodes, at, trail, v);
    } else {
      trail := [0];
      LeadsHere(nodes, at, v);
    }
  }

  lemma {:induction false} TrailVisited(nodes: seq<Node>, at: seq<string>, trail: seq<nat>, v: Visit)
    requires LeadsTo(nodes, at, trail, v)
    ensures v in All(nodes, at)
    decreases nodes
  {
    if trail[0] > 0 {
      LeadsLater(nodes, at, trail, v);
      TrailVisited(nodes[1..], at, [trail[0] - 1] + trail[1..], v);
    } else if |trail| > 1 {
      LeadsDeeper(nodes, at, trail, v);
      TrailVisited(nodes[0].children, at + [nodes[0].name], trail[1..], v);
    } else {
      assert trail == [0];
      LeadsHere(nodes, at, v);
    }
  }

  /** The walk meets exactly the files and directories of the tree it can learn anything of. */
  lemma {:induction false} AllAreMet(nodes: seq<Node>, at: seq<string>, v: Visit)
    ensures v in All(nodes, at) <==> exists trail :: LeadsTo(nodes, at, trail, v)
  {
    if v in All(nodes, at) {
      var trail := TrailTo(nodes, at, v);
    }
    if trail :| LeadsTo(nodes, at, trail, v) {
      TrailVisited(nodes, at, trail, v);
    }
  }

  /** The entries an archive holds: the walk does not enter a directory that is left out. */
  function Archived(nodes: seq<Node>, at: seq<string>, patterns: seq<string>, seg: Segment): seq<Visit>
    decreases nodes
  {
    if nodes == [] then []
    else
      var path := at + [nodes[0].name];
      (if Ignored(patterns, path, nodes[0].Dir?, seg) then []
       else
         match nodes[0]
         case File(_, content) => FileVisit(path, content)
         case Special(_) => []
         case Dir(_, known, children) => DirVisit(path, known) + Archived(children, path, patterns, seg))
      + Archived(nodes[1..], at, patterns, seg)
  }

  predicate Spoilt(visits: seq<Visit>) { exists i :: 0 <= i < |visits| && ComesShort(visits[i].content) }

  /** What one entry of a directory puts into the archive. */
  function NodeArchived(node: Node, at: seq<string>, patterns: seq<string>, seg: Segment): seq<Visit> {
    var path := at + [node.name];
    if Ignored(patterns, path, node.Dir?, seg) then []
    else
      match node
      case File(_, content) => FileVisit(path, content)
      case Special(_) => []
      case Dir(_, known, children) => DirVisit(path, known) + Archived(children, path, patterns, seg)
  }

  /** A walk that stopped as soon as the archive was spoilt, or ended. */
  ghost predicate Walked(out: seq<Visit>, all: seq<Visit>) { if Spoilt(out) then Spoilt(all) else out == all }

  lemma WalkedMore(a: seq<Visit>, b: seq<Visit>, all: seq<Visit>)
    requires Walked(b, all) && !Spoilt(a)
    ensures Walked(a + b, a + all)
  {
    SpoiltConcat(a, b);
    SpoiltConcat(a, all);
  }

  lemma WalkedOn(out: seq<Visit>, head: seq<Visit>, headAll: seq<Visit>, rest: seq<Visit>)
    requires !Spoilt(out) && Walked(head, headAll)
    ensures Spoilt(out + head) <==> Spoilt(head)
    ensures if Spoilt(head) then Spoilt(out + (headAll + rest)) else out + (headAll + rest) == (out + head) + rest
  {
    SpoiltConcat(out, head);
    SpoiltConcat(out, headAll + rest);
    SpoiltConcat(headAll, rest);
  }

  method WalkNode(node: Node, at: seq<string>, matcher: Matcher, seg: Segment) returns (out: seq<Visit>)
    requires NamesFit([node]) && (forall i :: 0 <= i < |at| ==> NameFits(at[i]))
    ensures Walked(out, NodeArchived(node, at, matcher.patterns, seg))
    decreases node, 0
  {
    var path := at + [node.name];
    assert NameFits([node][0].name);
    PathReads(path);
    var ignored := matcher.Match(Join(path, '/'), node.Dir?, seg);
    if ignored || node.Special? {
      return [];
    }
    if node.File? {
      return FileVisit(path, node.content);
    }
    out := Walk(node.children, path, matcher, seg);
    WalkedMore(DirVisit(path, node.known), out, Archived(node.children, path, matcher.patterns, seg));
    out := DirVisit(path, node.known) + out;
  }

  method Walk(nodes: seq<Node>, at: seq<string>, matcher: Matcher, seg: Segment) returns (out: seq<Visit>)
    requires NamesFit(nodes) && (forall i :: 0 <= i < |at| ==> NameFits(at[i]))
    ensures Walked(out, Archived(nodes, at, matcher.patterns, seg))
    decreases nodes, 1
  {
    out := [];
    for i := 0 to |nodes|
      invariant !Spoilt(out)
      invariant out + Archived(nodes[i..], at, matcher.patterns, seg) == Archived(nodes, at, matcher.patterns, seg)
    {
      assert nodes[i..][1..] == nodes[i + 1..];
      var entries := WalkNode(nodes[i], at, matcher, seg);
      WalkedOn(out, entries, NodeArchived(nodes[i], at, matcher.patterns, seg),
               Archived(nodes[i + 1..], at, matcher.patterns, seg));
      out := out + entries;
      if Spoilt(entries) {
        return;
      }
    }
    assert nodes[|nodes|..] == [];
  }

  lemma SpoiltConcat(a: seq<Visit>, b: seq<Visit>)
    ensures Spoilt(a + b) <==> Spoilt(a) || Spoilt(b)
  {
    if i :| 0 <= i < |a| && ComesShort(a[i].content) {
      assert (a + b)[i] == a[i];
    }
    if i :| 0 <= i < |b| && ComesShort(b[i].content) {
      assert (a + b)[|a| + i] == b[i];
    }
  }

  /** Some file of the tree that the patterns do not leave out comes short. */
  ghost predicate FileComesShort(nodes: seq<Node>, patterns: seq<string>, seg: Segment) {
    exists v :: v in All(nodes, []) && ComesShort(v.content) && !Ignored(patterns, v.path, v.isDir, seg)
  }

  /** The walk is spoilt exactly by such a file, wherever in the tree it is. */
  lemma {:induction false} SpoiltIff(nodes: seq<Node>, patterns: seq<string>, seg: Segment)
    ensures Spoilt(Archived(nodes, [], patterns, seg)) <==> FileComesShort(nodes, patterns, seg)
  {
    var archived := Archived(nodes, [], patterns, seg);
    PruningIsFiltering(nodes, [], patterns, seg);
    if i :| 0 <= i < |archived| && ComesShort(archived[i].content) {
      KeptHas(All(nodes, []), patterns, seg, archived[i]);
    }
    if v :| v in All(nodes, []) && ComesShort(v.content) && !Ignored(patterns, v.path, v.isDir, seg) {
      KeptHas(All(nodes, []), patterns, seg, v);
      var i :| 0 <= i < |archived| && archived[i] == v;
    }
  }

  /** The archive of a tree: none exactly when a file that belongs into it comes short. */
  method Create(nodes: seq<Node>, matcher: Matcher, seg: Segment) returns (out: Option<seq<Visit>>)
    requires NamesFit(nodes)
    ensures out.None? <==> FileComesShort(nodes, matcher.patterns, seg)
    ensures out.Some? ==> out.value == Kept(All(nodes, []), matcher.patterns, seg)
  {
    var visits := Walk(nodes, [], matcher, seg);
    SpoiltIff(nodes, matcher.patterns, seg);
    PruningIsFiltering(nodes, [], matcher.patterns, seg);
    out := if Spoilt(visits) then None else Some(visits);
  }

  /** A single file that is not empty and cannot be opened fails the backup, unless a pattern leaves it
      out; an empty one does not. */
  lemma {:induction false} OneUnopenableFile(name: string, size: nat, patterns: seq<string>, seg: Segment)
    ensures FileComesShort([File(name, Unopenable(size))], patterns, seg) <==>
            size > 0 && !Ignored(patterns, [name], false, seg)
  {
    var nodes := [File(name, Unopenable(size))];
    var v := Visit([name], false, Unopenable(size));
    assert [] + [name] == [name] && nodes[1..] == [];
    assert All(nodes, []) == [v];
  }

  /** A name in a directory: not empty, and without a slash. */
  predicate NameFits(name: string) { name != "" && '/' !in name }

  predicate NamesFit(nodes: seq<Node>) {
    forall i :: 0 <= i < |nodes| ==> NameFits(nodes[i].name) && (nodes[i].Dir? ==> NamesFit(nodes[i].children))
  }

  lemma {:induction false} JoinEdges(path: seq<string>)
    requires path != [] && forall i :: 0 <= i < |path| ==> NameFits(path[i])
    ensures var s := Join(path, '/'); s != "" && s[0] != '/' && s[|s| - 1] != '/'
  {
    assert NameFits(path[0]) && path[0][0] in path[0] && path[0][|path[0]| - 1] in path[0];
    if |path| > 1 {
      JoinEdges(path[1..]);
    }
  }

  /** The path of a visited entry is matched segment by segment. */
  lemma {:induction false} PathReads(path: seq<string>)
    requires path != [] && forall i :: 0 <= i < |path| ==> NameFits(path[i])
    ensures Split(TrimSlashes(Join(path, '/')), '/') == path
  {
    JoinEdges(path);
    SplitJoin(path, '/');
  }

  function Kept(visits: seq<Visit>, patterns: seq<string>, seg: Segment): seq<Visit> {
    if visits == [] then []
    else (if Ignored(patterns, visits[0].path, visits[0].isDir, seg) then [] else [visits[0]])
         + Kept(visits[1..], patterns, seg)
  }

  lemma {:induction false} KeptConcat(a: seq<Visit>, b: seq<Visit>, patterns: seq<string>, seg: Segment)
    ensures Kept(a + b, patterns, seg) == Kept(a, patterns, seg) + Kept(b, patterns, seg)
  {
    if a == [] {
      assert a + b == b;
    } else {
      assert (a + b)[1..] == a[1..] + b;
      KeptConcat(a[1..], b, patterns, seg);
    }
  }

  lemma {:induction false} NothingKept(nodes: seq<Node>, at: seq<string>, patterns: seq<string>, seg: Segment)
    requires Ignored(patterns, at, true, seg)
    ensures Kept(All(nodes, at), patterns, seg) == []
    decreases nodes
  {
    if nodes != [] {
      var path := at + [nodes[0].name];
      var head := All([nodes[0]], at);
      NothingKept(nodes[1..], at, patterns, seg);
      Inherited(patterns, at, [nodes[0].name], nodes[0].Dir?, seg);
      HeadOfAll(nodes, at);
      if nodes[0].Dir? {
        NothingKept(nodes[0].children, path, patterns, seg);
        KeptConcat(DirVisit(path, nodes[0].known), All(nodes[0].children, path), patterns, seg);
      }
      KeptConcat(head, All(nodes[1..], at), patterns, seg);
      KeptOne(Visit(path, nodes[0].Dir?, if nodes[0].File? then nodes[0].content else Copied), patterns, seg);
    }
  }

  lemma {:induction false} KeptOne(v: Visit, patterns: seq<string>, seg: Segment)
    ensures Kept([v], patterns, seg) == if Ignored(patterns, v.path, v.isDir, seg) then [] else [v]
  {
    assert [v][1..] == [];
  }

  lemma {:induction false} HeadOfAll(nodes: seq<Node>, at: seq<string>)
    requires nodes != []
    ensures All(nodes, at) == All([nodes[0]], at) + All(nodes[1..], at)
    ensures
      var path := at + [nodes[0].name];
      All([nodes[0]], at) ==
        match nodes[0]
        case File(_, content) => FileVisit(path, content)
        case Special(_) => []
        case Dir(_, known, children) => DirVisit(path, known) + All(children, path)
  {
    assert [nodes[0]][1..] == [];
  }

  /** Not entering the directories that are left out archives exactly the entries that do not match. */
  lemma {:induction false} PruningIsFiltering(nodes: seq<Node>, at: seq<string>, patterns: seq<string>, seg: Segment)
    ensures Archived(nodes, at, patterns, seg) == Kept(All(nodes, at), patterns, seg)
    decreases nodes
  {
    if nodes != [] {
      var path := at + [nodes[0].name];
      var head, isDir := All([nodes[0]], at), nodes[0].Dir?;
      PruningIsFiltering(nodes[1..], at, patterns, seg);
      HeadOfAll(nodes, at);
      KeptConcat(head, All(nodes[1..], at), patterns, seg);
      KeptOne(Visit(path, isDir, if nodes[0].File? then nodes[0].content else Copied), patterns, seg);
      if isDir {
        KeptConcat(DirVisit(path, nodes[0].known), All(nodes[0].children, path), patterns, seg);
        if Ignored(patterns, path, true, seg) {
          NothingKept(nodes[0].children, path, patterns, seg);
        } else {
          PruningIsFiltering(nodes[0].children, path, patterns, seg);
        }
      }
    }
  }

  // ---- volumes that stay out of backups ----

  datatype Volume = Volume(name: string, backup: bool)

  /** The ignore patterns of a template's volumes (volumeBackupIgnore in spec.ts). */
  function VolumeIgnore(volumes: seq<Volume>): seq<string> {
    if volumes == [] then []
    else (if volumes[0].backup then [] else ["volumes/" + volumes[0].name + "/**"]) + VolumeIgnore(volumes[1..])
  }

  predicate LowerAlnum(c: char) { 'a' <= c <= 'z' || '0' <= c <= '9' || c == '_' || c == '-' }

  /** The schema's volume names: a lower-case letter, then letters, digits, `_` and `-`. */
  ghost predicate VolumeName(name: string) {
    name != "" && 'a' <= name[0] <= 'z' && forall c :: c in name ==> LowerAlnum(c)
  }

  /** A segment without wild cards matches itself only. */
  ghost predicate Literal(p: string, seg: Segment) { forall s :: seg(p, s) <==> s == p }

  ghost predicate Under(name: string, segments: seq<string>) {
    |segments| >= 2 && segments[0] == "volumes" && segments[1] == name
  }

  ghost predicate InLeftOutVolume(volumes: seq<Volume>, segments: seq<string>) {
    exists i :: 0 <= i < |volumes| && !volumes[i].backup && Under(volumes[i].name, segments)
  }

  lemma VolumePattern(name: string)
    requires VolumeName(name)
    ensures
      var p := "volumes/" + name + "/**";
      && TrimSpace(p) == p && p != "" && p[0] == 'v' && '/' in p && !DirOnly(p)
      && Split(p, '/') == ["volumes", name, ANY]
  {
    var p := "volumes/" + name + "/**";
    assert p[0] == 'v' && p[7] == '/' && p[|p| - 1] == '*';
    Trimmed(p);
    assert '/' !in name && '/' !in "volumes" && '/' !in ANY;
    SplitOne(ANY, '/');
    SplitFirst(name, ANY, '/');
    SplitFirst("volumes", name + "/" + ANY, '/');
    assert p == "volumes" + "/" + (name + "/" + ANY);
    assert Split(p, '/') == ["volumes"] + ([name] + [ANY]);
  }

  lemma {:induction false} SubtreeMatches(name: string, s: seq<string>, seg: Segment)
    requires name != ANY && Literal("volumes", seg) && Literal(name, seg)
    ensures Matches(["volumes", name, ANY], s, seg) <==> Under(name, s)
  {
    var p := ["volumes", name, ANY];
    assert p[1..] == [name, ANY] && p[1..][1..] == [ANY];
    assert Matches(p, s, seg) <==> s != [] && s[0] == "volumes" && Matches([name, ANY], s[1..], seg);
    assert s != [] ==>
      (Matches([name, ANY], s[1..], seg) <==> s[1..] != [] && s[1..][0] == name && Matches([ANY], s[1..][1..], seg));
  }

  lemma VolumeHits(name: string, segments: seq<string>, isDir: bool, seg: Segment)
    requires VolumeName(name) && Literal("volumes", seg) && Literal(name, seg)
    ensures PatternHits("volumes/" + name + "/**", segments, isDir, seg) <==> Under(name, segments)
  {
    var p := "volumes/" + name + "/**";
    VolumePattern(name);
    assert name != ANY;
    forall i | 1 <= i <= |segments| ensures Hit(p, segments, i, isDir, seg) <==> Under(name, segments[..i]) {
      SubtreeMatches(name, segments[..i], seg);
    }
    if Under(name, segments) {
      assert segments[..|segments|] == segments;
      assert Hit(p, segments, |segments|, isDir, seg);
    }
  }

  lemma {:induction false} VolumesIgnored(volumes: seq<Volume>, segments: seq<string>, isDir: bool, seg: Segment)
    requires forall v :: v in volumes ==> VolumeName(v.name) && Literal(v.name, seg)
    requires Literal("volumes", seg)
    ensures Ignored(VolumeIgnore(volumes), segments, isDir, seg) <==> InLeftOutVolume(volumes, segments)
  {
    if volumes != [] {
      var v, rest := volumes[0], VolumeIgnore(volumes[1..]);
      var patterns := VolumeIgnore(volumes);
      VolumesIgnored(volumes[1..], segments, isDir, seg);
      VolumeHits(v.name, segments, isDir, seg);
      IgnoredCons(if v.backup then [] else ["volumes/" + v.name + "/**"], rest, segments, isDir, seg);
      LeftOutCons(volumes, segments);
    }
  }

  lemma IgnoredCons(first: seq<string>, rest: seq<string>, segments: seq<string>, isDir: bool, seg: Segment)
    requires |first| <= 1
    ensures Ignored(first + rest, segments, isDir, seg) <==>
            Ignored(rest, segments, isDir, seg) || (first != [] && PatternHits(first[0], segments, isDir, seg))
  {
    var all := first + rest;
    if k :| 0 <= k < |rest| && PatternHits(rest[k], segments, isDir, seg) {
      assert all[|first| + k] == rest[k];
    }
    if k :| 0 <= k < |all| && PatternHits(all[k], segments, isDir, seg) {
      if k >= |first| {
        assert PatternHits(rest[k - |first|], segments, isDir, seg);
      }
    }
    if first != [] && PatternHits(first[0], segments, isDir, seg) {
      assert all[0] == first[0];
    }
  }

  lemma LeftOutCons(volumes: seq<Volume>, segments: seq<string>)
    requires volumes != []
    ensures InLeftOutVolume(volumes, segments) <==>
            InLeftOutVolume(volumes[1..], segments) || (!volumes[0].backup && Under(volumes[0].name, segments))
  {
    if i :| 0 <= i < |volumes| && !volumes[i].backup && Under(volumes[i].name, segments) {
      assert i > 0 ==> volumes[1..][i - 1] == volumes[i];
    }
  }

  lemma {:induction false} CompiledVolumes(volumes: seq<Volume>)
    requires forall v :: v in volumes ==> VolumeName(v.name)
    ensures Compiled(VolumeIgnore(volumes)) == VolumeIgnore(volumes)
  {
    if volumes != [] {
      CompiledVolumes(volumes[1..]);
      if !volumes[0].backup {
        VolumePattern(volumes[0].name);
        CompiledCons("volumes/" + volumes[0].name + "/**", VolumeIgnore(volumes[1..]));
      } else {
        assert [] + VolumeIgnore(volumes[1..]) == VolumeIgnore(volumes[1..]);
      }
    }
  }

  lemma {:induction false} CompiledMore(list: seq<string>, line: string)
    ensures
      var p := TrimSpace(line);
      Compiled(list + [line]) ==
        if p == "" || p[0] == '#' then Compiled(list) else Compiled(list) + [if p[0] == '/' then p[1..] else p]
  {
    assert (list + [line])[..|list|] == list;
    assert Compiled(list) + [] == Compiled(list);
  }

  lemma {:induction false} CompiledCons(p: string, list: seq<string>)
    requires TrimSpace(p) == p && p != "" && p[0] != '#' && p[0] != '/'
    ensures Compiled([p] + list) == [p] + Compiled(list)
  {
    if list == [] {
      CompiledMore([], p);
      assert [] + [p] == [p] + list == [p];
    } else {
      var before, last := list[..|list| - 1], list[|list| - 1];
      assert list == before + [last] && [p] + list == ([p] + before) + [last];
      CompiledCons(p, before);
      CompiledMore([p] + before, last);
      CompiledMore(before, last);
    }
  }

  /** A line of an ignore list hits a path. */
  predicate LineHits(line: string, segments: seq<string>, isDir: bool, seg: Segment) {
    var p := TrimSpace(line);
    p != "" && p[0] != '#' && PatternHits(if p[0] == '/' then p[1..] else p, segments, isDir, seg)
  }

  lemma IgnoredMore(patterns: seq<string>, p: string, segments: seq<string>, isDir: bool, seg: Segment)
    ensures Ignored(patterns + [p], segments, isDir, seg) <==>
            Ignored(patterns, segments, isDir, seg) || PatternHits(p, segments, isDir, seg)
  {
    var all := patterns + [p];
    if k :| 0 <= k < |patterns| && PatternHits(patterns[k], segments, isDir, seg) {
      assert all[k] == patterns[k];
    }
    assert all[|patterns|] == p;
    if k :| 0 <= k < |all| && PatternHits(all[k], segments, isDir, seg) {
      assert k < |patterns| ==> PatternHits(patterns[k], segments, isDir, seg);
    }
  }

  ghost predicate SomeLineHits(list: seq<string>, segments: seq<string>, isDir: bool, seg: Segment) {
    exists line :: line in list && LineHits(line, segments, isDir, seg)
  }

  lemma SomeLineMore(list: seq<string>, line: string, segments: seq<string>, isDir: bool, seg: Segment)
    ensures SomeLineHits(list + [line], segments, isDir, seg) <==>
            SomeLineHits(list, segments, isDir, seg) || LineHits(line, segments, isDir, seg)
  {
    assert line in list + [line];
    if l :| l in list && LineHits(l, segments, isDir, seg) {
      assert l in list + [line];
    }
  }

  /** What an ignore list leaves out depends on which lines it has, not on their order or number. */
  lemma {:induction false} ListIgnores(list: seq<string>, segments: seq<string>, isDir: bool, seg: Segment)
    ensures Ignored(Compiled(list), segments, isDir, seg) <==> SomeLineHits(list, segments, isDir, seg)
  {
    if list != [] {
      var before, line := list[..|list| - 1], list[|list| - 1];
      assert list == before + [line];
      ListIgnores(before, segments, isDir, seg);
      CompiledMore(before, line);
      SomeLineMore(before, line, segments, isDir, seg);
      var p := TrimSpace(line);
      if p != "" && p[0] != '#' {
        IgnoredMore(Compiled(before), if p[0] == '/' then p[1..] else p, segments, isDir, seg);
      }
    }
  }

  /** With the ignore list of a backup - the lines of the template and of the request, and those of the
      volumes that stay out of backups, each once and in any order - an entry of the tree is archived
      exactly when it is not such a volume or inside one and the other lines do not leave it out. */
  lemma {:induction false} VolumesLeftOut(nodes: seq<Node>, list: seq<string>, others: seq<string>,
                                          volumes: seq<Volume>, seg: Segment, v: Visit)
    requires forall v :: v in volumes ==> VolumeName(v.name) && Literal(v.name, seg)
    requires Literal("volumes", seg)
    requires forall line :: line in list <==> line in others || line in VolumeIgnore(volumes)
    ensures v in Archived(nodes, [], Compiled(list), seg) <==>
            && v in All(nodes, []) && !InLeftOutVolume(volumes, v.path)
            && !Ignored(Compiled(others), v.path, v.isDir, seg)
  {
    CompiledVolumes(volumes);
    PruningIsFiltering(nodes, [], Compiled(list), seg);
    KeptHas(All(nodes, []), Compiled(list), seg, v);
    VolumesIgnored(volumes, v.path, v.isDir, seg);
    ListIgnores(list, v.path, v.isDir, seg);
    ListIgnores(others, v.path, v.isDir, seg);
    ListIgnores(VolumeIgnore(volumes), v.path, v.isDir, seg);
  }

  lemma {:induction false} KeptHas(visits: seq<Visit>, patterns: seq<string>, seg: Segment, v: Visit)
    ensures v in Kept(visits, patterns, seg) <==> v in visits && !Ignored(patterns, v.path, v.isDir, seg)
  {
    if visits != [] {
      KeptHas(visits[1..], patterns, seg, v);
      assert visits == [visits[0]] + visits[1..];
    }
  }
}
