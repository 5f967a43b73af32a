/** Setting values in an INI file (MergeINI in agent/internal/instances/configfiles.go). The wanted
    values come as the list of map entries in sorted order of their names. */
module Ini {
  import opened Common
  import opened Text

  datatype Entry = Entry(name: string, value: string)

  /** A value for a key of a section; the top of the file is the section "". */
  datatype Want = Want(section: string, key: string, value: string)

  datatype Kind = Header(section: string) | Plain | Key(key: string)

  const SEPARATORS := "=: \t"

  /** A name with a dot in it, but not as its first character, names a section before the first dot. */
  function WantOf(e: Entry): Want {
    var i := Until(e.name, ".");
    if 0 < i < |e.name| then Want(e.name[..i], e.name[i + 1..], e.value) else Want("", e.name, e.value)
  }

  function WantsOf(entries: seq<Entry>): (wants: seq<Want>)
    ensures |wants| == |entries| && forall i :: 0 <= i < |entries| ==> wants[i] == WantOf(entries[i])
  {
    seq(|entries|, i requires 0 <= i < |entries| => WantOf(entries[i]))
  }

  /** How the set of written wants names one of them. */
  function Id(w: Want): string { w.section + "." + w.key }

  function Line(w: Want): string { w.key + "=" + w.value }

  function HeaderLine(section: string): string { "[" + section + "]" }

  // ---- one line ----

  predicate IsHeader(t: string) { |t| >= 2 && t[0] == '[' && t[|t| - 1] == ']' }

  function KindOf(line: string): Kind {
    var t := TrimSpace(line);
    if IsHeader(t) then Header(TrimSpace(t[1..|t| - 1]))
    else if t == "" || t[0] == '#' || t[0] == ';' then Plain
    else Key(t[..Until(t, SEPARATORS)])
  }

  function Find(wants: seq<Want>, section: string, key: string): Option<Want> {
    if wants == [] then None
    else if wants[0].section == section && wants[0].key == key then Some(wants[0])
    else Find(wants[1..], section, key)
  }

  /** The want a line of a section sets. */
  function Target(line: string, section: string, wants: seq<Want>): Option<Want> {
    var kind := KindOf(line);
    if kind.Key? then Find(wants, section, kind.key) else None
  }

  // ---- the merge ----

  datatype State = State(out: seq<string>, section: string, done: set<string>)

  function Add(st: State, w: Want): State {
    if w.section == st.section && Id(w) !in st.done
    then st.(out := st.out + [Line(w)], done := st.done + {Id(w)})
    else st
  }

  /** The wants of the current section that were not written yet, at the end of what was written. */
  function Flush(st: State, wants: seq<Want>): State {
    if wants == [] then st else Add(Flush(st, wants[..|wants| - 1]), wants[|wants| - 1])
  }

  function Enter(st: State, line: string, section: string, wants: seq<Want>): State {
    var flushed := Flush(st, wants);
    flushed.(out := flushed.out + [line], section := section)
  }

  function Step(st: State, line: string, wants: seq<Want>): State {
    var kind := KindOf(line);
    if kind.Header? then Enter(st, line, kind.section, wants)
    else
      match Target(line, st.section, wants)
      case Some(w) => st.(out := st.out + [Line(w)], done := st.done + {Id(w)})
      case None => st.(out := st.out + [line])
  }

  function Steps(lines: seq<string>, wants: seq<Want>): State {
    if lines == [] then State([], "", {}) else Step(Steps(lines[..|lines| - 1], wants), lines[|lines| - 1], wants)
  }

  /** The sections a file visits, the top of the file included. */
  function Visited(lines: seq<string>): set<string> {
    if lines == [] then {""}
    else
      var kind := KindOf(lines[|lines| - 1]);
      Visited(lines[..|lines| - 1]) + if kind.Header? then {kind.section} else {}
  }

  datatype Appending = Appending(st: State, seen: set<string>)

  function AppendStep(a: Appending, w: Want, wants: seq<Want>): Appending {
    if Id(w) in a.st.done || w.section in a.seen then a
    else
      var entered := a.st.(out := a.st.out + [HeaderLine(w.section)], section := w.section);
      Appending(Flush(entered, wants), a.seen + {w.section})
  }

  /** New sections, for the first wants of the list. */
  function AppendSteps(a: Appending, first: seq<Want>, wants: seq<Want>): Appending {
    if first == [] then a else AppendStep(AppendSteps(a, first[..|first| - 1], wants), first[|first| - 1], wants)
  }

  function BeforeAppending(lines: seq<string>, wants: seq<Want>): State { Flush(Steps(lines, wants), wants) }

  function Merged(lines: seq<string>, wants: seq<Want>): seq<string> {
    var st := BeforeAppending(lines, wants);
    AppendSteps(Appending(st, Visited(st.out)), wants, wants).st.out
  }

  method FlushSection(st: State, wants: seq<Want>) returns (r: State)
    ensures r == Flush(st, wants)
  {
    r := st;
    for i := 0 to |wants|
      invariant r == Flush(st, wants[..i])
    {
      assert wants[..i + 1][..i] == wants[..i];
      if wants[i].section == r.section && Id(wants[i]) !in r.done {
        r := r.(out := r.out + [Line(wants[i])], done := r.done + {Id(wants[i])});
      }
    }
    assert wants[..|wants|] == wants;
  }

  method FindWant(wants: seq<Want>, section: string, key: string) returns (r: Option<Want>)
    ensures r == Find(wants, section, key)
  {
    for i := 0 to |wants|
      invariant Find(wants, section, key) == Find(wants[i..], section, key)
    {
      assert wants[i..][1..] == wants[i + 1..];
      if wants[i].section == section && wants[i].key == key {
        return Some(wants[i]);
      }
    }
    return None;
  }

  method SeenIn(out: seq<string>) returns (seen: set<string>)
    ensures seen == Visited(out)
  {
    seen := {""};
    for i := 0 to |out|
      invariant seen == Visited(out[..i])
    {
      assert out[..i + 1][..i] == out[..i];
      var t := TrimSpace(out[i]);
      if IsHeader(t) {
        seen := seen + {TrimSpace(t[1..|t| - 1])};
      }
    }
    assert out[..|out|] == out;
  }

  method MergeSetting(st: State, line: string, key: string, wants: seq<Want>) returns (r: State)
    requires KindOf(line) == Key(key)
    ensures r == Step(st, line, wants)
  {
    var w := FindWant(wants, st.section, key);
    if w.None? {
      return st.(out := st.out + [line]);
    }
    KeyFound(wants, st.section, key);
    r := st.(out := st.out + [key + "=" + w.value.value], done := st.done + {Id(w.value)});
  }

  method MergeLine(st: State, line: string, wants: seq<Want>) returns (r: State)
    ensures r == Step(st, line, wants)
  {
    var t := TrimSpace(line);
    if IsHeader(t) {
      r := FlushSection(st, wants);
      r := r.(out := r.out + [line], section := TrimSpace(t[1..|t| - 1]));
    } else if t == "" || t[0] == '#' || t[0] == ';' {
      r := st.(out := st.out + [line]);
    } else {
      r := MergeSetting(st, line, t[..Until(t, SEPARATORS)], wants);
    }
  }

  method MergeIni(existing: string, entries: seq<Entry>) returns (r: string)
    ensures r == MergedText(existing, WantsOf(entries))
  {
    var wants := WantsOf(entries);
    var st := State([], "", {});
    var lines := Lines(existing);
    for i := 0 to |lines|
      invariant st == Steps(lines[..i], wants)
    {
      assert lines[..i + 1][..i] == lines[..i];
      st := MergeLine(st, lines[i], wants);
    }
    assert lines[..|lines|] == lines;
    st := FlushSection(st, wants);
    var seen := SeenIn(st.out);
    st := AppendSections(st, seen, wants);
    r := Join(st.out, '\n') + "\n";
  }

  method AppendSections(from: State, visited: set<string>, wants: seq<Want>) returns (st: State)
    ensures st == AppendSteps(Appending(from, visited), wants, wants).st
  {
    st := from;
    var seen := visited;
    for i := 0 to |wants|
      invariant Appending(st, seen) == AppendSteps(Appending(from, visited), wants[..i], wants)
    {
      assert wants[..i + 1][..i] == wants[..i];
      var w := wants[i];
      if Id(w) !in st.done && w.section !in seen {
        st := st.(out := st.out + [HeaderLine(w.section)], section := w.section);
        seen := seen + {w.section};
        st := FlushSection(st, wants);
      }
    }
    assert wants[..|wants|] == wants;
  }

  function MergedText(existing: string, wants: seq<Want>): string { FromLines(Merged(Lines(existing), wants)) }

  // ---- what the format can hold ----

  /** A want the format can hold: a section a header can name, and a key and a value that read back. */
  ghost predicate Fit(w: Want) {
    && '.' !in w.section && '\n' !in w.section && TrimSpace(w.section) == w.section
    && (forall c :: c in w.key ==> !IsSpace(c) && c != '=' && c != ':')
    && (w.key != "" ==> w.key[0] != '#' && w.key[0] != ';' && w.key[0] != '[')
    && '\n' !in w.value
  }

  ghost predicate SameKey(v: Want, w: Want) { v.section == w.section && v.key == w.key }

  ghost predicate Distinct(wants: seq<Want>) {
    forall i, j :: 0 <= i < j < |wants| ==> !SameKey(wants[i], wants[j])
  }

  ghost predicate Wanted(wants: seq<Want>) {
    (forall w :: w in wants ==> Fit(w)) && Distinct(wants)
  }

  lemma NameOfWant(e: Entry)
    ensures var w := WantOf(e);
            '.' !in w.section && e.name == if w.section == "" then w.key else w.section + "." + w.key
  {
    var i := Until(e.name, ".");
    if 0 < i < |e.name| {
      assert e.name[i] == '.';
      assert e.name == e.name[..i] + "." + e.name[i + 1..];
    }
  }

  /** A key of a section is named by both with a dot between them; one of the top of the file by itself, if
      it has no dot or begins with one. */
  ghost predicate Names(name: string, section: string, key: string) {
    if section == "" then name == key && ('.' !in key || key[0] == '.')
    else name == section + "." + key && '.' !in section
  }

  lemma NamedWant(name: string, section: string, key: string, value: string)
    requires Names(name, section, key)
    ensures WantOf(Entry(name, value)) == Want(section, key, value)
  {
    if section != "" {
      UntilAt(section, "." + key, ".");
      assert name == section + ("." + key);
    }
  }

  /** Entries of a map have different names, so they want different keys. */
  lemma WantsAreDistinct(entries: seq<Entry>)
    requires forall i, j :: 0 <= i < j < |entries| ==> entries[i].name != entries[j].name
    ensures Distinct(WantsOf(entries))
  {
    var wants := WantsOf(entries);
    forall i, j | 0 <= i < j < |wants| ensures !SameKey(wants[i], wants[j]) {
      NameOfWant(entries[i]);
      NameOfWant(entries[j]);
    }
  }

  lemma {:induction false} FindIs(wants: seq<Want>, w: Want)
    requires Distinct(wants) && w in wants
    ensures Find(wants, w.section, w.key) == Some(w)
  {
    if wants[0] != w {
      assert !SameKey(wants[0], w) by {
        var j :| 0 <= j < |wants| && wants[j] == w;
      }
      forall i, j | 0 <= i < j < |wants[1..]| ensures !SameKey(wants[1..][i], wants[1..][j]) {
        assert !SameKey(wants[i + 1], wants[j + 1]);
      }
      FindIs(wants[1..], w);
    }
  }

  lemma {:induction false} KeyFound(wants: seq<Want>, section: string, key: string)
    ensures var w := Find(wants, section, key);
            w.Some? ==> w.value in wants && w.value.section == section && w.value.key == key
  {
    if wants != [] {
      KeyFound(wants[1..], section, key);
    }
  }

  lemma {:induction false} DotFirst(a: string, b: string, x: string, y: string)
    requires '.' !in a && '.' !in b && a + "." + x == b + "." + y
    ensures a == b && x == y
  {
    var s, t := a + "." + x, b + "." + y;
    assert s[|a|] == '.' && t[|b|] == '.';
    assert |a| == |b|;
    assert s[..|a|] == a && t[..|b|] == b && s[|a| + 1..] == x && t[|b| + 1..] == y;
  }

  lemma IdNamesKey(wants: seq<Want>, v: Want, w: Want)
    requires Wanted(wants) && v in wants && w in wants && Id(v) == Id(w)
    ensures v == w
  {
    DotFirst(v.section, w.section, v.key, w.key);
    FindIs(wants, v);
    FindIs(wants, w);
  }

  lemma {:induction false} TrimLine(key: string, rest: string) returns (k: nat)
    requires (forall c :: c in key ==> !IsSpace(c)) && rest != "" && rest[0] == '='
    ensures 0 < k <= |rest| && TrimSpace(key + rest) == key + rest[..k]
  {
    k := TrimEnd(key, rest);
    assert key != "" ==> key[0] in key;
    assert TrimLeft(key + rest) == key + rest;
  }

  lemma {:induction false} TrimEnd(key: string, rest: string) returns (k: nat)
    requires rest != "" && rest[0] == '='
    ensures 0 < k <= |rest| && TrimRight(key + rest) == key + rest[..k]
  {
    var s := key + rest;
    assert s[|s| - 1] == rest[|rest| - 1];
    if !IsSpace(rest[|rest| - 1]) {
      k := |rest|;
      assert rest[..k] == rest;
    } else {
      var shorter := rest[..|rest| - 1];
      k := TrimEnd(key, shorter);
      assert s[..|s| - 1] == key + shorter;
      assert shorter[..k] == rest[..k];
    }
  }

  lemma {:induction false} KindOfTrimmed(t: string, key: string, rest: string)
    requires t == key + rest && rest != "" && rest[0] == '='
    requires forall c :: c in key ==> !IsSpace(c) && c != '=' && c != ':'
    requires key != "" ==> key[0] != '#' && key[0] != ';' && key[0] != '['
    ensures !IsHeader(t) && t != "" && t[0] != '#' && t[0] != ';' && t[..Until(t, SEPARATORS)] == key
  {
    assert t[0] == if key == "" then '=' else key[0];
    assert forall c :: c in key ==> c !in SEPARATORS;
    UntilAt(key, rest, SEPARATORS);
  }

  lemma LineReads(w: Want)
    requires Fit(w)
    ensures KindOf(Line(w)) == Key(w.key)
  {
    var rest := "=" + w.value;
    assert Line(w) == w.key + rest;
    var k := TrimLine(w.key, rest);
    KindOfTrimmed(TrimSpace(Line(w)), w.key, rest[..k]);
  }

  lemma HeaderOf(t: string, section: string)
    requires IsHeader(t) && t[1..|t| - 1] == section && TrimSpace(section) == section
    ensures KindOf(t) == Header(section)
  {
    Trimmed(t);
  }

  lemma HeaderReads(section: string)
    requires TrimSpace(section) == section
    ensures KindOf(HeaderLine(section)) == Header(section)
  {
    var t := HeaderLine(section);
    assert t[0] == '[' && t[|t| - 1] == ']' && t[1..|t| - 1] == section;
    HeaderOf(t, section);
  }

  /** A line is a header whatever blanks are around it and around the section's name. */
  lemma PaddedHeader(l: string, a: string, section: string, b: string, r: string)
    requires Blank(l) && Blank(a) && Blank(b) && Blank(r) && TrimSpace(section) == section
    ensures KindOf(l + ("[" + (a + section + b) + "]") + r) == Header(section)
  {
    var t := "[" + (a + section + b) + "]";
    Unpadded(l, t, r);
    TrimSpaceIs(section);
    Unpadded(a, section, b);
    assert t[1..|t| - 1] == a + section + b;
  }

  /** A line that is no header and no comment sets the key before its first separator, of any kind. */
  lemma PaddedSetting(l: string, key: string, rest: string, r: string)
    requires Blank(l) && Blank(r) && key + rest != ""
    requires (forall i :: 0 <= i < |key| ==> key[i] !in "=: \t") && (rest != "" ==> rest[0] in "=: \t")
    requires var t := key + rest; !IsSpace(t[0]) && !IsSpace(t[|t| - 1]) && t[0] != '#' && t[0] != ';'
    requires !IsHeader(key + rest)
    ensures KindOf(l + (key + rest) + r) == Key(key)
  {
    Unpadded(l, key + rest, r);
    UntilAt(key, rest, SEPARATORS);
  }

  /** Blank lines and comments set nothing. */
  lemma PaddedComment(l: string, rest: string)
    requires Blank(l) && (rest != "" ==> rest[0] == '#' || rest[0] == ';')
    ensures KindOf(l + rest).Plain?
  {
    if rest == "" {
      Unpadded(l, "", "");
      assert l + rest == l + "" + "";
    } else {
      LeftBlanksGo(l, rest);
      var k := TrimRightIs(rest);
      CommentStays(rest);
    }
  }

  lemma {:induction false} CommentStays(s: string)
    requires s != "" && !IsSpace(s[0])
    ensures TrimRight(s) != "" && TrimRight(s)[0] == s[0]
  {
    if IsSpace(s[|s| - 1]) {
      CommentStays(s[..|s| - 1]);
    }
  }

  lemma TargetIs(w: Want, wants: seq<Want>)
    requires Wanted(wants) && w in wants
    ensures Target(Line(w), w.section, wants) == Some(w)
  {
    LineReads(w);
    FindIs(wants, w);
  }

  lemma TargetFacts(line: string, section: string, wants: seq<Want>)
    ensures
      var w := Target(line, section, wants);
      w.Some? ==> KindOf(line) == Key(w.value.key) && w.value in wants && w.value.section == section
  {
    var kind := KindOf(line);
    if kind.Key? {
      KeyFound(wants, section, kind.key);
    }
  }

  // ---- reading a file ----

  /** The section the line after these lines is in. */
  function Section(lines: seq<string>): string {
    if lines == [] then ""
    else
      var kind := KindOf(lines[|lines| - 1]);
      if kind.Header? then kind.section else Section(lines[..|lines| - 1])
  }

  /** How often the lines set a want's key in its section. */
  function Count(lines: seq<string>, w: Want, wants: seq<Want>): nat {
    if lines == [] then 0
    else
      var before := lines[..|lines| - 1];
      Count(before, w, wants) + if Target(lines[|lines| - 1], Section(before), wants) == Some(w) then 1 else 0
  }

  /** The lines that set no wanted key, in their order. */
  function Others(lines: seq<string>, wants: seq<Want>): seq<string> {
    if lines == [] then []
    else
      var before := lines[..|lines| - 1];
      Others(before, wants) +
        if Target(lines[|lines| - 1], Section(before), wants).None? then [lines[|lines| - 1]] else []
  }

  ghost predicate Set(lines: seq<string>, w: Want, wants: seq<Want>) { Count(lines, w, wants) > 0 }

  /** Every want of the section these lines end in was set. */
  ghost predicate Complete(lines: seq<string>, wants: seq<Want>) {
    forall w :: w in wants && w.section == Section(lines) ==> Set(lines, w, wants)
  }

  ghost predicate GoodLine(before: seq<string>, line: string, wants: seq<Want>) {
    && (KindOf(line).Header? ==> Complete(before, wants))
    && (Target(line, Section(before), wants).Some? ==> line == Line(Target(line, Section(before), wants).value))
  }

  /** A file with the wanted values: a line that sets a wanted key sets it to the wanted value, and a
      section is left only once all of its wants were set. */
  ghost predicate Good(lines: seq<string>, wants: seq<Want>) {
    lines == [] || (Good(lines[..|lines| - 1], wants) && GoodLine(lines[..|lines| - 1], lines[|lines| - 1], wants))
  }

  lemma {:induction false} Appended(lines: seq<string>, line: string, wants: seq<Want>)
    ensures Section(lines + [line]) == if KindOf(line).Header? then KindOf(line).section else Section(lines)
    ensures Others(lines + [line], wants) ==
            Others(lines, wants) + if Target(line, Section(lines), wants).None? then [line] else []
    ensures Good(lines + [line], wants) <==> Good(lines, wants) && GoodLine(lines, line, wants)
    ensures Visited(lines + [line]) == Visited(lines) + if KindOf(line).Header? then {KindOf(line).section} else {}
  {
    assert (lines + [line])[..|lines|] == lines;
  }

  lemma {:induction false} AppendedCount(lines: seq<string>, line: string, w: Want, wants: seq<Want>)
    ensures Count(lines + [line], w, wants) ==
            Count(lines, w, wants) + if Target(line, Section(lines), wants) == Some(w) then 1 else 0
  {
    assert (lines + [line])[..|lines|] == lines;
  }
}
