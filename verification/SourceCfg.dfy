/** Merging values into a Source engine .cfg file (agent/internal/instances/configfiles.go). */
module SourceCfg {
  import opened Common
  import opened Text

  /** A wanted value; they come as the map's entries in the order of their names. */
  datatype Entry = Entry(name: string, value: string)

  const DELIMITERS := " \t\""

  function LowerChar(c: char): char {
    if 'A' <= c <= 'Z' then (c as int + 32) as char else c
  }

  function Lower(s: string): (r: string)
    ensures |r| == |s| && forall i :: 0 <= i < |s| ==> r[i] == LowerChar(s[i])
  {
    seq(|s|, i requires 0 <= i < |s| => LowerChar(s[i]))
  }

  function Clean(v: string): (r: string)
    ensures forall c :: c in r ==> c in v && c != '"' && c != '\r' && c != '\n'
  {
    if v == "" then ""
    else (if v[0] == '"' || v[0] == '\r' || v[0] == '\n' then "" else [v[0]]) + Clean(v[1..])
  }

  /** Characters a value of the format cannot have. */
  predicate Unholdable(c: char) { c == '"' || c == '\r' || c == '\n' }

  ghost predicate Holdable(v: string) { forall c :: c in v ==> !Unholdable(c) }

  /** A value the format can hold is written as it is. */
  lemma {:induction false} CleanKeeps(v: string)
    requires Holdable(v)
    ensures Clean(v) == v
  {
    if v != "" {
      assert v[0] in v;
      CleanKeeps(v[1..]);
      assert v == [v[0]] + v[1..];
    }
  }

  /** Of any other, exactly the characters the format cannot hold are left out. */
  lemma {:induction false} CleanParts(a: string, c: char, b: string)
    ensures Clean(a + [c] + b) == Clean(a) + (if Unholdable(c) then "" else [c]) + Clean(b)
  {
    var s := a + [c] + b;
    if a == "" {
      assert s[0] == c && s[1..] == b;
    } else {
      assert s[0] == a[0] && s[1..] == a[1..] + [c] + b;
      CleanParts(a[1..], c, b);
    }
  }

  /** The same text but for the case of its ASCII letters. */
  predicate SameButCase(c: char, d: char) {
    c == d || ('A' <= c <= 'Z' && d as int == c as int + 32) || ('A' <= d <= 'Z' && c as int == d as int + 32)
  }

  lemma LowerIffSameButCase(a: string, b: string)
    ensures Lower(a) == Lower(b) <==> |a| == |b| && forall i :: 0 <= i < |a| ==> SameButCase(a[i], b[i])
  {
    if Lower(a) == Lower(b) {
      assert forall i :: 0 <= i < |a| ==> Lower(a)[i] == Lower(b)[i];
    }
  }

  function Quote(v: string): string { "\"" + Clean(v) + "\"" }

  // ---- one line ----

  predicate Slashes(s: string) { |s| >= 2 && s[0] == '/' && s[1] == '/' }

  /** A `;` outside quotes and before any comment. */
  function HasSeparatorFrom(s: string, quoted: bool): bool {
    if s == "" then false
    else if s[0] == '"' then HasSeparatorFrom(s[1..], !quoted)
    else if !quoted && Slashes(s) then false
    else if !quoted && s[0] == ';' then true
    else HasSeparatorFrom(s[1..], quoted)
  }

  method HasSeparator(rest: string) returns (r: bool)
    ensures r == HasSeparatorFrom(rest, false)
  {
    var quoted := false;
    for i := 0 to |rest|
      invariant HasSeparatorFrom(rest[i..], quoted) == HasSeparatorFrom(rest, false)
    {
      assert rest[i..][1..] == rest[i + 1..];
      if rest[i] == '"' {
        quoted := !quoted;
      } else if !quoted && Slashes(rest[i..]) {
        return false;
      } else if !quoted && rest[i] == ';' {
        return true;
      }
    }
    return false;
  }

  /** The text from the first `//` outside quotes on. */
  function CommentFrom(s: string, quoted: bool): string {
    if s == "" then ""
    else if s[0] == '"' then CommentFrom(s[1..], !quoted)
    else if !quoted && Slashes(s) then s
    else CommentFrom(s[1..], quoted)
  }

  /** The comment as it is written back, with a space before it. */
  function Spaced(comment: string): string { if comment == "" then "" else " " + comment }

  method Comment(rest: string) returns (r: string)
    ensures r == Spaced(CommentFrom(rest, false))
  {
    var quoted := false;
    for i := 0 to |rest|
      invariant CommentFrom(rest[i..], quoted) == CommentFrom(rest, false)
    {
      assert rest[i..][1..] == rest[i + 1..];
      if rest[i] == '"' {
        quoted := !quoted;
      } else if !quoted && Slashes(rest[i..]) {
        return " " + rest[i..];
      }
    }
    return "";
  }

  /** The first word of a trimmed line. */
  function Word(t: string): string { t[..Until(t, DELIMITERS)] }

  function Rest(t: string): string { t[Until(t, DELIMITERS)..] }

  function Find(entries: seq<Entry>, name: string): Option<Entry> {
    if entries == [] then None
    else if Lower(entries[0].name) == Lower(name) then Some(entries[0])
    else Find(entries[1..], name)
  }

  /** The entry a line is rewritten for: a single command setting one of the wanted names. */
  function Sets(line: string, entries: seq<Entry>): Option<Entry> {
    var t := TrimSpace(line);
    if t == "" || Slashes(t) || HasSeparatorFrom(Rest(t), false) then None else Find(entries, Word(t))
  }

  function Written(line: string, entries: seq<Entry>): string {
    match Sets(line, entries)
    case None => line
    case Some(e) =>
      var t := TrimSpace(line);
      Word(t) + " " + Quote(e.value) + Spaced(CommentFrom(Rest(t), false))
  }

  // ---- the merge ----

  function WrittenAll(lines: seq<string>, entries: seq<Entry>): (out: seq<string>)
    ensures |out| == |lines| && forall i :: 0 <= i < |lines| ==> out[i] == Written(lines[i], entries)
  {
    if lines == [] then []
    else WrittenAll(lines[..|lines| - 1], entries) + [Written(lines[|lines| - 1], entries)]
  }

  /** The names of the entries some line was rewritten for. */
  function SetNames(lines: seq<string>, entries: seq<Entry>): set<string> {
    if lines == [] then {}
    else
      var e := Sets(lines[|lines| - 1], entries);
      SetNames(lines[..|lines| - 1], entries) + if e.Some? then {e.value.name} else {}
  }

  function Added(missing: seq<Entry>, done: set<string>): seq<string> {
    if missing == [] then []
    else
      (if missing[0].name in done then [] else [missing[0].name + " " + Quote(missing[0].value)])
      + Added(missing[1..], done)
  }

  function Merged(lines: seq<string>, entries: seq<Entry>): seq<string> {
    WrittenAll(lines, entries) + Added(entries, SetNames(lines, entries))
  }

  method WriteLine(line: string, entries: seq<Entry>) returns (out: string, which: Option<string>)
    ensures out == Written(line, entries)
    ensures which == match Sets(line, entries) case Some(e) => Some(e.name) case None => None
  {
    var t := TrimSpace(line);
    if t == "" || Slashes(t) {
      return line, None;
    }
    var separated := HasSeparator(Rest(t));
    var found := Find(entries, Word(t));
    if found.None? || separated {
      return line, None;
    }
    var comment := Comment(Rest(t));
    return Word(t) + " " + Quote(found.value.value) + comment, Some(found.value.name);
  }

  method MergeSourceCfg(existing: string, entries: seq<Entry>) returns (r: string)
    ensures r == MergedText(existing, entries)
  {
    var done: set<string> := {};
    var out: seq<string> := [];
    var lines := Lines(existing);
    for i := 0 to |lines|
      invariant out == WrittenAll(lines[..i], entries)
      invariant done == SetNames(lines[..i], entries)
    {
      assert lines[..i + 1][..i] == lines[..i];
      var line, which := WriteLine(lines[i], entries);
      out := out + [line];
      if which.Some? {
        done := done + {which.value};
      }
    }
    assert lines[..|lines|] == lines;
    var added := AddMissing(entries, done);
    r := Join(out + added, '\n') + "\n";
  }

  method AddMissing(entries: seq<Entry>, done: set<string>) returns (out: seq<string>)
    ensures out == Added(entries, done)
  {
    out := [];
    for i := 0 to |entries|
      invariant out + Added(entries[i..], done) == Added(entries, done)
    {
      assert entries[i..][1..] == entries[i + 1..];
      var rest := Added(entries[i + 1..], done);
      if entries[i].name !in done {
        var line := entries[i].name + " " + Quote(entries[i].value);
        assert out + ([line] + rest) == (out + [line]) + rest;
        out := out + [line];
      } else {
        assert [] + rest == rest;
      }
    }
    assert entries[|entries|..] == [];
  }

  lemma {:induction false} SetNamesFrom(lines: seq<string>, entries: seq<Entry>, name: string) returns (i: nat)
    requires name in SetNames(lines, entries)
    ensures i < |lines| && Sets(lines[i], entries).Some? && Sets(lines[i], entries).value.name == name
  {
    i := |lines| - 1;
    if !(Sets(lines[i], entries).Some? && Sets(lines[i], entries).value.name == name) {
      i := SetNamesFrom(lines[..i], entries, name);
    }
  }

  lemma {:induction false} SetNamesHas(lines: seq<string>, entries: seq<Entry>, i: nat)
    requires i < |lines| && Sets(lines[i], entries).Some?
    ensures Sets(lines[i], entries).value.name in SetNames(lines, entries)
  {
    if i < |lines| - 1 {
      SetNamesHas(lines[..|lines| - 1], entries, i);
    }
  }

  // ---- names the format can hold ----

  predicate SlashesAt(s: string, i: nat)
    requires i < |s| - 1
  {
    s[i] == '/' && s[i + 1] == '/'
  }

  /** A console variable's name: no white space, quote, `;` or comment in it. */
  ghost predicate Plain(name: string) {
    && name != ""
    && (forall c :: c in name ==> !IsSpace(c) && c != '"' && c != ';')
    && (forall i :: 0 <= i < |name| - 1 ==> !SlashesAt(name, i))
  }

  ghost predicate Wanted(entries: seq<Entry>) {
    && (forall i :: 0 <= i < |entries| ==> Plain(entries[i].name))
    && (forall i, j :: 0 <= i < j < |entries| ==> Lower(entries[i].name) != Lower(entries[j].name))
  }

  lemma PlainLower(a: string, b: string)
    requires Plain(a) && Lower(a) == Lower(b)
    ensures Plain(b)
  {
    forall c | c in b ensures !IsSpace(c) && c != '"' && c != ';' {
      var i :| 0 <= i < |b| && b[i] == c;
      assert a[i] in a && Lower(a)[i] == Lower(b)[i];
    }
    forall i | 0 <= i < |b| - 1 ensures !SlashesAt(b, i) {
      assert !SlashesAt(a, i);
      assert Lower(a)[i] == Lower(b)[i] && Lower(a)[i + 1] == Lower(b)[i + 1];
    }
  }

  lemma {:induction false} FindFacts(entries: seq<Entry>, name: string)
    ensures
      match Find(entries, name)
      case Some(e) => e in entries && Lower(e.name) == Lower(name)
      case None => forall e :: e in entries ==> Lower(e.name) != Lower(name)
  {
    if entries != [] {
      FindFacts(entries[1..], name);
    }
  }

  lemma {:induction false} FindUnique(entries: seq<Entry>, e: Entry, name: string)
    requires Wanted(entries) && e in entries && Lower(name) == Lower(e.name)
    ensures Find(entries, name) == Some(e)
  {
    FindFacts(entries, name);
    var f := Find(entries, name).value;
    var i :| 0 <= i < |entries| && entries[i] == e;
    var j :| 0 <= j < |entries| && entries[j] == f;
  }

  // ---- what a rewritten or added line looks like ----

  /** `name "value"` and an optional comment, with nothing around it. */
  ghost predicate Setting(line: string, name: string, value: string, comment: string) {
    && Plain(name)
    && line == name + " " + Quote(value) + Spaced(comment)
    && (comment == "" || (Slashes(comment) && !IsSpace(comment[|comment| - 1])))
  }

  lemma {:induction false} ThroughQuotes(v: string, tail: string)
    requires '"' !in v
    ensures HasSeparatorFrom(v + "\"" + tail, true) == HasSeparatorFrom(tail, false)
    ensures CommentFrom(v + "\"" + tail, true) == CommentFrom(tail, false)
  {
    var s := v + "\"" + tail;
    if v == "" {
      assert s[1..] == tail;
    } else {
      assert s[0] == v[0] && s[1..] == v[1..] + "\"" + tail;
      ThroughQuotes(v[1..], tail);
    }
  }

  lemma RestParses(value: string, comment: string)
    requires comment == "" || Slashes(comment)
    ensures
      var rest := " " + Quote(value) + Spaced(comment);
      !HasSeparatorFrom(rest, false) && CommentFrom(rest, false) == comment
  {
    var rest, tail := " " + Quote(value) + Spaced(comment), Spaced(comment);
    var quoted := "\"" + (Clean(value) + "\"" + tail);
    assert rest[1..] == quoted && quoted[1..] == Clean(value) + "\"" + tail;
    ThroughQuotes(Clean(value), tail);
    if comment != "" {
      assert tail[1..] == comment;
    }
  }

  lemma Concat(a: string, b: string, c: string, d: string)
    ensures a + b + c + d == a + (b + c + d)
  {
  }

  lemma SettingWords(line: string, name: string, value: string, comment: string)
    requires Setting(line, name, value, comment)
    ensures Word(line) == name && Rest(line) == " " + Quote(value) + Spaced(comment)
    ensures line == name + (" " + Quote(value) + Spaced(comment))
  {
    var rest := " " + Quote(value) + Spaced(comment);
    Concat(name, " ", Quote(value), Spaced(comment));
    assert rest[0] == ' ';
    UntilAt(name, rest, DELIMITERS);
    assert line[..|name|] == name && line[|name|..] == rest;
  }

  lemma NameStarts(name: string, rest: string)
    requires Plain(name) && rest != "" && rest[0] == ' '
    ensures !Slashes(name + rest) && !IsSpace((name + rest)[0])
  {
    var line := name + rest;
    assert line[0] == name[0] && name[0] in name;
    if |name| > 1 {
      assert line[1] == name[1] && !SlashesAt(name, 0);
    } else {
      assert line[1] == rest[0];
    }
  }

  lemma SettingEnds(value: string, comment: string)
    requires comment != "" ==> !IsSpace(comment[|comment| - 1])
    ensures
      var rest := " " + Quote(value) + Spaced(comment);
      rest[0] == ' ' && !IsSpace(rest[|rest| - 1])
  {
    var rest := " " + Quote(value) + Spaced(comment);
    assert rest[|rest| - 1] == if comment == "" then '"' else comment[|comment| - 1];
  }

  lemma NameAndRest(name: string, rest: string)
    requires Plain(name) && rest != "" && rest[0] == ' ' && !IsSpace(rest[|rest| - 1])
    ensures TrimSpace(name + rest) == name + rest && !Slashes(name + rest)
  {
    NameStarts(name, rest);
    assert (name + rest)[|name + rest| - 1] == rest[|rest| - 1];
    Trimmed(name + rest);
  }

  lemma SettingTrimmed(line: string, name: string, value: string, comment: string)
    requires Setting(line, name, value, comment)
    ensures TrimSpace(line) == line && line != "" && !Slashes(line)
  {
    SettingEnds(value, comment);
    Concat(name, " ", Quote(value), Spaced(comment));
    NameAndRest(name, " " + Quote(value) + Spaced(comment));
  }

  lemma SettingParses(line: string, name: string, value: string, comment: string)
    requires Setting(line, name, value, comment)
    ensures TrimSpace(line) == line && line != "" && !Slashes(line)
    ensures Word(line) == name && Rest(line) == " " + Quote(value) + Spaced(comment)
    ensures !HasSeparatorFrom(Rest(line), false) && CommentFrom(Rest(line), false) == comment
  {
    SettingTrimmed(line, name, value, comment);
    SettingWords(line, name, value, comment);
    RestParses(value, comment);
  }

  lemma {:induction false} CommentEnds(s: string, quoted: bool)
    ensures var c := CommentFrom(s, quoted); c == "" || (Slashes(c) && |c| <= |s| && c == s[|s| - |c|..])
  {
    if s != "" && !(s[0] != '"' && !quoted && Slashes(s)) {
      CommentEnds(s[1..], if s[0] == '"' then !quoted else quoted);
    }
  }

  lemma CommentIsTrimmed(t: string)
    requires t != "" && !IsSpace(t[|t| - 1])
    ensures var c := CommentFrom(Rest(t), false); c == "" || (Slashes(c) && !IsSpace(c[|c| - 1]))
  {
    CommentEnds(Rest(t), false);
    var c := CommentFrom(Rest(t), false);
    if c != "" {
      assert c[|c| - 1] == Rest(t)[|Rest(t)| - 1] == t[|t| - 1];
    }
  }

  lemma SetsFound(line: string, entries: seq<Entry>)
    requires Wanted(entries) && Sets(line, entries).Some?
    ensures
      var e := Sets(line, entries).value;
      var word := Word(TrimSpace(line));
      e in entries && Lower(word) == Lower(e.name) && Plain(word)
  {
    var word := Word(TrimSpace(line));
    FindFacts(entries, word);
    PlainLower(Sets(line, entries).value.name, word);
  }

  lemma RewrittenIsSetting(t: string, value: string)
    requires t != "" && !IsSpace(t[|t| - 1]) && Plain(Word(t))
    ensures
      var comment := CommentFrom(Rest(t), false);
      Setting(Word(t) + " " + Quote(value) + Spaced(comment), Word(t), value, comment)
  {
    CommentIsTrimmed(t);
  }

  /** A rewritten line is a setting of the line's own spelling of the name, with its comment. */
  lemma WrittenSets(line: string, entries: seq<Entry>)
    requires Wanted(entries) && Sets(line, entries).Some?
    ensures
      var e := Sets(line, entries).value;
      var t := TrimSpace(line);
      && e in entries && Lower(Word(t)) == Lower(e.name)
      && Setting(Written(line, entries), Word(t), e.value, CommentFrom(Rest(t), false))
  {
    SetsFound(line, entries);
    TrimSpaceIs(line);
    RewrittenIsSetting(TrimSpace(line), Sets(line, entries).value.value);
  }

  lemma SettingStays(line: string, name: string, comment: string, e: Entry, entries: seq<Entry>)
    requires Wanted(entries) && e in entries && Lower(name) == Lower(e.name) && Setting(line, name, e.value, comment)
    ensures Sets(line, entries) == Some(e) && Written(line, entries) == line
  {
    SettingParses(line, name, e.value, comment);
    FindUnique(entries, e, name);
  }

  lemma WrittenTwice(line: string, entries: seq<Entry>)
    requires Wanted(entries)
    ensures Written(Written(line, entries), entries) == Written(line, entries)
    ensures Sets(Written(line, entries), entries) == Sets(line, entries)
  {
    if Sets(line, entries).Some? {
      WrittenSets(line, entries);
      var t := TrimSpace(line);
      SettingStays(Written(line, entries), Word(t), CommentFrom(Rest(t), false), Sets(line, entries).value, entries);
    }
  }

  /** Where the merge touches a file: a line stays as it is unless it is a single command for a wanted
      name, and then the name's spelling and the comment stay. */
  lemma LineKept(lines: seq<string>, entries: seq<Entry>, i: nat)
    requires Wanted(entries) && i < |lines|
    ensures |Merged(lines, entries)| >= |lines|
    ensures
      var e := Sets(lines[i], entries);
      var t := TrimSpace(lines[i]);
      if e.None? then Merged(lines, entries)[i] == lines[i]
      else
        && e.value in entries && Lower(Word(t)) == Lower(e.value.name)
        && Setting(Merged(lines, entries)[i], Word(t), e.value.value, CommentFrom(Rest(t), false))
  {
    if Sets(lines[i], entries).Some? {
      WrittenSets(lines[i], entries);
    }
  }

  // ---- merging twice is merging once ----

  lemma {:induction false} AddedFrom(missing: seq<Entry>, done: set<string>, i: nat) returns (e: Entry)
    requires i < |Added(missing, done)|
    ensures e in missing && e.name !in done && Added(missing, done)[i] == e.name + " " + Quote(e.value)
  {
    if missing[0].name in done {
      assert Added(missing, done) == Added(missing[1..], done);
      e := AddedFrom(missing[1..], done, i);
    } else if i == 0 {
      e := missing[0];
    } else {
      e := AddedFrom(missing[1..], done, i - 1);
    }
  }

  lemma {:induction false} AddedHas(missing: seq<Entry>, done: set<string>, e: Entry) returns (i: nat)
    requires e in missing && e.name !in done
    ensures i < |Added(missing, done)| && Added(missing, done)[i] == e.name + " " + Quote(e.value)
  {
    if missing[0] == e {
      i := 0;
    } else {
      var k := AddedHas(missing[1..], done, e);
      i := if missing[0].name in done then k else k + 1;
    }
  }

  /** The positions, from i on, of the entries no line sets. */
  function MissingFrom(entries: seq<Entry>, done: set<string>, i: nat): (at: seq<nat>)
    requires i <= |entries|
    ensures forall k :: 0 <= k < |at| ==> i <= at[k] < |entries| && entries[at[k]].name !in done
    decreases |entries| - i
  {
    if i == |entries| then []
    else (if entries[i].name in done then [] else [i]) + MissingFrom(entries, done, i + 1)
  }

  predicate Ascending(at: seq<nat>) { forall k, l :: 0 <= k < l < |at| ==> at[k] < at[l] }

  lemma {:induction false} MissingAscends(entries: seq<Entry>, done: set<string>, i: nat)
    requires i <= |entries|
    ensures Ascending(MissingFrom(entries, done, i))
    decreases |entries| - i
  {
    if i < |entries| {
      MissingAscends(entries, done, i + 1);
    }
  }

  lemma {:induction false} MissingHas(entries: seq<Entry>, done: set<string>, i: nat, k: nat)
    requires i <= k < |entries| && entries[k].name !in done
    ensures k in MissingFrom(entries, done, i)
    decreases |entries| - i
  {
    if i < k {
      MissingHas(entries, done, i + 1, k);
    }
  }

  predicate AddsAll(entries: seq<Entry>, at: seq<nat>, lines: seq<string>) {
    && |lines| == |at|
    && forall k :: 0 <= k < |at| ==>
         at[k] < |entries| && lines[k] == entries[at[k]].name + " " + Quote(entries[at[k]].value)
  }

  lemma {:induction false} AddedFromAt(entries: seq<Entry>, done: set<string>, i: nat)
    requires i <= |entries|
    ensures AddsAll(entries, MissingFrom(entries, done, i), Added(entries[i..], done))
    decreases |entries| - i
  {
    if i < |entries| {
      AddedFromAt(entries, done, i + 1);
      assert entries[i..][1..] == entries[i + 1..];
    }
  }

  /** The lines added are settings of exactly the entries that are missing, each once, in the order of the
      entries. */
  lemma AddedInOrder(entries: seq<Entry>, done: set<string>)
    ensures
      var at := MissingFrom(entries, done, 0);
      && AddsAll(entries, at, Added(entries, done))
      && Ascending(at) && (forall i :: 0 <= i < |entries| ==> (i in at <==> entries[i].name !in done))
  {
    assert entries[0..] == entries;
    AddedFromAt(entries, done, 0);
    MissingAscends(entries, done, 0);
    forall i | 0 <= i < |entries| && entries[i].name !in done ensures i in MissingFrom(entries, done, 0) {
      MissingHas(entries, done, 0, i);
    }
  }

  lemma AddedSets(line: string, e: Entry, entries: seq<Entry>)
    requires Wanted(entries) && e in entries && line == e.name + " " + Quote(e.value)
    ensures Setting(line, e.name, e.value, "") && Sets(line, entries) == Some(e) && Written(line, entries) == line
  {
    assert line == line + Spaced("");
    SettingStays(line, e.name, "", e, entries);
  }

  lemma {:induction false} NothingAdded(missing: seq<Entry>, done: set<string>)
    requires forall e :: e in missing ==> e.name in done
    ensures Added(missing, done) == []
  {
    if missing != [] {
      assert missing[0] in missing;
      NothingAdded(missing[1..], done);
    }
  }

  /** Every line of a merged file is written as it is. */
  lemma MergedLineStays(lines: seq<string>, entries: seq<Entry>, i: nat)
    requires Wanted(entries) && i < |Merged(lines, entries)|
    ensures Written(Merged(lines, entries)[i], entries) == Merged(lines, entries)[i]
  {
    if i < |lines| {
      WrittenTwice(lines[i], entries);
    } else {
      var e := AddedFrom(entries, SetNames(lines, entries), i - |lines|);
      AddedSets(Merged(lines, entries)[i], e, entries);
    }
  }

  lemma {:induction false} SetNamesAt(out: seq<string>, entries: seq<Entry>, i: nat, name: string)
    requires i < |out| && Sets(out[i], entries).Some? && Sets(out[i], entries).value.name == name
    ensures name in SetNames(out, entries)
  {
    SetNamesHas(out, entries, i);
  }

  lemma SetAgain(lines: seq<string>, entries: seq<Entry>, i: nat)
    requires Wanted(entries) && i < |lines|
    ensures Sets(Merged(lines, entries)[i], entries) == Sets(lines[i], entries)
  {
    WrittenTwice(lines[i], entries);
  }

  lemma AddedIsSet(lines: seq<string>, entries: seq<Entry>, e: Entry) returns (i: nat)
    requires Wanted(entries) && e in entries && e.name !in SetNames(lines, entries)
    ensures i < |Merged(lines, entries)| && Sets(Merged(lines, entries)[i], entries) == Some(e)
  {
    var k := AddedHas(entries, SetNames(lines, entries), e);
    i := |lines| + k;
    AddedSets(Merged(lines, entries)[i], e, entries);
  }

  /** Every wanted name is set by some line of a merged file. */
  lemma {:induction false} MergedSets(lines: seq<string>, entries: seq<Entry>, e: Entry)
    requires Wanted(entries) && e in entries
    ensures e.name in SetNames(Merged(lines, entries), entries)
  {
    if e.name in SetNames(lines, entries) {
      var i := SetNamesFrom(lines, entries, e.name);
      SetAgain(lines, entries, i);
      SetNamesAt(Merged(lines, entries), entries, i, e.name);
    } else {
      var i := AddedIsSet(lines, entries, e);
      SetNamesAt(Merged(lines, entries), entries, i, e.name);
    }
  }

  lemma MergedKeepsMerged(lines: seq<string>, entries: seq<Entry>)
    requires Wanted(entries)
    ensures Merged(Merged(lines, entries), entries) == Merged(lines, entries)
  {
    var out := Merged(lines, entries);
    forall i | 0 <= i < |out| ensures Written(out[i], entries) == out[i] {
      MergedLineStays(lines, entries, i);
    }
    forall e | e in entries ensures e.name in SetNames(out, entries) {
      MergedSets(lines, entries, e);
    }
    NothingAdded(entries, SetNames(out, entries));
    assert WrittenAll(out, entries) == out;
  }

  // ---- the same on the text of the file ----

  lemma SettingFree(line: string, name: string, value: string, comment: string)
    requires Setting(line, name, value, comment) && '\n' !in comment
    ensures '\n' !in line && line != ""
  {
    assert forall c :: c in name ==> !IsSpace(c);
  }

  lemma CommentFree(t: string)
    requires '\n' !in t
    ensures '\n' !in CommentFrom(Rest(t), false)
  {
    CommentEnds(Rest(t), false);
  }

  lemma WrittenFree(line: string, entries: seq<Entry>)
    requires Wanted(entries) && '\n' !in line
    ensures '\n' !in Written(line, entries) && (line != "" ==> Written(line, entries) != "")
  {
    var e := Sets(line, entries);
    if e.Some? {
      var t := TrimSpace(line);
      WrittenSets(line, entries);
      TrimKeepsFree(line, '\n');
      CommentFree(t);
      SettingFree(Written(line, entries), Word(t), e.value.value, CommentFrom(Rest(t), false));
    }
  }

  lemma MergedProper(lines: seq<string>, entries: seq<Entry>)
    requires Wanted(entries) && Proper(lines)
    ensures Proper(Merged(lines, entries))
  {
    var out := Merged(lines, entries);
    forall i | 0 <= i < |out| ensures '\n' !in out[i] && (i >= |lines| || lines[i] != "" ==> out[i] != "") {
      if i < |lines| {
        WrittenFree(lines[i], entries);
      } else {
        var e := AddedFrom(entries, SetNames(lines, entries), i - |lines|);
        assert forall c :: c in e.name ==> !IsSpace(c);
      }
    }
  }

  function MergedText(existing: string, entries: seq<Entry>): string {
    FromLines(Merged(Lines(existing), entries))
  }

  lemma NothingMerged(lines: seq<string>, entries: seq<Entry>)
    requires Merged(lines, entries) == []
    ensures Merged([""], entries) == [""]
  {
    assert lines == [] && SetNames(lines, entries) == {};
    assert Added(entries, {}) == [];
    assert Written("", entries) == "" && Sets("", entries) == None;
    assert SetNames([""], entries) == {};
  }

  /** Merging the same values into a merged file changes nothing. */
  lemma MergeIsIdempotent(existing: string, entries: seq<Entry>)
    requires Wanted(entries)
    ensures MergedText(MergedText(existing, entries), entries) == MergedText(existing, entries)
  {
    var lines := Lines(existing);
    var out := Merged(lines, entries);
    LinesProper(existing);
    MergedProper(lines, entries);
    LinesFromLines(out);
    MergedKeepsMerged(lines, entries);
    if out == [] {
      NothingMerged(lines, entries);
    }
  }
}
