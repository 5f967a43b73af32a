/** What a Source engine .cfg file does when it is executed - its commands run in order, so the last
    one setting a variable wins - and what a merge makes of that. */
module CfgExec {
  import opened Common
  import opened Text
  import opened SourceCfg

  /** A command's name, in lower case, and its first argument. */
  datatype Command = Command(name: string, value: string)

  /** The commands of a line, as text: `;` separates them and `//` ends them, outside quotes. */
  function Pieces(s: string, quoted: bool, piece: string): seq<string> {
    if s == "" then [piece]
    else if s[0] == '"' then Pieces(s[1..], !quoted, piece + [s[0]])
    else if !quoted && Slashes(s) then [piece]
    else if !quoted && s[0] == ';' then [piece] + Pieces(s[1..], false, "")
    else Pieces(s[1..], quoted, piece + [s[0]])
  }

  function Argument(rest: string): string {
    var t := TrimSpace(rest);
    if t != "" && t[0] == '"' then InQuotes(t[1..]) else Word(t)
  }

  /** What follows a quote up to the next one, and what comes after that. */
  function InQuotes(s: string): string { s[..Until(s, "\"")] }

  function AfterQuotes(s: string): string {
    var i := Until(s, "\"");
    if i < |s| then s[i + 1..] else ""
  }

  /** A command's name may be quoted, as its argument may. */
  function CommandOf(piece: string): seq<Command> {
    var t := TrimSpace(piece);
    if t == "" then []
    else if t[0] == '"' then [Command(Lower(InQuotes(t[1..])), Argument(AfterQuotes(t[1..])))]
    else [Command(Lower(Word(t)), Argument(Rest(t)))]
  }

  function CommandsOf(pieces: seq<string>): seq<Command> {
    if pieces == [] then [] else CommandOf(pieces[0]) + CommandsOf(pieces[1..])
  }

  function Commands(line: string): seq<Command> { CommandsOf(Pieces(TrimSpace(line), false, "")) }

  function Last(commands: seq<Command>, name: string): Option<string> {
    if commands == [] then None
    else if commands[|commands| - 1].name == name then Some(commands[|commands| - 1].value)
    else Last(commands[..|commands| - 1], name)
  }

  /** The value a variable has once the lines were executed, if any line sets it. */
  function Final(lines: seq<string>, name: string): Option<string> {
    if lines == [] then None
    else
      match Last(Commands(lines[|lines| - 1]), name)
      case Some(v) => Some(v)
      case None => Final(lines[..|lines| - 1], name)
  }

  lemma {:induction false} FinalConcat(a: seq<string>, b: seq<string>, name: string)
    ensures Final(a + b, name) == if Final(b, name).Some? then Final(b, name) else Final(a, name)
  {
    if b == [] {
      assert a + b == a;
    } else {
      assert (a + b)[..|a + b| - 1] == a + b[..|b| - 1];
      FinalConcat(a, b[..|b| - 1], name);
    }
  }

  // ---- lines with one command ----

  lemma PlainTail(word: string)
    requires Plain(word) && |word| > 1
    ensures Plain(word[1..])
  {
    var tail := word[1..];
    assert forall c :: c in tail ==> c in word;
    forall i | 0 <= i < |tail| - 1 ensures !SlashesAt(tail, i) {
      assert !SlashesAt(word, i + 1);
    }
  }

  lemma {:induction false} PiecesOfWord(word: string, rest: string, piece: string)
    requires word == "" || Plain(word)
    requires rest == "" || rest[0] in DELIMITERS
    ensures Pieces(word + rest, false, piece) == Pieces(rest, false, piece + word)
  {
    if word == "" {
      assert word + rest == rest && piece + word == piece;
    } else {
      var s := word + rest;
      assert word[0] in word && s[0] == word[0];
      assert !Slashes(s) by {
        if |word| > 1 { assert s[1] == word[1] && !SlashesAt(word, 0); }
      }
      assert s[1..] == word[1..] + rest;
      assert (piece + [s[0]]) + word[1..] == piece + word;
      assert word[1..] == "" || Plain(word[1..]) by {
        if |word| > 1 {
          PlainTail(word);
        }
      }
      PiecesOfWord(word[1..], rest, piece + [s[0]]);
    }
  }

  /** Without a separator there is one piece: what comes before the comment. */
  lemma {:induction false} OnePiece(s: string, quoted: bool, piece: string)
    requires !HasSeparatorFrom(s, quoted)
    ensures |CommentFrom(s, quoted)| <= |s|
    ensures Pieces(s, quoted, piece) == [piece + s[..|s| - |CommentFrom(s, quoted)|]]
  {
    if s == "" || (s[0] != '"' && !quoted && Slashes(s)) {
      assert piece + "" == piece;
    } else {
      var q := if s[0] == '"' then !quoted else quoted;
      OnePiece(s[1..], q, piece + [s[0]]);
      var n := |s| - |CommentFrom(s[1..], q)|;
      assert s[..n] == [s[0]] + s[1..][..n - 1];
      assert piece + s[..n] == (piece + [s[0]]) + s[1..][..n - 1];
    }
  }

  lemma {:induction false} TrimRightAfterWord(word: string, code: string) returns (k: nat)
    requires word != "" && !IsSpace(word[|word| - 1])
    ensures k <= |code| && TrimRight(word + code) == word + code[..k]
  {
    var s := word + code;
    if code == "" {
      k := 0;
      assert s == word && word + code[..0] == word;
    } else if !IsSpace(code[|code| - 1]) {
      k := |code|;
      assert code[..k] == code && s[|s| - 1] == code[|code| - 1];
    } else {
      var shorter := code[..|code| - 1];
      k := TrimRightAfterWord(word, shorter);
      assert s[..|s| - 1] == word + shorter && s[|s| - 1] == code[|code| - 1];
      assert shorter[..k] == code[..k];
    }
  }

  lemma WordBefore(word: string, tail: string)
    requires Plain(word) && (tail == "" || tail[0] in DELIMITERS)
    ensures Word(word + tail) == word && Rest(word + tail) == tail
  {
    UntilAt(word, tail, DELIMITERS);
    assert (word + tail)[..|word|] == word && (word + tail)[|word|..] == tail;
  }

  lemma PlainEnds(word: string)
    requires Plain(word)
    ensures !IsSpace(word[0]) && !IsSpace(word[|word| - 1])
  {
    assert word[0] in word && word[|word| - 1] in word;
  }

  lemma TrimAfterWord(word: string, code: string) returns (k: nat)
    requires Plain(word)
    ensures k <= |code| && TrimSpace(word + code) == word + code[..k]
  {
    PlainEnds(word);
    k := TrimRightAfterWord(word, code);
    assert TrimLeft(word + code) == word + code;
  }

  /** A plain word with text after it is the command of that name. */
  lemma WordNames(word: string, code: string)
    requires Plain(word) && (code == "" || code[0] in DELIMITERS)
    ensures |CommandOf(word + code)| == 1 && CommandOf(word + code)[0].name == Lower(word)
  {
    var k := TrimAfterWord(word, code);
    WordBefore(word, code[..k]);
  }

  lemma OneCommand(piece: string)
    ensures CommandsOf([piece]) == CommandOf(piece)
  {
    assert [piece][1..] == [];
  }

  lemma {:induction false} PiecesOfCommand(word: string, rest: string)
    requires Plain(word) && (rest == "" || rest[0] in DELIMITERS) && !HasSeparatorFrom(rest, false)
    ensures |CommentFrom(rest, false)| <= |rest|
    ensures Pieces(word + rest, false, "") == [word + rest[..|rest| - |CommentFrom(rest, false)|]]
  {
    PiecesOfWord(word, rest, "");
    assert "" + word == word;
    OnePiece(rest, false, word);
  }

  lemma CodeOfCommand(word: string, rest: string) returns (code: string)
    requires Plain(word) && (rest == "" || rest[0] in DELIMITERS) && !HasSeparatorFrom(rest, false)
    ensures Pieces(word + rest, false, "") == [word + code] && (code == "" || code[0] in DELIMITERS)
  {
    PiecesOfCommand(word, rest);
    code := rest[..|rest| - |CommentFrom(rest, false)|];
  }

  lemma {:induction false} OnlyCommand(word: string, rest: string)
    requires Plain(word) && (rest == "" || rest[0] in DELIMITERS) && !HasSeparatorFrom(rest, false)
    ensures var commands := CommandsOf(Pieces(word + rest, false, ""));
            |commands| == 1 && commands[0].name == Lower(word)
  {
    var code := CodeOfCommand(word, rest);
    OneCommand(word + code);
    WordNames(word, code);
  }

  lemma {:induction false} OnlyCommandOf(t: string)
    requires Plain(Word(t)) && !HasSeparatorFrom(Rest(t), false)
    ensures var commands := CommandsOf(Pieces(t, false, ""));
            |commands| == 1 && commands[0].name == Lower(Word(t))
  {
    assert t == Word(t) + Rest(t);
    OnlyCommand(Word(t), Rest(t));
  }

  /** A line the merge takes for a single command is one, and it is the first word that names it. */
  lemma SingleCommand(line: string)
    requires var t := TrimSpace(line); Plain(Word(t)) && !HasSeparatorFrom(Rest(t), false)
    ensures |Commands(line)| == 1 && Commands(line)[0].name == Lower(Word(TrimSpace(line)))
  {
    OnlyCommandOf(TrimSpace(line));
  }

  lemma Assoc(a: string, b: string, c: string)
    ensures a + (b + c) == (a + b) + c
  {
  }

  lemma QuotedSpelled(v: string)
    ensures " " + ("\"" + v + "\"") == " \"" + v + "\""
  {
    var s, t := " " + ("\"" + v + "\""), " \"" + v + "\"";
    assert |s| == |t| && forall i :: 0 <= i < |s| ==> s[i] == t[i];
  }

  lemma TrimIndented(p: string, q: string)
    requires p != "" && IsSpace(p[0]) && p[1..] == q
    requires q != "" && !IsSpace(q[0]) && !IsSpace(q[|q| - 1])
    ensures TrimSpace(p) == q
  {
    assert TrimLeft(p) == TrimLeft(q);
    Trimmed(q);
  }

  lemma QuotedValue(v: string, q: string)
    requires '"' !in v && q == "\"" + (v + "\"")
    ensures Argument(" " + q) == v
  {
    assert (" " + q)[1..] == q;
    TrimIndented(" " + q, q);
    assert q[1..] == v + "\"";
    UntilAt(v, "\"", "\"");
    assert (v + "\"")[..|v|] == v;
  }

  lemma QuotedArgument(v: string)
    requires '"' !in v
    ensures Argument(" \"" + v + "\"") == v
  {
    var q := "\"" + (v + "\"");
    QuotedValue(v, q);
    QuotedSpelled(v);
    Assoc("\"", v, "\"");
  }

  lemma TrimPadded(s: string, pad: string)
    requires s != "" && !IsSpace(s[0]) && !IsSpace(s[|s| - 1])
    requires pad == "" || pad == " "
    ensures TrimSpace(s + pad) == s
  {
    var p := s + pad;
    assert p[0] == s[0];
    assert TrimLeft(p) == p;
    assert TrimRight(s) == s;
    if pad == "" {
      assert p == s;
    } else {
      PaddedRight(s);
    }
  }

  lemma {:induction false} PaddedRight(s: string)
    ensures TrimRight(s + " ") == TrimRight(s)
  {
    var p := s + " ";
    assert p[|p| - 1] == ' ' && p[..|p| - 1] == s;
  }

  lemma CommandOfTrimmed(piece: string, name: string, rest: string, v: string)
    requires name != "" && TrimSpace(piece) == name + rest
    requires Word(name + rest) == name && Rest(name + rest) == rest && Argument(rest) == v
    ensures CommandOf(piece) == [Command(Lower(name), v)]
  {
  }

  lemma TrimSetting(name: string, quoted: string, pad: string)
    requires Plain(name) && quoted != "" && !IsSpace(quoted[|quoted| - 1]) && (pad == "" || pad == " ")
    ensures TrimSpace((name + quoted) + pad) == name + quoted
  {
    PlainEnds(name);
    var s := name + quoted;
    assert s[0] == name[0] && s[|s| - 1] == quoted[|quoted| - 1];
    TrimPadded(s, pad);
  }

  lemma CommandOfQuoted(name: string, v: string, quoted: string, pad: string)
    requires Plain(name) && '"' !in v && quoted == " \"" + v + "\"" && (pad == "" || pad == " ")
    ensures CommandOf((name + quoted) + pad) == [Command(Lower(name), v)]
  {
    assert quoted[0] == ' ' && quoted[|quoted| - 1] == '"';
    assert TrimSpace((name + quoted) + pad) == name + quoted by {
      TrimSetting(name, quoted, pad);
    }
    assert Word(name + quoted) == name && Rest(name + quoted) == quoted by {
      WordBefore(name, quoted);
    }
    assert Argument(quoted) == v by {
      QuotedArgument(v);
    }
    CommandOfTrimmed((name + quoted) + pad, name, quoted, v);
  }

  lemma {:induction false} CommandOfSetting(name: string, value: string, pad: string)
    requires Plain(name) && (pad == "" || pad == " ")
    ensures CommandOf(name + ((" " + Quote(value)) + pad)) == [Command(Lower(name), Clean(value))]
  {
    Assoc(name, " " + Quote(value), pad);
    QuotedSpelled(Clean(value));
    CommandOfQuoted(name, Clean(value), " " + Quote(value), pad);
  }

  /** The space a comment is written back after. */
  function Pad(comment: string): string { if comment == "" then "" else " " }

  lemma CodeOfSetting(value: string, comment: string)
    ensures
      var rest := " " + Quote(value) + Spaced(comment);
      |comment| <= |rest| && rest[..|rest| - |comment|] == (" " + Quote(value)) + Pad(comment)
  {
    var rest, code := " " + Quote(value) + Spaced(comment), (" " + Quote(value)) + Pad(comment);
    assert rest == code + comment;
  }

  lemma {:induction false} SettingPieces(line: string, name: string, value: string, comment: string)
    requires Setting(line, name, value, comment)
    ensures Pieces(line, false, "") == [name + ((" " + Quote(value)) + Pad(comment))]
  {
    SettingWords(line, name, value, comment);
    RestParses(value, comment);
    assert line == Word(line) + Rest(line);
    PiecesOfCommand(name, Rest(line));
    CodeOfSetting(value, comment);
  }

  /** A written setting sets its name to the cleaned value, and does nothing else. */
  lemma {:induction false} SettingExecutes(line: string, name: string, value: string, comment: string)
    requires Setting(line, name, value, comment)
    ensures Commands(line) == [Command(Lower(name), Clean(value))]
  {
    SettingPieces(line, name, value, comment);
    SettingParses(line, name, value, comment);
    OneCommand(name + ((" " + Quote(value)) + Pad(comment)));
    CommandOfSetting(name, value, Pad(comment));
  }

  // ---- what the merge does to execution ----

  lemma WantedDiffer(entries: seq<Entry>, e: Entry, f: Entry)
    requires Wanted(entries) && e in entries && f in entries && e != f
    ensures Lower(e.name) != Lower(f.name)
  {
    var i :| 0 <= i < |entries| && entries[i] == e;
    var j :| 0 <= j < |entries| && entries[j] == f;
  }

  /** A line of one command that is rewritten for f names f. */
  lemma RewrittenNames(line: string, entries: seq<Entry>, f: Entry)
    requires Wanted(entries) && Sets(line, entries) == Some(f)
    ensures f in entries
    ensures Commands(Written(line, entries)) == [Command(Lower(f.name), Clean(f.value))]
    ensures |Commands(line)| == 1 && Commands(line)[0].name == Lower(f.name)
  {
    var t := TrimSpace(line);
    WrittenSets(line, entries);
    SettingExecutes(Written(line, entries), Word(t), f.value, CommentFrom(Rest(t), false));
    SingleCommand(line);
  }

  lemma {:induction false} LastOfOne(commands: seq<Command>, name: string)
    requires |commands| == 1
    ensures Last(commands, name) == if commands[0].name == name then Some(commands[0].value) else None
  {
    assert commands[..0] == [];
  }

  /** A line rewritten for e sets it; any other line does to e's variable what it did before. */
  lemma WrittenExecutes(line: string, entries: seq<Entry>, e: Entry)
    requires Wanted(entries) && e in entries
    ensures Last(Commands(Written(line, entries)), Lower(e.name)) ==
            if Sets(line, entries) == Some(e) then Some(Clean(e.value)) else Last(Commands(line), Lower(e.name))
  {
    var f := Sets(line, entries);
    if f.Some? {
      RewrittenNames(line, entries, f.value);
      LastOfOne(Commands(line), Lower(e.name));
      LastOfOne(Commands(Written(line, entries)), Lower(e.name));
      if f.value != e {
        WantedDiffer(entries, e, f.value);
      }
    }
  }

  /** The lines after the last one that is rewritten for e. */
  function Tail(lines: seq<string>, entries: seq<Entry>, e: Entry): seq<string> {
    if lines == [] || Sets(lines[|lines| - 1], entries) == Some(e) then []
    else Tail(lines[..|lines| - 1], entries, e) + [lines[|lines| - 1]]
  }

  lemma {:induction false} FinalLast(lines: seq<string>, line: string, name: string)
    ensures Final(lines + [line], name) ==
            if Last(Commands(line), name).Some? then Last(Commands(line), name) else Final(lines, name)
  {
    assert (lines + [line])[..|lines|] == lines;
  }

  lemma SameEntry(line: string, entries: seq<Entry>, e: Entry)
    requires Wanted(entries) && e in entries && Sets(line, entries).Some? && Sets(line, entries).value.name == e.name
    ensures Sets(line, entries) == Some(e)
  {
    WrittenSets(line, entries);
    if Sets(line, entries).value != e {
      WantedDiffer(entries, e, Sets(line, entries).value);
    }
  }

  lemma {:induction false} NamesStep(before: seq<string>, line: string, entries: seq<Entry>, e: Entry)
    requires Wanted(entries) && e in entries
    ensures e.name in SetNames(before + [line], entries) <==>
            Sets(line, entries) == Some(e) || e.name in SetNames(before, entries)
  {
    assert (before + [line])[..|before|] == before;
    if Sets(line, entries).Some? && Sets(line, entries).value.name == e.name {
      SameEntry(line, entries, e);
    }
  }

  lemma {:induction false} TailStep(before: seq<string>, line: string, entries: seq<Entry>, e: Entry)
    ensures Tail(before + [line], entries, e) ==
            if Sets(line, entries) == Some(e) then [] else Tail(before, entries, e) + [line]
  {
    assert (before + [line])[..|before|] == before;
  }

  lemma {:induction false} WrittenStep(before: seq<string>, line: string, entries: seq<Entry>)
    ensures WrittenAll(before + [line], entries) == WrittenAll(before, entries) + [Written(line, entries)]
  {
    assert (before + [line])[..|before|] == before;
  }

  /** The value e's variable has after the kept and rewritten lines ran. */
  function Expected(lines: seq<string>, entries: seq<Entry>, e: Entry): Option<string> {
    var later := Final(Tail(lines, entries, e), Lower(e.name));
    if later.Some? then later
    else if e.name in SetNames(lines, entries) then Some(Clean(e.value))
    else None
  }

  lemma ExpectedStep(before: seq<string>, line: string, entries: seq<Entry>, e: Entry)
    requires Wanted(entries) && e in entries
    ensures Expected(before + [line], entries, e) ==
            if Sets(line, entries) == Some(e) then Some(Clean(e.value))
            else if Last(Commands(line), Lower(e.name)).Some? then Last(Commands(line), Lower(e.name))
            else Expected(before, entries, e)
  {
    NamesStep(before, line, entries, e);
    TailStep(before, line, entries, e);
    FinalLast(Tail(before, entries, e), line, Lower(e.name));
  }

  lemma {:induction false} WrittenAllStep(before: seq<string>, line: string, entries: seq<Entry>, e: Entry)
    requires Wanted(entries) && e in entries
    requires Final(WrittenAll(before, entries), Lower(e.name)) == Expected(before, entries, e)
    ensures Final(WrittenAll(before + [line], entries), Lower(e.name)) == Expected(before + [line], entries, e)
  {
    WrittenStep(before, line, entries);
    ExpectedStep(before, line, entries, e);
    WrittenExecutes(line, entries, e);
    FinalLast(WrittenAll(before, entries), Written(line, entries), Lower(e.name));
  }

  lemma {:induction false} WrittenAllExecute(lines: seq<string>, entries: seq<Entry>, e: Entry)
    requires Wanted(entries) && e in entries
    ensures Final(WrittenAll(lines, entries), Lower(e.name)) == Expected(lines, entries, e)
  {
    if lines != [] {
      var before, line := lines[..|lines| - 1], lines[|lines| - 1];
      assert lines == before + [line];
      WrittenAllExecute(before, entries, e);
      WrittenAllStep(before, line, entries, e);
    }
  }

  lemma AddedLineExecutes(f: Entry, entries: seq<Entry>, e: Entry)
    requires Wanted(entries) && e in entries && f in entries
    ensures Final([f.name + " " + Quote(f.value)], Lower(e.name)) == if f == e then Some(Clean(e.value)) else None
  {
    var line := f.name + " " + Quote(f.value);
    AddedSets(line, f, entries);
    SettingExecutes(line, f.name, f.value, "");
    LastOfOne(Commands(line), Lower(e.name));
    assert [line][..0] == [];
    if f != e {
      WantedDiffer(entries, e, f);
    }
  }

  lemma {:induction false} AddedExecute(missing: seq<Entry>, done: set<string>, entries: seq<Entry>, e: Entry)
    requires Wanted(entries) && e in entries && forall f :: f in missing ==> f in entries
    ensures Final(Added(missing, done), Lower(e.name)) ==
            if e in missing && e.name !in done then Some(Clean(e.value)) else None
  {
    if missing != [] {
      var f := missing[0];
      var rest := Added(missing[1..], done);
      AddedExecute(missing[1..], done, entries, e);
      if f.name in done {
        assert Added(missing, done) == rest;
      } else {
        AddedLineExecutes(f, entries, e);
        FinalConcat([f.name + " " + Quote(f.value)], rest, Lower(e.name));
      }
    }
  }

  /** The value e's variable has after the merged file ran. */
  lemma {:induction false} MergedExecutes(lines: seq<string>, entries: seq<Entry>, e: Entry)
    requires Wanted(entries) && e in entries
    ensures Final(Merged(lines, entries), Lower(e.name)) ==
            if e.name in SetNames(lines, entries) && Final(Tail(lines, entries, e), Lower(e.name)).Some?
            then Final(Tail(lines, entries, e), Lower(e.name))
            else Some(Clean(e.value))
  {
    var done := SetNames(lines, entries);
    FinalConcat(WrittenAll(lines, entries), Added(entries, done), Lower(e.name));
    WrittenAllExecute(lines, entries, e);
    AddedExecute(entries, done, entries, e);
  }

  /** A line that was left as it is, after the last one that was rewritten for e, gives e's variable another
      value: with a command among several, or with one whose name is in quotes or ends at a comment. */
  ghost predicate Overridden(lines: seq<string>, entries: seq<Entry>, e: Entry) {
    var later := Final(Tail(lines, entries, e), Lower(e.name));
    e.name in SetNames(lines, entries) && later.Some? && later.value != Clean(e.value)
  }

  /** Executing a merged file leaves a wanted variable at its wanted value exactly when the existing
      file does not override it that way. */
  lemma MergeWinsIff(existing: string, entries: seq<Entry>, e: Entry)
    requires Wanted(entries) && e in entries
    ensures Final(Lines(MergedText(existing, entries)), Lower(e.name)) == Some(Clean(e.value))
       <==> !Overridden(Lines(existing), entries, e)
  {
    var lines := Lines(existing);
    LinesProper(existing);
    MergedProper(lines, entries);
    LinesFromLines(Merged(lines, entries));
    MergedExecutes(lines, entries, e);
  }

  /** The same for a value the format can hold: the variable then has exactly that value. */
  lemma HoldableWinsIff(existing: string, entries: seq<Entry>, e: Entry)
    requires Wanted(entries) && e in entries && Holdable(e.value)
    ensures Final(Lines(MergedText(existing, entries)), Lower(e.name)) == Some(e.value)
       <==> !Overridden(Lines(existing), entries, e)
  {
    MergeWinsIff(existing, entries, e);
    CleanKeeps(e.value);
  }

  /** Into a file that sets no wanted name, the values come as they are. */
  lemma {:induction false} FirstMergeSets(existing: string, entries: seq<Entry>, e: Entry)
    requires Wanted(entries) && e in entries && Holdable(e.value)
    requires e.name !in SetNames(Lines(existing), entries)
    ensures Final(Lines(MergedText(existing, entries)), Lower(e.name)) == Some(e.value)
  {
    HoldableWinsIff(existing, entries, e);
  }

  // ---- which lines are rewritten ----

  /** A `;` that counts is what separates commands. */
  lemma {:induction false} SeparatorSplits(s: string, quoted: bool, piece: string)
    ensures HasSeparatorFrom(s, quoted) <==> |Pieces(s, quoted, piece)| > 1
  {
    if s != "" && !(s[0] != '"' && !quoted && Slashes(s)) && !(s[0] != '"' && !quoted && s[0] == ';') {
      SeparatorSplits(s[1..], if s[0] == '"' then !quoted else quoted, piece + [s[0]]);
    } else if s != "" && s[0] == ';' && !quoted {
      SomePiece(s[1..], false, "");
    }
  }

  lemma {:induction false} SomePiece(s: string, quoted: bool, piece: string)
    ensures |Pieces(s, quoted, piece)| >= 1
  {
    if s != "" && !(s[0] != '"' && !quoted && Slashes(s)) && !(s[0] != '"' && !quoted && s[0] == ';') {
      SomePiece(s[1..], if s[0] == '"' then !quoted else quoted, piece + [s[0]]);
    }
  }

  lemma PlainIsNoComment(t: string)
    requires Plain(Word(t))
    ensures t != "" && !Slashes(t)
  {
    if Slashes(t) {
      var w := Word(t);
      assert t[0] !in DELIMITERS && t[1] !in DELIMITERS;
      assert Until(t, DELIMITERS) == 1 + Until(t[1..], DELIMITERS);
      assert Until(t[1..], DELIMITERS) == 1 + Until(t[1..][1..], DELIMITERS);
      assert |w| > 1 && SlashesAt(w, 0);
    }
  }

  /** Exactly the lines with a single command are rewritten whose first word is the name, in any case. */
  lemma {:induction false} SetsIff(line: string, entries: seq<Entry>, e: Entry)
    requires Wanted(entries) && e in entries
    ensures
      var t := TrimSpace(line);
      Sets(line, entries) == Some(e) <==> |Pieces(t, false, "")| == 1 && Lower(Word(t)) == Lower(e.name)
  {
    var t := TrimSpace(line);
    SomePiece(t, false, "");
    if Lower(Word(t)) == Lower(e.name) {
      PlainLower(e.name, Word(t));
      PlainIsNoComment(t);
      FindUnique(entries, e, Word(t));
      PiecesOfWord(Word(t), Rest(t), "");
      assert t == Word(t) + Rest(t) && "" + Word(t) == Word(t);
      SeparatorSplits(Rest(t), false, Word(t));
    } else if Sets(line, entries) == Some(e) {
      SetsFound(line, entries);
      assert false;
    }
  }

  // ---- a line of several commands can win over the merge ----

  lemma {:induction false} PiecesThroughQuotes(v: string, tail: string, piece: string)
    requires '"' !in v
    ensures Pieces(v + "\"" + tail, true, piece) == Pieces(tail, false, piece + v + "\"")
  {
    var s := v + "\"" + tail;
    if v == "" {
      assert s[1..] == tail && piece + v == piece;
    } else {
      assert s[0] == v[0] && s[1..] == v[1..] + "\"" + tail;
      PiecesThroughQuotes(v[1..], tail, piece + [v[0]]);
      assert (piece + [v[0]]) + v[1..] == piece + v;
    }
  }

  /** What follows the name where a setting shares its line: its value and a `;`. */
  function SharedTail(v: string): string { " " + ("\"" + (v + "\"" + ";")) }

  lemma {:induction false} SharedTailParses(v: string, name: string)
    requires '"' !in v
    ensures SharedTail(v)[0] in DELIMITERS && SharedTail(v)[|SharedTail(v)| - 1] == ';'
    ensures HasSeparatorFrom(SharedTail(v), false)
    ensures Pieces(SharedTail(v), false, name) == [name + (" \"" + v + "\""), ""]
  {
    var quoted := "\"" + (v + "\"" + ";");
    var rest := " " + quoted;
    assert rest[1..] == quoted && quoted[1..] == v + "\"" + ";";
    ThroughQuotes(v, ";");
    PiecesThroughQuotes(v, ";", (name + [' ']) + ['"']);
    assert (name + [' ']) + ['"'] + v + "\"" == name + (" \"" + v + "\"");
    assert ";"[1..] == "";
    assert Pieces(";", false, name + (" \"" + v + "\"")) == [name + (" \"" + v + "\"")] + Pieces("", false, "");
  }

  lemma SharedLine(name: string, tail: string)
    requires Plain(name) && tail != "" && tail[0] in DELIMITERS && !IsSpace(tail[|tail| - 1])
    ensures TrimSpace(name + tail) == name + tail && Word(name + tail) == name && Rest(name + tail) == tail
  {
    PlainEnds(name);
    assert (name + tail)[0] == name[0] && (name + tail)[|name + tail| - 1] == tail[|tail| - 1];
    Trimmed(name + tail);
    WordBefore(name, tail);
  }

  lemma TwoPieces(a: string, b: string)
    ensures CommandsOf([a, b]) == CommandOf(a) + CommandOf(b)
  {
    assert [a, b][1..] == [b];
    OneCommand(b);
  }

  lemma {:induction false} SharedPieces(name: string, v: string)
    requires Plain(name) && '"' !in v
    ensures Pieces(name + SharedTail(v), false, "") == [name + (" \"" + v + "\""), ""]
  {
    SharedTailParses(v, name);
    PiecesOfWord(name, SharedTail(v), "");
    assert "" + name == name;
  }

  lemma QuotedCommand(name: string, v: string)
    requires Plain(name) && '"' !in v
    ensures CommandOf(name + (" \"" + v + "\"")) == [Command(Lower(name), v)]
  {
    var piece := name + (" \"" + v + "\"");
    assert piece + "" == piece;
    CommandOfQuoted(name, v, " \"" + v + "\"", "");
  }

  lemma SharedTrimmed(name: string, v: string)
    requires Plain(name) && '"' !in v
    ensures TrimSpace(name + SharedTail(v)) == name + SharedTail(v)
    ensures Word(name + SharedTail(v)) == name && Rest(name + SharedTail(v)) == SharedTail(v)
  {
    SharedTailParses(v, name);
    SharedLine(name, SharedTail(v));
  }

  lemma {:induction false} CommandsOfTwo(line: string, piece: string, command: Command)
    requires TrimSpace(line) == line && Pieces(line, false, "") == [piece, ""] && CommandOf(piece) == [command]
    ensures Commands(line) == [command]
  {
    TwoPieces(piece, "");
  }

  lemma SharedCommands(name: string, v: string)
    requires Plain(name) && '"' !in v
    ensures Commands(name + SharedTail(v)) == [Command(Lower(name), v)]
  {
    SharedPieces(name, v);
    SharedTrimmed(name, v);
    QuotedCommand(name, v);
    CommandsOfTwo(name + SharedTail(v), name + (" \"" + v + "\""), Command(Lower(name), v));
  }

  lemma SharedIsLeft(name: string, v: string, entries: seq<Entry>)
    requires Plain(name) && '"' !in v
    ensures Sets(name + SharedTail(v), entries) == None
  {
    SharedTailParses(v, name);
    SharedLine(name, SharedTail(v));
  }

  lemma {:induction false} TailOfOne(line: string, entries: seq<Entry>, e: Entry)
    requires Wanted(entries) && e in entries && Sets(line, entries) == Some(e)
    ensures Tail([line], entries, e) == [] && e.name in SetNames([line], entries)
  {
    TailStep([], line, entries, e);
    NamesStep([], line, entries, e);
    assert [] + [line] == [line];
  }

  lemma {:induction false} TailOfTwo(first: string, second: string, entries: seq<Entry>, e: Entry)
    requires Wanted(entries) && e in entries && Sets(first, entries) == Some(e) && Sets(second, entries) == None
    ensures Tail([first, second], entries, e) == [second] && e.name in SetNames([first, second], entries)
  {
    TailOfOne(first, entries, e);
    TailStep([first], second, entries, e);
    NamesStep([first], second, entries, e);
    assert [first] + [second] == [first, second] && [] + [second] == [second];
  }

  /** With a variable set on a line of its own and then again on a line of several commands, the
      first line takes the wanted value and the second one wins when the file is executed. */
  lemma LaterCommandWins(entries: seq<Entry>, e: Entry, first: string, v: string)
    requires Wanted(entries) && e in entries && '"' !in v && Sets(first, entries) == Some(e)
    ensures Final(Merged([first, e.name + SharedTail(v)], entries), Lower(e.name)) == Some(v)
  {
    var second := e.name + SharedTail(v);
    SharedIsLeft(e.name, v, entries);
    SharedCommands(e.name, v);
    LeftLineWins(entries, e, first, second, v);
  }

  // ---- so can a line with the name in quotes ----

  /** What follows a quoted name: its value in quotes. */
  function QuotedTail(v: string): string { " " + ("\"" + (v + "\"")) }

  function QuotedName(name: string, v: string): string { "\"" + (name + "\"" + QuotedTail(v)) }

  lemma {:induction false} QuotedTailPieces(v: string, piece: string)
    requires '"' !in v
    ensures Pieces(QuotedTail(v), false, piece) == [piece + QuotedTail(v)]
  {
    var quoted := "\"" + (v + "\"");
    assert QuotedTail(v)[1..] == quoted && quoted[1..] == v + "\"" + "";
    PiecesThroughQuotes(v, "", (piece + [' ']) + ['"']);
    assert (piece + [' ']) + ['"'] + v + "\"" == piece + QuotedTail(v);
  }

  lemma {:induction false} QuotedNamePieces(name: string, v: string)
    requires '"' !in name && '"' !in v
    ensures Pieces(QuotedName(name, v), false, "") == [QuotedName(name, v)]
  {
    var line := QuotedName(name, v);
    assert line[1..] == name + "\"" + QuotedTail(v);
    PiecesThroughQuotes(name, QuotedTail(v), "" + ['"']);
    QuotedTailPieces(v, "" + ['"'] + name + "\"");
    assert "" + ['"'] + name + "\"" + QuotedTail(v) == line;
  }

  lemma QuotedNameTrimmed(name: string, v: string)
    ensures TrimSpace(QuotedName(name, v)) == QuotedName(name, v) && QuotedName(name, v)[0] == '"'
  {
    var line := QuotedName(name, v);
    assert line[|line| - 1] == '"';
    Trimmed(line);
  }

  lemma InQuotesIs(name: string, tail: string)
    requires '"' !in name
    ensures InQuotes(name + "\"" + tail) == name && AfterQuotes(name + "\"" + tail) == tail
  {
    var s := name + "\"" + tail;
    assert s == name + ("\"" + tail);
    UntilAt(name, "\"" + tail, "\"");
    assert s[..|name|] == name && s[|name| + 1..] == tail;
  }

  lemma QuotedNameCommands(name: string, v: string)
    requires '"' !in name && '"' !in v
    ensures Commands(QuotedName(name, v)) == [Command(Lower(name), v)]
  {
    var line := QuotedName(name, v);
    QuotedNameTrimmed(name, v);
    QuotedNamePieces(name, v);
    OneCommand(line);
    assert line[1..] == name + "\"" + QuotedTail(v);
    InQuotesIs(name, QuotedTail(v));
    QuotedValue(v, "\"" + (v + "\""));
  }

  lemma {:induction false} NoEmptyName(entries: seq<Entry>)
    requires forall e :: e in entries ==> e.name != ""
    ensures Find(entries, "") == None
  {
    if entries != [] {
      NoEmptyName(entries[1..]);
      assert entries[0] in entries && |Lower(entries[0].name)| > 0;
    }
  }

  lemma QuotedNameIsLeft(name: string, v: string, entries: seq<Entry>)
    requires Wanted(entries)
    ensures Sets(QuotedName(name, v), entries) == None
  {
    QuotedNameTrimmed(name, v);
    assert Word(QuotedName(name, v)) == "";
    NoEmptyName(entries);
  }

  /** With a variable set on a line of its own and then again on a line with its name in quotes, the merge
      does not see the second one, which wins when the file is executed. */
  lemma QuotedNameWins(entries: seq<Entry>, e: Entry, first: string, v: string)
    requires Wanted(entries) && e in entries && '"' !in v && Sets(first, entries) == Some(e)
    ensures Final(Merged([first, QuotedName(e.name, v)], entries), Lower(e.name)) == Some(v)
  {
    var second := QuotedName(e.name, v);
    QuotedNameIsLeft(e.name, v, entries);
    QuotedNameCommands(e.name, v);
    LeftLineWins(entries, e, first, second, v);
  }

  lemma {:induction false} LeftLineWins(entries: seq<Entry>, e: Entry, first: string, second: string, v: string)
    requires Wanted(entries) && e in entries && Sets(first, entries) == Some(e) && Sets(second, entries) == None
    requires Commands(second) == [Command(Lower(e.name), v)]
    ensures Final(Merged([first, second], entries), Lower(e.name)) == Some(v)
  {
    TailOfTwo(first, second, entries, e);
    LastOfOne(Commands(second), Lower(e.name));
    FinalLast([], second, Lower(e.name));
    assert [] + [second] == [second];
    MergedExecutes([first, second], entries, e);
  }

  /** Such a file exists: the comment over MergeSourceCfg, that a value set there is added again at
      the end, does not hold once a line of its own sets it too. */
  lemma LineOfItsOwn(e: Entry, entries: seq<Entry>, w: string)
    requires Wanted(entries) && e in entries
    ensures Sets(e.name + " " + Quote(w), entries) == Some(e)
  {
    var line := e.name + " " + Quote(w);
    assert line == line + Spaced("");
    SettingParses(line, e.name, w, "");
    FindUnique(entries, e, e.name);
  }
}
