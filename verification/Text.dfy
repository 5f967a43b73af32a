/** Splitting, joining and trimming text, as Go's strings package does it on code points. */
module Text {
  function Split(s: string, c: char): (parts: seq<string>)
    ensures |parts| >= 1
  {
    if s == [] then [""]
    else if s[0] == c then [""] + Split(s[1..], c)
    else
      var rest := Split(s[1..], c);
      [[s[0]] + rest[0]] + rest[1..]
  }

  function Join(parts: seq<string>, c: char): string {
    if parts == [] then "" else if |parts| == 1 then parts[0] else parts[0] + [c] + Join(parts[1..], c)
  }

  ghost predicate AllFree(parts: seq<string>, c: char) {
    forall i :: 0 <= i < |parts| ==> c !in parts[i]
  }

  lemma {:induction false} JoinSplit(s: string, c: char)
    ensures Join(Split(s, c), c) == s
  {
    if s != [] {
      JoinSplit(s[1..], c);
      var rest := Split(s[1..], c);
      if s[0] == c {
        assert ([""] + rest)[1..] == rest;
      } else {
        var parts := [[s[0]] + rest[0]] + rest[1..];
        assert parts[1..] == rest[1..];
      }
    }
  }

  lemma {:induction false} SplitFree(s: string, c: char)
    ensures AllFree(Split(s, c), c)
  {
    if s != [] {
      SplitFree(s[1..], c);
    }
  }

  lemma {:induction false} SplitOne(s: string, c: char)
    requires c !in s
    ensures Split(s, c) == [s]
  {
    if s != [] {
      SplitOne(s[1..], c);
      assert [s[0]] + s[1..] == s;
    }
  }

  lemma {:induction false} SplitFirst(s: string, t: string, c: char)
    requires c !in s
    ensures Split(s + [c] + t, c) == [s] + Split(t, c)
  {
    var all := s + [c] + t;
    if s == [] {
      assert all[1..] == t;
    } else {
      SplitFirst(s[1..], t, c);
      assert all[1..] == s[1..] + [c] + t;
      assert [s[0]] + s[1..] == s;
    }
  }

  lemma {:induction false} SplitJoin(parts: seq<string>, c: char)
    requires parts != [] && AllFree(parts, c)
    ensures Split(Join(parts, c), c) == parts
  {
    if |parts| == 1 {
      SplitOne(parts[0], c);
    } else {
      SplitJoin(parts[1..], c);
      SplitFirst(parts[0], Join(parts[1..], c), c);
    }
  }

  // ---- white space ----

  predicate IsSpace(c: char) {
    || c == ' ' || '\t' <= c <= '\r' || c == '\U{85}' || c == '\U{A0}' || c == '\U{1680}'
    || '\U{2000}' <= c <= '\U{200A}' || c == '\U{2028}' || c == '\U{2029}' || c == '\U{202F}'
    || c == '\U{205F}' || c == '\U{3000}'
  }

  function TrimLeft(s: string): string {
    if s == "" || !IsSpace(s[0]) then s else TrimLeft(s[1..])
  }

  function TrimRight(s: string): string {
    if s == "" || !IsSpace(s[|s| - 1]) then s else TrimRight(s[..|s| - 1])
  }

  function TrimSpace(s: string): string { TrimRight(TrimLeft(s)) }

  lemma {:induction false} TrimLeftIs(s: string) returns (k: nat)
    ensures k <= |s| && TrimLeft(s) == s[k..] && (k < |s| ==> !IsSpace(s[k]))
  {
    if s == "" || !IsSpace(s[0]) {
      k := 0;
    } else {
      k := TrimLeftIs(s[1..]);
      k := k + 1;
    }
  }

  lemma {:induction false} TrimRightIs(s: string) returns (k: nat)
    ensures k <= |s| && TrimRight(s) == s[..k] && (k > 0 ==> !IsSpace(s[k - 1]))
  {
    if s == "" || !IsSpace(s[|s| - 1]) {
      k := |s|;
    } else {
      k := TrimRightIs(s[..|s| - 1]);
    }
  }

  lemma TrimSpaceIs(s: string)
    ensures var t := TrimSpace(s); t != "" ==> !IsSpace(t[0]) && !IsSpace(t[|t| - 1])
    ensures forall c :: c in TrimSpace(s) ==> c in s
  {
    var i := TrimLeftIs(s);
    var j := TrimRightIs(s[i..]);
  }

  lemma Trimmed(s: string)
    requires s != "" ==> !IsSpace(s[0]) && !IsSpace(s[|s| - 1])
    ensures TrimSpace(s) == s
  {
  }

  ghost predicate Blank(s: string) { forall i :: 0 <= i < |s| ==> IsSpace(s[i]) }

  lemma {:induction false} LeftBlanksGo(l: string, s: string)
    requires Blank(l) && (s != "" ==> !IsSpace(s[0]))
    ensures TrimLeft(l + s) == s
  {
    if l == "" {
      assert l + s == s;
    } else {
      LeftBlanksGo(l[1..], s);
      assert (l + s)[1..] == l[1..] + s;
    }
  }

  lemma {:induction false} RightBlanksGo(s: string, r: string)
    requires Blank(r) && (s != "" ==> !IsSpace(s[|s| - 1]))
    ensures TrimRight(s + r) == s
  {
    if r == "" {
      assert s + r == s;
    } else {
      RightBlanksGo(s, r[..|r| - 1]);
      assert (s + r)[..|s + r| - 1] == s + r[..|r| - 1];
    }
  }

  /** Trimming takes away exactly the blanks around a text that neither begins nor ends with one. */
  lemma Unpadded(l: string, s: string, r: string)
    requires Blank(l) && Blank(r) && (s != "" ==> !IsSpace(s[0]) && !IsSpace(s[|s| - 1]))
    ensures TrimSpace(l + s + r) == s
  {
    if s == "" {
      LeftBlanksGo(l + r, "");
      assert l + s + r == l + r + "";
    } else {
      LeftBlanksGo(l, s + r);
      assert l + s + r == l + (s + r);
      RightBlanksGo(s, r);
    }
  }

  lemma TrimKeepsFree(s: string, c: char)
    requires c !in s
    ensures c !in TrimSpace(s)
  {
    TrimSpaceIs(s);
  }

  // ---- lines of a file ----

  function DropNewlines(s: string): (r: string)
    ensures r == "" || r[|r| - 1] != '\n'
  {
    if s == "" || s[|s| - 1] != '\n' then s else DropNewlines(s[..|s| - 1])
  }

  /** The lines of a file, without the line breaks that end it. */
  function Lines(text: string): seq<string> {
    if text == "" then [] else Split(DropNewlines(text), '\n')
  }

  /** The lines of a file are its text up to the line breaks that end it. */
  lemma LinesAreText(text: string) returns (k: nat)
    requires text != ""
    ensures k <= |text| && Join(Lines(text), '\n') == text[..k] && (k > 0 ==> text[k - 1] != '\n')
    ensures forall i :: k <= i < |text| ==> text[i] == '\n'
  {
    k := DroppedIs(text);
    JoinSplit(DropNewlines(text), '\n');
  }

  lemma {:induction false} DroppedIs(s: string) returns (k: nat)
    ensures k <= |s| && DropNewlines(s) == s[..k] && (k > 0 ==> s[k - 1] != '\n')
    ensures forall i :: k <= i < |s| ==> s[i] == '\n'
  {
    if s == "" || s[|s| - 1] != '\n' {
      k := |s|;
    } else {
      k := DroppedIs(s[..|s| - 1]);
    }
  }

  function FromLines(lines: seq<string>): string { Join(lines, '\n') + "\n" }

  /** Lines a file can hold: none contains a line break, and only a single line may end it blank. */
  ghost predicate Proper(lines: seq<string>) {
    && AllFree(lines, '\n')
    && (|lines| > 1 ==> lines[|lines| - 1] != "")
  }

  lemma {:induction false} SplitLast(s: string, c: char)
    requires s != "" && s[|s| - 1] != c
    ensures Split(s, c)[|Split(s, c)| - 1] != ""
  {
    if |s| > 1 {
      SplitLast(s[1..], c);
    }
  }

  lemma LinesProper(text: string)
    ensures Proper(Lines(text))
  {
    if text != "" {
      var t := DropNewlines(text);
      SplitFree(t, '\n');
      if t != "" {
        SplitLast(t, '\n');
      }
    }
  }

  lemma {:induction false} JoinEnds(lines: seq<string>)
    requires lines != [] && lines[|lines| - 1] != ""
    ensures var s := Join(lines, '\n'); s != "" && s[|s| - 1] == lines[|lines| - 1][|lines[|lines| - 1]| - 1]
  {
    if |lines| > 1 {
      JoinEnds(lines[1..]);
    }
  }

  /** Reading back what was written gives the same lines; no lines at all read back as a blank one. */
  lemma LinesFromLines(lines: seq<string>)
    requires Proper(lines)
    ensures Lines(FromLines(lines)) == if lines == [] then [""] else lines
  {
    var s := Join(lines, '\n');
    var text := FromLines(lines);
    assert text[..|text| - 1] == s;
    if lines == [] || lines == [""] {
      assert DropNewlines(text) == "";
    } else {
      if |lines| == 1 {
        assert '\n' !in s;
      } else {
        JoinEnds(lines);
        assert lines[|lines| - 1][|lines[|lines| - 1]| - 1] in lines[|lines| - 1];
      }
      assert DropNewlines(text) == s;
      SplitJoin(lines, '\n');
    }
  }

  // ---- finding ----

  /** The length of the longest prefix without a character of stops. */
  function Until(s: string, stops: string): (n: nat)
    ensures n <= |s|
    ensures forall i :: 0 <= i < n ==> s[i] !in stops
    ensures n < |s| ==> s[n] in stops
  {
    if s == "" || s[0] in stops then 0 else 1 + Until(s[1..], stops)
  }

  lemma {:induction false} UntilAt(s: string, t: string, stops: string)
    requires forall c :: c in s ==> c !in stops
    requires t != "" ==> t[0] in stops
    ensures Until(s + t, stops) == |s|
  {
    if s == "" {
      assert s + t == t;
    } else {
      assert s[0] in s;
      assert (s + t)[1..] == s[1..] + t;
      UntilAt(s[1..], t, stops);
    }
  }
}
