/** An instance's console log: appended, rotated, and read back from its end in chunks
    (agent/internal/instances/console.go). A character stands for a byte. */
module Console {
  import opened Common
  import opened Text

  type Int64 = x: int | -0x8000_0000_0000_0000 <= x < 0x8000_0000_0000_0000

  datatype ConsoleLine = ConsoleLine(at: Int64, text: string)

  const LOG_MAX_BYTES := 10 * 0x10_0000
  const LOG_KEEP := 3
  const CHUNK := 64 * 1024

  // ---- one line ----

  function DigitChar(d: nat): char
    requires d < 10
  {
    ('0' as int + d) as char
  }

  predicate IsDigit(c: char) { '0' <= c <= '9' }

  function Digits(n: nat): (s: string)
    ensures s != ""
  {
    if n < 10 then [DigitChar(n)] else Digits(n / 10) + [DigitChar(n % 10)]
  }

  function FormatInt(n: int): string { if n < 0 then "-" + Digits(-n) else Digits(n) }

  function ParseDigits(s: string): Option<nat> {
    if s == "" || !IsDigit(s[|s| - 1]) then None
    else
      var d := s[|s| - 1] as int - '0' as int;
      if |s| == 1 then Some(d)
      else
        match ParseDigits(s[..|s| - 1])
        case None => None
        case Some(n) => Some(10 * n + d)
  }

  /** strconv.ParseInt in base 10 for 64 bits. */
  function ParseInt(s: string): Option<Int64> {
    var negative := s != "" && s[0] == '-';
    var digits := if negative || (s != "" && s[0] == '+') then s[1..] else s;
    match ParseDigits(digits)
    case None => None
    case Some(n) =>
      var m: int := n;
      var v := if negative then -m else m;
      if -0x8000_0000_0000_0000 <= v < 0x8000_0000_0000_0000 then Some(v) else None
  }

  /** A line without the line break that ends it. */
  function Raw(l: ConsoleLine): string { FormatInt(l.at) + " " + l.text }

  function ParseLine(s: string): ConsoleLine {
    var i := Until(s, " ");
    if i == |s| then ConsoleLine(0, s)
    else
      match ParseInt(s[..i])
      case Some(at) => ConsoleLine(at, s[i + 1..])
      case None => ConsoleLine(0, s)
  }

  lemma {:induction false} DigitsParse(n: nat)
    ensures ParseDigits(Digits(n)) == Some(n) && forall c :: c in Digits(n) ==> IsDigit(c)
  {
    if n < 10 {
      assert Digits(n) == [DigitChar(n)];
    } else {
      DigitsParse(n / 10);
      var s := Digits(n);
      assert s[..|s| - 1] == Digits(n / 10) && s[|s| - 1] == DigitChar(n % 10);
    }
  }

  lemma {:induction false} DigitsUnsigned(n: nat)
    ensures Digits(n)[0] != '-' && Digits(n)[0] != '+'
  {
    DigitsParse(n);
    assert Digits(n)[0] in Digits(n);
  }

  lemma {:induction false} NegativeParses(n: Int64)
    requires n < 0
    ensures ParseInt("-" + Digits(-(n as int))) == Some(n)
  {
    var m: int := n;
    DigitsParse(-m);
    assert ("-" + Digits(-m))[1..] == Digits(-m);
  }

  lemma {:induction false} IntParses(n: Int64)
    ensures ParseInt(FormatInt(n)) == Some(n)
  {
    if n < 0 {
      NegativeParses(n);
    } else {
      DigitsParse(n);
      DigitsUnsigned(n);
    }
  }

  lemma IntIsPlain(n: int)
    ensures forall c :: c in FormatInt(n) ==> IsDigit(c) || c == '-'
  {
    DigitsParse(if n < 0 then -n else n);
  }

  /** Reading a line back restores its time and its text, whatever the text holds. */
  lemma {:induction false} LineRoundTrip(l: ConsoleLine)
    ensures ParseLine(Raw(l)) == l
  {
    IntParses(l.at);
    IntIsPlain(l.at);
    var ts, rest := FormatInt(l.at), " " + l.text;
    assert Raw(l) == ts + rest;
    UntilAt(ts, rest, " ");
    assert Raw(l)[..|ts|] == ts && Raw(l)[|ts| + 1..] == l.text;
  }

  /** What comes before the first space of a line, if it has one. */
  ghost predicate Stamped(s: string, ts: string, text: string) { ' ' !in ts && s == ts + " " + text }

  /** Of any line of a file: the number before its first space is its time; a line without one is all text. */
  lemma ParseKeepsText(s: string, ts: string, text: string)
    ensures Stamped(s, ts, text) ==>
              ParseLine(s) == if ParseInt(ts).Some? then ConsoleLine(ParseInt(ts).value, text) else ConsoleLine(0, s)
    ensures ' ' !in s ==> ParseLine(s) == ConsoleLine(0, s)
  {
    if Stamped(s, ts, text) {
      UntilAt(ts, " " + text, " ");
      assert s == ts + (" " + text);
    }
  }

  // ---- the last lines of a file ----

  function LastOf<T>(s: seq<T>, n: nat): seq<T> { if |s| <= n then s else s[|s| - n..] }

  /** Pieces between line breaks, without the empty one after the last break. */
  function DropEmptyTail(pieces: seq<string>): seq<string> {
    if pieces != [] && pieces[|pieces| - 1] == "" then pieces[..|pieces| - 1] else pieces
  }

  function AllLines(file: string): seq<string> { if file == "" then [] else DropEmptyTail(Split(file, '\n')) }

  /** The pieces of two texts put together: the last of the first goes on in the first of the second. */
  function Meet(x: seq<string>, y: seq<string>): seq<string>
    requires x != [] && y != []
  {
    x[..|x| - 1] + [x[|x| - 1] + y[0]] + y[1..]
  }

  function Grow(ch: char, x: seq<string>): seq<string>
    requires x != []
  {
    [[ch] + x[0]] + x[1..]
  }

  lemma MeetAfter(p: string, x: seq<string>, y: seq<string>)
    requires x != [] && y != []
    ensures Meet([p] + x, y) == [p] + Meet(x, y)
  {
    assert ([p] + x)[..|x|] == [p] + x[..|x| - 1];
  }

  lemma MeetGrown(ch: char, x: seq<string>, y: seq<string>)
    requires x != [] && y != []
    ensures Meet(Grow(ch, x), y) == Grow(ch, Meet(x, y))
  {
    if |x| == 1 {
      assert [ch] + (x[0] + y[0]) == ([ch] + x[0]) + y[0];
      assert Meet(x, y) == [x[0] + y[0]] + y[1..];
      assert Meet(Grow(ch, x), y) == [([ch] + x[0]) + y[0]] + y[1..];
    } else {
      assert Grow(ch, x)[..|x| - 1] == Grow(ch, x[..|x| - 1]);
      assert Meet(x, y)[1..] == x[1..][..|x| - 2] + [x[|x| - 1] + y[0]] + y[1..];
    }
  }

  lemma {:induction false} SplitConcat(a: string, b: string, c: char)
    ensures Split(a + b, c) == Meet(Split(a, c), Split(b, c))
  {
    var y := Split(b, c);
    if a == "" {
      assert a + b == b;
      assert "" + y[0] == y[0] && [""][..0] == [];
      assert Meet([""], y) == [y[0]] + y[1..] == y;
    } else {
      var x := Split(a[1..], c);
      SplitConcat(a[1..], b, c);
      assert (a + b)[1..] == a[1..] + b;
      MeetAfter("", x, y);
      MeetGrown(a[0], x, y);
    }
  }

  lemma SplitSuffix(file: string, pos: nat) returns (k: nat)
    requires pos <= |file|
    ensures k + |Split(file[pos..], '\n')| == |Split(file, '\n')| + 1 && k >= 1
    ensures Split(file, '\n')[k..] == Split(file[pos..], '\n')[1..]
  {
    SplitConcat(file[..pos], file[pos..], '\n');
    assert file[..pos] + file[pos..] == file;
    k := |Split(file[..pos], '\n')|;
  }

  lemma SuffixHasLast(pieces: seq<string>, k: nat, n: nat)
    requires k <= |pieces| && |pieces[k..]| > n
    ensures LastOf(DropEmptyTail(pieces[k..]), n) == LastOf(DropEmptyTail(pieces), n)
  {
    assert pieces[k..][|pieces| - k - 1] == pieces[|pieces| - 1];
    var whole, part := DropEmptyTail(pieces), DropEmptyTail(pieces[k..]);
    assert whole[k..] == part;
    assert whole[|whole| - n..] == part[|part| - n..];
  }

  lemma EnoughRead(file: string, pos: nat, n: nat)
    requires pos <= |file| && |Split(file[pos..], '\n')[1..]| > n
    ensures file != "" && LastOf(DropEmptyTail(Split(file[pos..], '\n')[1..]), n) == LastOf(AllLines(file), n)
  {
    var k := SplitSuffix(file, pos);
    SuffixHasLast(Split(file, '\n'), k, n);
  }

  /** The pieces a backward read has after it reached pos; one that a chunk cuts is left out until the
      next chunk completes it. */
  function PiecesFrom(file: string, pos: nat): seq<string>
    requires pos <= |file|
  {
    if pos == |file| then [] else if pos > 0 then Split(file[pos..], '\n')[1..] else Split(file, '\n')
  }

  lemma ReadIsEnough(file: string, pos: nat, n: nat)
    requires pos <= |file| && (pos == 0 || |PiecesFrom(file, pos)| > n)
    ensures LastOf(DropEmptyTail(PiecesFrom(file, pos)), n) == LastOf(AllLines(file), n)
  {
    if 0 < pos < |file| {
      EnoughRead(file, pos, n);
    }
  }

  lemma Joined(file: string, pos: nat, end: nat)
    requires pos <= end <= |file|
    ensures file[pos..end] + file[end..] == file[pos..] && file[0..] == file
  {
  }

  /** Reads chunks from the end until more than n pieces, or the whole file, are there. */
  method ReadBack(file: string, n: nat, chunk: nat) returns (lines: seq<string>, ghost pos: nat)
    requires chunk > 0
    ensures pos <= |file| && (pos == 0 || |lines| > n) && lines == PiecesFrom(file, pos)
  {
    var at := |file|;
    var buf := "";
    lines := [];
    while at > 0 && |lines| <= n
      invariant 0 <= at <= |file| && buf == file[at..] && lines == PiecesFrom(file, at)
    {
      var size := if at < chunk then at else chunk;
      Joined(file, at - size, at);
      buf := file[at - size..at] + buf;
      at := at - size;
      lines := Split(buf, '\n');
      if at > 0 {
        lines := lines[1..];
      }
    }
    pos := at;
  }

  method LastLines(pieces: seq<string>, n: nat) returns (lines: seq<string>)
    ensures lines == LastOf(DropEmptyTail(pieces), n)
  {
    lines := pieces;
    if lines != [] && lines[|lines| - 1] == "" {
      lines := lines[..|lines| - 1];
    }
    if |lines| > n {
      lines := lines[|lines| - n..];
    }
  }

  method TailOne(file: string, n: nat, chunk: nat) returns (lines: seq<string>)
    requires chunk > 0
    ensures lines == LastOf(AllLines(file), n)
  {
    var pieces, pos := ReadBack(file, n, chunk);
    ReadIsEnough(file, pos, n);
    lines := LastLines(pieces, n);
  }

  // ---- writing and rotating ----

  /** The files of a log: the current one, then its rotations .1, .2 and .3. */
  type Disk = d: seq<Option<string>> | |d| == LOG_KEEP + 1 witness [None, None, None, None]

  function Rename(disk: Disk, from: nat, to: nat): Disk
    requires from <= LOG_KEEP && to <= LOG_KEEP
  {
    if disk[from].Some? then disk[to := disk[from]][from := None] else disk
  }

  function Rotated(disk: Disk): Disk { [Some("")] + disk[..LOG_KEEP] }

  /** Lines as a file holds them. */
  function Glued(lines: seq<string>): string {
    if lines == [] then "" else lines[0] + "\n" + Glued(lines[1..])
  }

  function WrittenTo(disk: Disk, text: string): Disk
    requires disk[0].Some?
  {
    var d := if |disk[0].value| + |text| > LOG_MAX_BYTES then Rotated(disk) else disk;
    d[0 := Some(d[0].value + text)]
  }

  function Opened(existing: Disk): (disk: Disk)
    ensures disk[0].Some?
  {
    if existing[0].Some? then existing else existing[0 := Some("")]
  }

  class ConsoleLog {
    var disk: Disk
    var size: nat

    ghost predicate Valid()
      reads this
    {
      disk[0].Some? && size == |disk[0].value|
    }

    /** Opens the log, whose current file is made if there is none. */
    constructor (existing: Disk)
      ensures Valid() && disk == Opened(existing)
    {
      disk := if existing[0].Some? then existing else existing[0 := Some("")];
      size := if existing[0].Some? then |existing[0].value| else 0;
    }

    method Write(batch: seq<ConsoleLine>)
      requires Valid()
      modifies this
      ensures Valid() && disk == WrittenTo(old(disk), Glued(Raws(batch)))
    {
      var buf := "";
      for i := 0 to |batch|
        invariant Valid() && disk == old(disk) && buf == Glued(Raws(batch[..i]))
      {
        assert batch[..i + 1][..i] == batch[..i];
        GluedAppend(Raws(batch[..i]), Raw(batch[i]));
        buf := buf + Raw(batch[i]) + "\n";
      }
      assert batch[..|batch|] == batch;
      if size + |buf| > LOG_MAX_BYTES {
        Rotate();
      }
      disk := disk[0 := Some(disk[0].value + buf)];
      size := size + |buf|;
    }

    method Rotate()
      requires Valid()
      modifies this
      ensures Valid() && disk == Rotated(old(disk))
    {
      disk := disk[LOG_KEEP := None];
      var i := LOG_KEEP - 1;
      while i >= 1
        invariant 0 <= i <= 2
        invariant disk == old(disk)[..i + 1] + [None] + old(disk)[i + 1..LOG_KEEP]
      {
        ghost var before := disk;
        disk := Rename(disk, i, i + 1);
        assert disk == before[..i] + [None, before[i]] + before[i + 2..];
        i := i - 1;
      }
      disk := Rename(disk, 0, 1);
      disk := disk[0 := Some("")];
      size := 0;
    }
  }

  // ---- reading a log ----

  /** The last lines of the current file, and of its first rotation when those are not enough. */
  function TailLines(disk: Disk, n: nat): seq<string>
    requires disk[0].Some?
  {
    var lines := LastOf(AllLines(disk[0].value), n);
    (if |lines| < n && disk[1].Some? then LastOf(AllLines(disk[1].value), n - |lines|) else []) + lines
  }

  function Map<T, U>(f: T -> U, s: seq<T>): (r: seq<U>)
    ensures |r| == |s|
  {
    if s == [] then [] else Map(f, s[..|s| - 1]) + [f(s[|s| - 1])]
  }

  function Parsed(lines: seq<string>): seq<ConsoleLine> { Map(ParseLine, lines) }

  method ParseAll(lines: seq<string>) returns (out: seq<ConsoleLine>)
    ensures out == Parsed(lines)
  {
    out := [];
    for i := 0 to |lines|
      invariant out == Parsed(lines[..i])
    {
      assert lines[..i + 1][..i] == lines[..i];
      out := out + [ParseLine(lines[i])];
    }
    assert lines[..|lines|] == lines;
  }

  method TailFile(disk: Disk, n: nat) returns (r: Option<seq<ConsoleLine>>)
    ensures r == if disk[0].Some? then Some(Parsed(TailLines(disk, n))) else None
  {
    if disk[0].None? {
      return None;
    }
    var lines := TailOne(disk[0].value, n, CHUNK);
    var older: seq<string> := [];
    if |lines| < n && disk[1].Some? {
      older := TailOne(disk[1].value, n - |lines|, CHUNK);
    }
    var out := ParseAll(older + lines);
    return Some(out);
  }

  // ---- what is read is what was written ----

  lemma {:induction false} GluedConcat(a: seq<string>, b: seq<string>)
    ensures Glued(a + b) == Glued(a) + Glued(b)
  {
    if a == [] {
      assert a + b == b;
    } else {
      GluedConcat(a[1..], b);
      assert (a + b)[1..] == a[1..] + b;
    }
  }

  lemma {:induction false} GluedAppend(a: seq<string>, line: string)
    ensures Glued(a + [line]) == Glued(a) + line + "\n"
  {
    GluedConcat(a, [line]);
    assert [line][1..] == [];
    assert Glued([line]) == line + "\n";
  }

  lemma {:induction false} SplitGlued(lines: seq<string>)
    requires AllFree(lines, '\n')
    ensures Split(Glued(lines), '\n') == lines + [""]
  {
    if lines != [] {
      assert AllFree(lines[1..], '\n');
      SplitGlued(lines[1..]);
      SplitFirst(lines[0], Glued(lines[1..]), '\n');
      assert lines == [lines[0]] + lines[1..];
    }
  }

  lemma {:induction false} AllLinesGlued(lines: seq<string>)
    requires AllFree(lines, '\n')
    ensures AllLines(Glued(lines)) == lines
  {
    SplitGlued(lines);
    assert (lines + [""])[..|lines|] == lines;
  }

  /** A log with the lines its files hold: current, and previous in the first rotation. */
  datatype Held = Held(disk: Disk, current: seq<string>, previous: seq<string>)

  function Write(h: Held, batch: seq<string>): Held
    requires h.disk[0].Some?
  {
    var rotates := |h.disk[0].value| + |Glued(batch)| > LOG_MAX_BYTES;
    Held(WrittenTo(h.disk, Glued(batch)), if rotates then batch else h.current + batch,
         if rotates then h.current else h.previous)
  }

  ghost predicate Holds(h: Held) {
    && h.disk[0] == Some(Glued(h.current))
    && (if h.disk[1].Some? then h.disk[1].value == Glued(h.previous) else h.previous == [])
    && AllFree(h.current, '\n') && AllFree(h.previous, '\n')
  }

  lemma WriteHolds(h: Held, batch: seq<string>)
    requires Holds(h) && AllFree(batch, '\n')
    ensures Holds(Write(h, batch))
  {
    GluedConcat(h.current, batch);
    assert "" + Glued(batch) == Glued(batch);
  }

  /** What a run of the agent does to a log: it opens it and writes to it. */
  datatype Event = Open | Wrote(batch: seq<string>)

  function Next(h: Held, event: Event): (n: Held)
    requires h.disk[0].Some?
    ensures n.disk[0].Some?
  {
    match event
    case Open => h.(disk := Opened(h.disk))
    case Wrote(batch) => Write(h, batch)
  }

  /** The log after these events, from one that was there before or has just been made. */
  function After(start: Held, events: seq<Event>): (h: Held)
    ensures h.disk[0].Some?
  {
    if events == [] then start.(disk := Opened(start.disk))
    else Next(After(start, events[..|events| - 1]), events[|events| - 1])
  }

  function Batches(events: seq<Event>): seq<seq<string>> {
    if events == [] then []
    else
      var event := events[|events| - 1];
      Batches(events[..|events| - 1]) + if event.Wrote? then [event.batch] else []
  }

  /** A disk as a log leaves it: whole lines, and no current file only when it has none. */
  ghost predicate Left(h: Held) {
    && (if h.disk[0].Some? then h.disk[0].value == Glued(h.current) else h.current == [])
    && (if h.disk[1].Some? then h.disk[1].value == Glued(h.previous) else h.previous == [])
    && AllFree(h.current, '\n') && AllFree(h.previous, '\n')
  }

  lemma OpenHolds(h: Held)
    requires Left(h)
    ensures Holds(h.(disk := Opened(h.disk)))
  {
  }

  ghost predicate EndsWith<T>(all: seq<T>, end: seq<T>) {
    |end| <= |all| && all[|all| - |end|..] == end
  }

  lemma EndGrows<T>(all: seq<T>, a: seq<T>, b: seq<T>, more: seq<T>)
    requires EndsWith(all, a + b)
    ensures EndsWith(all + more, a + (b + more)) && EndsWith(all + more, b + more)
  {
    var n := |all| - |a + b|;
    assert all[n..] == a + b;
    assert (all + more)[n..] == all[n..] + more == a + (b + more);
    assert (all + more)[n + |a|..] == b + more;
  }

  ghost predicate AllWhole(events: seq<Event>) {
    forall i :: 0 <= i < |events| && events[i].Wrote? ==> AllFree(events[i].batch, '\n')
  }

  lemma {:induction false} BatchesMore(events: seq<Event>, event: Event)
    ensures Flat(Batches(events + [event])) == Flat(Batches(events)) + if event.Wrote? then event.batch else []
  {
    assert (events + [event])[..|events|] == events;
    if event.Wrote? {
      var batches := Batches(events);
      assert (batches + [event.batch])[..|batches|] == batches;
    } else {
      assert Batches(events) + [] == Batches(events);
    }
  }

  lemma EventHolds(h: Held, event: Event, all: seq<string>)
    requires Holds(h) && EndsWith(all, h.previous + h.current) && (event.Wrote? ==> AllFree(event.batch, '\n'))
    ensures
      var n := Next(h, event);
      Holds(n) && EndsWith(all + (if event.Wrote? then event.batch else []), n.previous + n.current)
  {
    if event.Wrote? {
      WriteHolds(h, event.batch);
      EndGrows(all, h.previous, h.current, event.batch);
    } else {
      assert all + [] == all;
    }
  }

  /** All lines ever in the log. */
  function Ever(start: Held, events: seq<Event>): seq<string> {
    start.previous + start.current + Flat(Batches(events))
  }

  lemma Regroup<T>(a: seq<T>, b: seq<T>, c: seq<T>)
    ensures a + (b + c) == (a + b) + c
  {
  }

  lemma {:induction false} EverMore(start: Held, events: seq<Event>, event: Event)
    ensures Ever(start, events + [event]) == Ever(start, events) + if event.Wrote? then event.batch else []
  {
    var batch := if event.Wrote? then event.batch else [];
    BatchesMore(events, event);
    Regroup(start.previous + start.current, Flat(Batches(events)), batch);
  }

  lemma {:induction false} AfterMore(start: Held, events: seq<Event>, event: Event)
    ensures After(start, events + [event]) == Next(After(start, events), event)
  {
    assert (events + [event])[..|events|] == events;
  }

  lemma {:induction false} NothingYet(start: Held)
    requires Left(start)
    ensures Holds(After(start, []))
    ensures EndsWith(Ever(start, []), After(start, []).previous + After(start, []).current)
  {
    OpenHolds(start);
    assert start.previous + start.current + [] == start.previous + start.current;
  }

  lemma {:induction false} RunHolds(start: Held, events: seq<Event>)
    requires Left(start) && AllWhole(events)
    ensures
      var h := After(start, events);
      Holds(h) && EndsWith(Ever(start, events), h.previous + h.current)
  {
    if events == [] {
      NothingYet(start);
    } else {
      var before, event := events[..|events| - 1], events[|events| - 1];
      assert events == before + [event];
      assert forall i :: 0 <= i < |before| ==> before[i] == events[i];
      RunHolds(start, before);
      EventHolds(After(start, before), event, Ever(start, before));
      EverMore(start, before, event);
      AfterMore(start, before, event);
    }
  }

  lemma LastOfBoth<T>(older: seq<T>, newer: seq<T>, n: nat)
    ensures
      var lines := LastOf(newer, n);
      (if |lines| < n then LastOf(older, n - |lines|) else []) + lines == LastOf(older + newer, n)
  {
  }

  lemma TailOfHeld(h: Held, n: nat)
    requires Holds(h)
    ensures TailLines(h.disk, n) == LastOf(h.previous + h.current, n)
  {
    AllLinesGlued(h.current);
    AllLinesGlued(h.previous);
    LastOfBoth(h.previous, h.current, n);
  }

  lemma LastOfEnd<T>(all: seq<T>, end: seq<T>, n: nat)
    requires EndsWith(all, end)
    ensures LastOf(end, n) == LastOf(all, Fewer(n, |end|))
  {
  }

  function Fewer(n: nat, held: nat): nat { if n < held then n else held }

  lemma TailOfEnd(h: Held, all: seq<string>, n: nat)
    requires Holds(h) && EndsWith(all, h.previous + h.current)
    ensures TailLines(h.disk, n) == LastOf(all, Fewer(n, |h.previous| + |h.current|))
  {
    TailOfHeld(h, n);
    LastOfEnd(all, h.previous + h.current, n);
  }

  /** After any writes, rotations and reopenings, of a new log or of one that held lines before, the lines
      read back are the last ones written: as many as were asked for, or all that the current file and its
      first rotation hold. */
  lemma {:induction false} LinesAreLastWritten(start: Held, events: seq<Event>, n: nat, h: Held)
    requires Left(start) && AllWhole(events) && h == After(start, events)
    ensures Holds(h)
    ensures TailLines(h.disk, n) == LastOf(Ever(start, events), Fewer(n, |h.previous| + |h.current|))
  {
    RunHolds(start, events);
    TailOfEnd(h, Ever(start, events), n);
  }

  // ---- with the times and the texts ----

  /** Text of one line: the reader of a container's output splits it at line breaks. */
  ghost predicate OneLine(l: ConsoleLine) { '\n' !in l.text }

  ghost predicate AllOneLine(lines: seq<ConsoleLine>) { forall i :: 0 <= i < |lines| ==> OneLine(lines[i]) }

  function Raws(lines: seq<ConsoleLine>): seq<string> { Map(Raw, lines) }

  lemma {:induction false} RawIsOneLine(l: ConsoleLine)
    requires OneLine(l)
    ensures '\n' !in Raw(l)
  {
    IntIsPlain(l.at);
  }

  lemma {:induction false} MapAt<T, U>(f: T -> U, s: seq<T>, i: nat)
    requires i < |s|
    ensures Map(f, s)[i] == f(s[i])
  {
    if i < |s| - 1 {
      MapAt(f, s[..|s| - 1], i);
    }
  }

  lemma {:induction false} MapConcat<T, U>(f: T -> U, a: seq<T>, b: seq<T>)
    ensures Map(f, a + b) == Map(f, a) + Map(f, b)
  {
    if b == [] {
      assert a + b == a;
    } else {
      MapConcat(f, a, b[..|b| - 1]);
      assert (a + b)[..|a + b| - 1] == a + b[..|b| - 1];
    }
  }

  lemma {:induction false} MapLast<T, U>(f: T -> U, s: seq<T>, n: nat)
    ensures LastOf(Map(f, s), n) == Map(f, LastOf(s, n))
  {
    if |s| > n {
      var k := |s| - n;
      assert s == s[..k] + s[k..];
      MapConcat(f, s[..k], s[k..]);
    }
  }

  lemma {:induction false} MapInverse<T, U>(f: T -> U, g: U -> T, s: seq<T>)
    requires forall i :: 0 <= i < |s| ==> g(f(s[i])) == s[i]
    ensures Map(g, Map(f, s)) == s
  {
    if s != [] {
      MapInverse(f, g, s[..|s| - 1]);
      assert Map(f, s)[..|s| - 1] == Map(f, s[..|s| - 1]);
    }
  }

  lemma RawsFree(lines: seq<ConsoleLine>)
    requires AllOneLine(lines)
    ensures AllFree(Raws(lines), '\n')
  {
    forall i | 0 <= i < |lines| ensures '\n' !in Raws(lines)[i] {
      MapAt(Raw, lines, i);
      assert OneLine(lines[i]);
      RawIsOneLine(lines[i]);
    }
  }

  /** The same with times and texts: what is opened, and written as batches of console lines. */
  datatype LineEvent = OpenLog | WroteLines(batch: seq<ConsoleLine>)

  function RawEvent(event: LineEvent): Event { if event.OpenLog? then Open else Wrote(Raws(event.batch)) }

  function RawEvents(events: seq<LineEvent>): seq<Event> { Map(RawEvent, events) }

  function LinesOf(events: seq<LineEvent>): seq<ConsoleLine> {
    if events == [] then []
    else
      var event := events[|events| - 1];
      LinesOf(events[..|events| - 1]) + if event.WroteLines? then event.batch else []
  }

  ghost predicate AllLineEvents(events: seq<LineEvent>) {
    forall i :: 0 <= i < |events| && events[i].WroteLines? ==> AllOneLine(events[i].batch)
  }

  lemma {:induction false} RawEventsWhole(events: seq<LineEvent>)
    requires AllLineEvents(events)
    ensures AllWhole(RawEvents(events))
  {
    forall i | 0 <= i < |events| && RawEvents(events)[i].Wrote? ensures AllFree(RawEvents(events)[i].batch, '\n') {
      MapAt(RawEvent, events, i);
      RawsFree(events[i].batch);
    }
  }

  lemma {:induction false} RawsOfEvents(events: seq<LineEvent>)
    ensures Flat(Batches(RawEvents(events))) == Raws(LinesOf(events))
  {
    if events != [] {
      var before, event := events[..|events| - 1], events[|events| - 1];
      RawsOfEvents(before);
      BatchesMore(RawEvents(before), RawEvent(event));
      MapConcat(Raw, LinesOf(before), if event.WroteLines? then event.batch else []);
    }
  }

  lemma {:induction false} ParsedRaws(lines: seq<ConsoleLine>)
    ensures Parsed(Raws(lines)) == lines
  {
    forall i | 0 <= i < |lines| ensures ParseLine(Raw(lines[i])) == lines[i] {
      LineRoundTrip(lines[i]);
    }
    MapInverse(Raw, ParseLine, lines);
  }

  lemma {:induction false} ParsedLast(raws: seq<string>, lines: seq<ConsoleLine>, k: nat)
    requires raws == LastOf(Raws(lines), k)
    ensures Parsed(raws) == LastOf(lines, k)
  {
    MapLast(Raw, lines, k);
    ParsedRaws(LastOf(lines, k));
  }

  /** The tail of a log is the last lines ever written to it, before it was opened or since, with their
      times and texts restored. */
  lemma {:induction false} TailIsLastWritten(disk: Disk, previous: seq<ConsoleLine>, current: seq<ConsoleLine>,
                                             events: seq<LineEvent>, n: nat, h: Held)
    requires Left(Held(disk, Raws(current), Raws(previous))) && AllLineEvents(events)
    requires h == After(Held(disk, Raws(current), Raws(previous)), RawEvents(events))
    ensures Holds(h)
    ensures Parsed(TailLines(h.disk, n)) ==
            LastOf(previous + current + LinesOf(events), Fewer(n, |h.previous| + |h.current|))
  {
    var start := Held(disk, Raws(current), Raws(previous));
    RawEventsWhole(events);
    LinesAreLastWritten(start, RawEvents(events), n, h);
    RawsOfEvents(events);
    MapConcat(Raw, previous, current);
    MapConcat(Raw, previous + current, LinesOf(events));
    ParsedLast(TailLines(h.disk, n), previous + current + LinesOf(events), Fewer(n, |h.previous| + |h.current|));
  }

  // ---- what the files of a log hold ----

  function TextOf(file: Option<string>): string { if file.Some? then file.value else "" }

  /** The text of all files of a log, the oldest first. */
  function AllText(disk: Disk): string {
    TextOf(disk[3]) + TextOf(disk[2]) + TextOf(disk[1]) + TextOf(disk[0])
  }

  /** No file of a log is longer than that. */
  ghost predicate Within(disk: Disk, longest: nat) {
    forall i :: 0 <= i < |disk| ==> |TextOf(disk[i])| <= longest
  }

  lemma Longer(disk: Disk, a: nat, b: nat)
    requires Within(disk, a) && a <= b
    ensures Within(disk, b)
  {
  }

  /** No file gets longer than the limit, unless a single batch is. */
  lemma WriteStaysWithin(disk: Disk, text: string, longest: nat)
    requires disk[0].Some? && Within(disk, longest) && LOG_MAX_BYTES <= longest && |text| <= longest
    ensures Within(WrittenTo(disk, text), longest)
  {
    if |disk[0].value| + |text| > LOG_MAX_BYTES {
      var r := Rotated(disk);
      forall i | 0 <= i < |r| ensures |TextOf(r[i])| <= longest {
        assert i > 0 ==> r[i] == disk[i - 1];
      }
      assert "" + text == text;
    }
  }

  /** Writing drops a text only when the current file cannot take the batch within the limit; then it drops
      only the oldest file's. */
  lemma WriteDropsOldest(disk: Disk, text: string)
    requires disk[0].Some?
    ensures
      if |disk[0].value| + |text| <= 10 * 1024 * 1024
      then AllText(WrittenTo(disk, text)) == AllText(disk) + text
      else TextOf(disk[3]) + AllText(WrittenTo(disk, text)) == AllText(disk) + text
  {
    var n := WrittenTo(disk, text);
    var t3, t2, t1, t0 := TextOf(disk[3]), TextOf(disk[2]), TextOf(disk[1]), TextOf(disk[0]);
    if |t0| + |text| > LOG_MAX_BYTES {
      assert n[1] == disk[0] && n[2] == disk[1] && n[3] == disk[2];
      assert "" + text == text;
      ShiftedText(t3, t2, t1, t0, text);
    } else {
      Regroup(t3 + t2 + t1, t0, text);
    }
  }

  lemma ShiftedText(t3: string, t2: string, t1: string, t0: string, text: string)
    ensures t3 + (t2 + t1 + t0 + text) == t3 + t2 + t1 + t0 + text
  {
  }

  lemma {:induction false} OpenedText(disk: Disk)
    ensures AllText(Opened(disk)) == AllText(disk)
  {
  }

  ghost predicate Suffix(all: string, end: string) { exists dropped :: dropped + end == all }

  lemma SuffixGrows(all: string, before: string, gone: string, text: string, after: string)
    requires Suffix(all, before) && gone + after == before + text
    ensures Suffix(all + text, after)
  {
    var dropped :| dropped + before == all;
    assert (dropped + gone) + after == dropped + (gone + after);
    assert dropped + (before + text) == (dropped + before) + text;
  }

  lemma TextGrows(all: string, disk: Disk, text: string)
    requires disk[0].Some? && Suffix(all, AllText(disk))
    ensures Suffix(all + text, AllText(WrittenTo(disk, text)))
  {
    WriteDropsOldest(disk, text);
    var after := AllText(WrittenTo(disk, text));
    if |disk[0].value| + |text| <= LOG_MAX_BYTES {
      assert "" + after == AllText(disk) + text;
      SuffixGrows(all, AllText(disk), "", text, after);
    } else {
      SuffixGrows(all, AllText(disk), TextOf(disk[3]), text, after);
    }
  }

  /** All text that was ever in a log. */
  function EverText(disk: Disk, events: seq<Event>): string { AllText(disk) + Glued(Flat(Batches(events))) }

  lemma {:induction false} EverTextMore(disk: Disk, events: seq<Event>, event: Event)
    ensures
      EverText(disk, events + [event]) == EverText(disk, events) + if event.Wrote? then Glued(event.batch) else ""
  {
    BatchesMore(events, event);
    var batch := if event.Wrote? then event.batch else [];
    GluedConcat(Flat(Batches(events)), batch);
    Regroup(AllText(disk), Glued(Flat(Batches(events))), Glued(batch));
  }

  lemma EventTextGrows(all: string, h: Held, event: Event, longest: nat)
    requires h.disk[0].Some? && Suffix(all, AllText(h.disk)) && Within(h.disk, longest) && LOG_MAX_BYTES <= longest
    requires event.Wrote? ==> |Glued(event.batch)| <= longest
    ensures Suffix(all + (if event.Wrote? then Glued(event.batch) else ""), AllText(Next(h, event).disk))
    ensures Within(Next(h, event).disk, longest)
  {
    if event.Wrote? {
      WriteStaysWithin(h.disk, Glued(event.batch), longest);
      TextGrows(all, h.disk, Glued(event.batch));
    } else {
      OpenedText(h.disk);
      assert all + "" == all;
    }
  }

  /** In every run the files, put together, are the end of all the text that was ever in the log: nothing is
      missing in between, and none is longer than the limit unless a single batch or a file found at first is. */
  lemma {:induction false} FilesAreTheEnd(start: Held, events: seq<Event>, longest: nat)
    requires Within(start.disk, longest) && LOG_MAX_BYTES <= longest
    requires forall i :: 0 <= i < |events| && events[i].Wrote? ==> |Glued(events[i].batch)| <= longest
    ensures Suffix(EverText(start.disk, events), AllText(After(start, events).disk))
    ensures Within(After(start, events).disk, longest)
  {
    if events == [] {
      OpenedText(start.disk);
      assert "" + AllText(start.disk) == EverText(start.disk, []);
    } else {
      var before, event := events[..|events| - 1], events[|events| - 1];
      assert events == before + [event];
      assert forall i :: 0 <= i < |before| ==> before[i] == events[i];
      FilesAreTheEnd(start, before, longest);
      EventTextGrows(EverText(start.disk, before), After(start, before), event, longest);
      EverTextMore(start.disk, before, event);
      AfterMore(start, before, event);
    }
  }
}
