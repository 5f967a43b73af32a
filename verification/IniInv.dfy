/** What each step of an INI merge keeps: what was written so far has every wanted value wherever it
    sets a wanted key, its other lines are those that were read, and the set of written wants says
    which ones it sets. First the lines of the file, then the end of each section, then the sections
    that are added at the end of the file. */
module IniInv {
  import opened Common
  import opened Text
  import opened Ini

  // ---- what each step keeps ----

  /** A line for a want in the current section changes nothing else. */
  lemma {:induction false} Put(out: seq<string>, w: Want, wants: seq<Want>)
    requires Wanted(wants) && w in wants && w.section == Section(out) && Good(out, wants)
    ensures
      var longer := out + [Line(w)];
      && Section(longer) == Section(out) && Good(longer, wants) && Visited(longer) == Visited(out)
      && Others(longer, wants) == Others(out, wants)
  {
    TargetIs(w, wants);
    LineReads(w);
    Appended(out, Line(w), wants);
  }

  lemma {:induction false} PutCounts(out: seq<string>, w: Want, v: Want, wants: seq<Want>)
    requires Wanted(wants) && w in wants && v in wants && w.section == Section(out)
    ensures Count(out + [Line(w)], v, wants) == Count(out, v, wants) + if v == w then 1 else 0
  {
    TargetIs(w, wants);
    AppendedCount(out, Line(w), v, wants);
  }

  ghost predicate Counted(st: State, lines: seq<string>, w: Want, wants: seq<Want>) {
    && (Id(w) in st.done <==> Set(st.out, w, wants))
    && Count(lines, w, wants) <= Count(st.out, w, wants) <= Count(lines, w, wants) + 1
  }

  /** What the merge keeps: lines are the lines it has read, and others and visited say which lines
      that set no wanted key it has written and which sections those are in. */
  ghost predicate Inv(st: State, lines: seq<string>, others: seq<string>, visited: set<string>, wants: seq<Want>) {
    && Section(st.out) == st.section && Good(st.out, wants)
    && Others(st.out, wants) == others && Visited(st.out) == visited
    && forall w :: w in wants ==> Counted(st, lines, w, wants)
  }

  lemma AddCounts(st: State, lines: seq<string>, w: Want, v: Want, wants: seq<Want>)
    requires Wanted(wants) && w in wants && v in wants && w.section == Section(st.out)
    requires Counted(st, lines, w, wants) && Counted(st, lines, v, wants) && Id(w) !in st.done
    ensures Counted(st.(out := st.out + [Line(w)], done := st.done + {Id(w)}), lines, v, wants)
  {
    PutCounts(st.out, w, v, wants);
    if Id(v) == Id(w) {
      IdNamesKey(wants, v, w);
    }
  }

  lemma AddKeeps(st: State, lines: seq<string>, others: seq<string>, visited: set<string>, w: Want, wants: seq<Want>)
    requires Wanted(wants) && w in wants && Inv(st, lines, others, visited, wants)
    ensures Inv(Add(st, w), lines, others, visited, wants)
    ensures Add(st, w).section == st.section && st.done <= Add(st, w).done
    ensures w.section == st.section ==> Id(w) in Add(st, w).done
  {
    var r := Add(st, w);
    if r != st {
      Put(st.out, w, wants);
      forall v | v in wants ensures Counted(r, lines, v, wants) {
        AddCounts(st, lines, w, v, wants);
      }
    }
  }

  ghost predicate Among(first: seq<Want>, wants: seq<Want>) {
    forall i :: 0 <= i < |first| ==> first[i] in wants
  }

  ghost predicate AllDone(first: seq<Want>, st: State) {
    forall i :: 0 <= i < |first| ==> IsDone(first[i], st)
  }

  ghost predicate IsDone(w: Want, st: State) { w.section == st.section ==> Id(w) in st.done }

  lemma AllDoneStep(before: seq<Want>, w: Want, st: State, r: State)
    requires AllDone(before, st) && st.section == r.section && st.done <= r.done && IsDone(w, r)
    ensures AllDone(before + [w], r)
  {
    forall i | 0 <= i < |before| + 1 ensures IsDone((before + [w])[i], r) {
      assert i < |before| ==> IsDone(before[i], st);
    }
  }

  lemma FlushStep(mid: State, lines: seq<string>, others: seq<string>, visited: set<string>,
                  before: seq<Want>, w: Want, wants: seq<Want>)
    requires Wanted(wants) && Inv(mid, lines, others, visited, wants) && AllDone(before, mid) && w in wants
    ensures
      var r := Add(mid, w);
      Inv(r, lines, others, visited, wants) && r.section == mid.section && AllDone(before + [w], r)
  {
    AddKeeps(mid, lines, others, visited, w, wants);
    AllDoneStep(before, w, mid, Add(mid, w));
  }

  lemma {:induction false} FlushAdds(st: State, before: seq<Want>, w: Want)
    ensures Flush(st, before + [w]) == Add(Flush(st, before), w)
  {
    assert (before + [w])[..|before|] == before;
  }

  lemma {:induction false} FlushKeeps(st: State, lines: seq<string>, others: seq<string>, visited: set<string>,
                                      first: seq<Want>, wants: seq<Want>)
    requires Wanted(wants) && Inv(st, lines, others, visited, wants) && Among(first, wants)
    ensures
      var r := Flush(st, first);
      && Inv(r, lines, others, visited, wants) && r.section == st.section && AllDone(first, r)
  {
    if first != [] {
      var before, w := first[..|first| - 1], first[|first| - 1];
      assert first == before + [w] && Among(before, wants);
      FlushKeeps(st, lines, others, visited, before, wants);
      FlushStep(Flush(st, before), lines, others, visited, before, w, wants);
      FlushAdds(st, before, w);
    }
  }

  lemma {:induction false} FlushCompletes(st: State, lines: seq<string>, others: seq<string>, visited: set<string>,
                                          wants: seq<Want>)
    requires Wanted(wants) && Inv(st, lines, others, visited, wants)
    ensures var r := Flush(st, wants);
            Inv(r, lines, others, visited, wants) && Complete(r.out, wants) && r.section == st.section
  {
    FlushKeeps(st, lines, others, visited, wants, wants);
    var r := Flush(st, wants);
    forall w | w in wants && w.section == Section(r.out) ensures Set(r.out, w, wants) {
      assert IsDone(w, r) && Counted(r, lines, w, wants);
    }
  }

  /** A line that sets no wanted key is written as it is; read says whether the file had it. */
  lemma {:induction false} CopyKeeps(st: State, lines: seq<string>, others: seq<string>, visited: set<string>,
                  line: string, read: bool, wants: seq<Want>)
    requires Inv(st, lines, others, visited, wants) && Target(line, st.section, wants).None?
    requires read ==> Target(line, Section(lines), wants).None?
    requires KindOf(line).Header? ==> Complete(st.out, wants)
    ensures
      var kind := KindOf(line);
      var r := st.(out := st.out + [line], section := if kind.Header? then kind.section else st.section);
      Inv(r, if read then lines + [line] else lines, others + [line],
          visited + if kind.Header? then {kind.section} else {}, wants)
  {
    var kind := KindOf(line);
    var r := st.(out := st.out + [line], section := if kind.Header? then kind.section else st.section);
    Appended(st.out, line, wants);
    forall w | w in wants ensures Counted(r, if read then lines + [line] else lines, w, wants) {
      assert Counted(st, lines, w, wants);
      AppendedCount(st.out, line, w, wants);
      AppendedCount(lines, line, w, wants);
    }
  }

  /** What happens to one want when a line that sets w is replaced by the line of w. */
  lemma {:induction false} ReplaceCounts(st: State, lines: seq<string>, line: string, w: Want, v: Want,
                                         wants: seq<Want>)
    requires Wanted(wants) && w in wants && v in wants && Counted(st, lines, v, wants)
    requires Target(line, Section(lines), wants) == Some(w) && w.section == Section(st.out)
    ensures Counted(st.(out := st.out + [Line(w)], done := st.done + {Id(w)}), lines + [line], v, wants)
  {
    PutCounts(st.out, w, v, wants);
    AppendedCount(lines, line, v, wants);
    if Id(v) == Id(w) {
      IdNamesKey(wants, v, w);
    }
  }

  lemma {:induction false} ReplaceKeeps(st: State, lines: seq<string>, line: string, w: Want, wants: seq<Want>)
    requires Wanted(wants) && Inv(st, lines, Others(lines, wants), Visited(lines), wants)
    requires Section(lines) == st.section && Target(line, st.section, wants) == Some(w)
    ensures
      var r := st.(out := st.out + [Line(w)], done := st.done + {Id(w)});
      Inv(r, lines + [line], Others(lines + [line], wants), Visited(lines + [line]), wants)
  {
    TargetFacts(line, st.section, wants);
    Put(st.out, w, wants);
    KeepsReading(lines, line, w, wants);
    forall v | v in wants
      ensures Counted(st.(out := st.out + [Line(w)], done := st.done + {Id(w)}), lines + [line], v, wants)
    {
      ReplaceCounts(st, lines, line, w, v, wants);
    }
  }

  /** A line that sets a wanted key is neither a header nor one of the others. */
  lemma {:induction false} KeepsReading(lines: seq<string>, line: string, w: Want, wants: seq<Want>)
    requires Target(line, Section(lines), wants) == Some(w)
    ensures Others(lines + [line], wants) == Others(lines, wants) && Visited(lines + [line]) == Visited(lines)
  {
    TargetFacts(line, Section(lines), wants);
    Appended(lines, line, wants);
  }

  lemma {:induction false} StepKeeps(st: State, lines: seq<string>, line: string, wants: seq<Want>)
    requires Wanted(wants) && Inv(st, lines, Others(lines, wants), Visited(lines), wants)
    requires Section(lines) == st.section
    ensures
      var r := Step(st, line, wants);
      && Inv(r, lines + [line], Others(lines + [line], wants), Visited(lines + [line]), wants)
      && Section(lines + [line]) == r.section
  {
    Appended(lines, line, wants);
    var others, visited := Others(lines, wants), Visited(lines);
    if KindOf(line).Header? {
      FlushCompletes(st, lines, others, visited, wants);
      CopyKeeps(Flush(st, wants), lines, others, visited, line, true, wants);
    } else if Target(line, st.section, wants).None? {
      CopyKeeps(st, lines, others, visited, line, true, wants);
    } else {
      var w := Target(line, st.section, wants).value;
      ReplaceKeeps(st, lines, line, w, wants);
    }
  }

  lemma {:induction false} StepsKeep(lines: seq<string>, wants: seq<Want>)
    requires Wanted(wants)
    ensures Inv(Steps(lines, wants), lines, Others(lines, wants), Visited(lines), wants)
    ensures Section(lines) == Steps(lines, wants).section
  {
    if lines == [] {
      forall w | w in wants ensures Counted(Steps(lines, wants), lines, w, wants) {
      }
    } else {
      var before, line := lines[..|lines| - 1], lines[|lines| - 1];
      assert lines == before + [line];
      StepsKeep(before, wants);
      StepKeeps(Steps(before, wants), before, line, wants);
    }
  }

  // ---- the sections added at the end ----

  /** The sections of the wants that are not visited, each once, in the order of the wants. */
  function NewSections(first: seq<Want>, visited: set<string>): seq<string> {
    if first == [] then []
    else
      var before, section := NewSections(first[..|first| - 1], visited), first[|first| - 1].section;
      if section in visited || section in before then before else before + [section]
  }

  function Headers(sections: seq<string>): (lines: seq<string>)
    ensures |lines| == |sections| && forall i :: 0 <= i < |sections| ==> lines[i] == HeaderLine(sections[i])
  {
    seq(|sections|, i requires 0 <= i < |sections| => HeaderLine(sections[i]))
  }

  function SetOf(sections: seq<string>): set<string> { set s | s in sections }

  lemma {:induction false} LeftIsSet(lines: seq<string>, w: Want, wants: seq<Want>)
    requires Good(lines, wants) && w in wants && w.section in Visited(lines) && w.section != Section(lines)
    ensures Set(lines, w, wants)
  {
    if lines != [] {
      var before := lines[..|lines| - 1];
      if w.section != Section(before) {
        LeftIsSet(before, w, wants);
      } else {
        assert Complete(before, wants);
        assert Set(before, w, wants);
      }
    }
  }

  lemma {:induction false} SetIsVisited(lines: seq<string>, w: Want, wants: seq<Want>)
    ensures Section(lines) in Visited(lines)
    ensures Set(lines, w, wants) ==> w.section in Visited(lines)
  {
    if lines != [] {
      var before := lines[..|lines| - 1];
      SetIsVisited(before, w, wants);
      TargetFacts(lines[|lines| - 1], Section(before), wants);
    }
  }

  ghost predicate DoneIfSeen(st: State, seen: set<string>, wants: seq<Want>) {
    forall w :: w in wants ==> (Id(w) in st.done <==> w.section in seen)
  }

  lemma CompleteIsSeen(st: State, lines: seq<string>, others: seq<string>, visited: set<string>, wants: seq<Want>)
    requires Inv(st, lines, others, visited, wants) && Complete(st.out, wants)
    ensures DoneIfSeen(st, visited, wants)
  {
    forall w | w in wants ensures Id(w) in st.done <==> w.section in visited {
      assert Counted(st, lines, w, wants);
      SetIsVisited(st.out, w, wants);
      if w.section in visited && w.section != Section(st.out) {
        LeftIsSet(st.out, w, wants);
      }
    }
  }

  ghost predicate Appendable(a: Appending, lines: seq<string>, sections: seq<string>, wants: seq<Want>) {
    && a.seen == Visited(lines) + SetOf(sections)
    && Inv(a.st, lines, Others(lines, wants) + Headers(sections), a.seen, wants)
    && Complete(a.st.out, wants) && DoneIfSeen(a.st, a.seen, wants)
  }

  lemma HeadersAppend(sections: seq<string>, section: string)
    ensures Headers(sections + [section]) == Headers(sections) + [HeaderLine(section)]
    ensures SetOf(sections + [section]) == SetOf(sections) + {section}
  {
  }

  lemma {:induction false} OpenSection(a: Appending, lines: seq<string>, sections: seq<string>, w: Want,
                                       wants: seq<Want>)
    requires Wanted(wants) && w in wants && Appendable(a, lines, sections, wants)
    ensures
      var entered := a.st.(out := a.st.out + [HeaderLine(w.section)], section := w.section);
      Inv(entered, lines, Others(lines, wants) + Headers(sections + [w.section]), a.seen + {w.section}, wants)
  {
    HeaderReads(w.section);
    CopyKeeps(a.st, lines, Others(lines, wants) + Headers(sections), a.seen, HeaderLine(w.section), false, wants);
    HeadersAppend(sections, w.section);
    assert Others(lines, wants) + Headers(sections) + [HeaderLine(w.section)]
        == Others(lines, wants) + Headers(sections + [w.section]);
  }

  lemma AppendStepKeeps(a: Appending, lines: seq<string>, sections: seq<string>, w: Want, wants: seq<Want>)
    requires Wanted(wants) && w in wants && Appendable(a, lines, sections, wants)
    ensures Appendable(AppendStep(a, w, wants), lines,
                       if w.section in a.seen then sections else sections + [w.section], wants)
  {
    if w.section !in a.seen {
      OpenSection(a, lines, sections, w, wants);
      var entered := a.st.(out := a.st.out + [HeaderLine(w.section)], section := w.section);
      var longer := sections + [w.section];
      FlushCompletes(entered, lines, Others(lines, wants) + Headers(longer), a.seen + {w.section}, wants);
      CompleteIsSeen(Flush(entered, wants), lines, Others(lines, wants) + Headers(longer), a.seen + {w.section}, wants);
      HeadersAppend(sections, w.section);
    }
  }

  ghost predicate AllSeen(first: seq<Want>, seen: set<string>) {
    forall i :: 0 <= i < |first| ==> first[i].section in seen
  }

  lemma {:induction false} NewSectionsStep(before: seq<Want>, w: Want, visited: set<string>)
    ensures
      var sections := NewSections(before, visited);
      NewSections(before + [w], visited) ==
        if w.section in visited + SetOf(sections) then sections else sections + [w.section]
  {
    assert (before + [w])[..|before|] == before;
  }

  lemma {:induction false} AppendStepsStep(a: Appending, before: seq<Want>, w: Want, wants: seq<Want>)
    ensures AppendSteps(a, before + [w], wants) == AppendStep(AppendSteps(a, before, wants), w, wants)
  {
    assert (before + [w])[..|before|] == before;
  }

  lemma {:induction false} AppendStepsKeep(a: Appending, lines: seq<string>, first: seq<Want>, wants: seq<Want>)
    requires Wanted(wants) && Appendable(a, lines, [], wants) && Among(first, wants)
    ensures
      var r := AppendSteps(a, first, wants);
      Appendable(r, lines, NewSections(first, Visited(lines)), wants) && AllSeen(first, r.seen)
  {
    if first != [] {
      var before, w := first[..|first| - 1], first[|first| - 1];
      assert first == before + [w];
      AppendStepsKeep(a, lines, before, wants);
      NewSectionsStep(before, w, Visited(lines));
      AppendStepsStep(a, before, w, wants);
      var b := AppendSteps(a, before, wants);
      AppendStepKeeps(b, lines, NewSections(before, Visited(lines)), w, wants);
      SeenGrows(b, w, wants);
      AllSeenGrows(before, w, b.seen, AppendStep(b, w, wants).seen);
    }
  }

  lemma AllSeenGrows(before: seq<Want>, w: Want, seen: set<string>, more: set<string>)
    requires AllSeen(before, seen) && seen <= more && w.section in more
    ensures AllSeen(before + [w], more)
  {
  }

  lemma SeenGrows(a: Appending, w: Want, wants: seq<Want>)
    requires w in wants && DoneIfSeen(a.st, a.seen, wants)
    ensures a.seen <= AppendStep(a, w, wants).seen && w.section in AppendStep(a, w, wants).seen
  {
  }

  lemma ReadyToAppend(lines: seq<string>, wants: seq<Want>)
    requires Wanted(wants)
    ensures
      var st := BeforeAppending(lines, wants);
      Appendable(Appending(st, Visited(st.out)), lines, [], wants)
  {
    var st := BeforeAppending(lines, wants);
    StepsKeep(lines, wants);
    FlushCompletes(Steps(lines, wants), lines, Others(lines, wants), Visited(lines), wants);
    CompleteIsSeen(st, lines, Others(lines, wants), Visited(lines), wants);
    assert Others(lines, wants) + Headers([]) == Others(lines, wants);
  }
}
