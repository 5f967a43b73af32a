/** What a merged INI file is, and that merging again changes nothing. */
module IniMerge {
  import opened Common
  import opened Text
  import opened Ini
  import opened IniInv

  // ---- what a merged file is ----

  /** The wanted keys are set, each to its value wherever it is set, and every other line is kept, in
      its order, with headers of the missing sections at the end. */
  lemma {:induction false} MergeSets(lines: seq<string>, wants: seq<Want>)
    requires Wanted(wants)
    ensures
      var out := Merged(lines, wants);
      && Good(out, wants) && Complete(out, wants)
      && Others(out, wants) == Others(lines, wants) + Headers(NewSections(wants, Visited(lines)))
      && forall w :: w in wants ==>
           && Set(out, w, wants)
           && Count(lines, w, wants) <= Count(out, w, wants) <= Count(lines, w, wants) + 1
  {
    var st := BeforeAppending(lines, wants);
    ReadyToAppend(lines, wants);
    var a := Appending(st, Visited(st.out));
    AppendStepsKeep(a, lines, wants, wants);
    var r := AppendSteps(a, wants, wants);
    forall w | w in wants
      ensures Set(r.st.out, w, wants)
      ensures Count(lines, w, wants) <= Count(r.st.out, w, wants) <= Count(lines, w, wants) + 1
    {
      assert Counted(r.st, lines, w, wants);
    }
  }

  lemma {:induction false} GoodAt(lines: seq<string>, i: nat, wants: seq<Want>)
    requires Good(lines, wants) && i < |lines|
    ensures GoodLine(lines[..i], lines[i], wants)
  {
    if i < |lines| - 1 {
      GoodAt(lines[..|lines| - 1], i, wants);
      assert lines[..|lines| - 1][..i] == lines[..i];
    }
  }

  /** In a merged file, a line that sets a wanted key of its section sets the wanted value. */
  lemma EverySettingCarries(lines: seq<string>, i: nat, w: Want, wants: seq<Want>)
    requires Wanted(wants) && i < |Merged(lines, wants)|
    requires Target(Merged(lines, wants)[i], Section(Merged(lines, wants)[..i]), wants) == Some(w)
    ensures Merged(lines, wants)[i] == w.key + "=" + w.value
  {
    MergeSets(lines, wants);
    GoodAt(Merged(lines, wants), i, wants);
  }

  lemma {:induction false} SetSomewhere(lines: seq<string>, w: Want, wants: seq<Want>) returns (i: nat)
    requires Set(lines, w, wants)
    ensures i < |lines| && Target(lines[i], Section(lines[..i]), wants) == Some(w)
  {
    i := |lines| - 1;
    if Target(lines[i], Section(lines[..i]), wants) != Some(w) {
      var n := i;
      i := SetSomewhere(lines[..n], w, wants);
      assert lines[..n][..i] == lines[..i];
    }
  }

  /** Every wanted key is set in its section. */
  lemma SomeSettingCarries(lines: seq<string>, w: Want, wants: seq<Want>) returns (i: nat)
    requires Wanted(wants) && w in wants
    ensures i < |Merged(lines, wants)| && Section(Merged(lines, wants)[..i]) == w.section
    ensures Merged(lines, wants)[i] == w.key + "=" + w.value
  {
    MergeSets(lines, wants);
    i := SetSomewhere(Merged(lines, wants), w, wants);
    TargetFacts(Merged(lines, wants)[i], Section(Merged(lines, wants)[..i]), wants);
    EverySettingCarries(lines, i, w, wants);
  }

  // ---- the order of what is added ----

  ghost predicate Ascending(picks: seq<nat>) { forall i, j :: 0 <= i < j < |picks| ==> picks[i] < picks[j] }

  ghost predicate Within(picks: seq<nat>, n: nat) { forall i :: 0 <= i < |picks| ==> picks[i] < n }

  function LinesAt(wants: seq<Want>, picks: seq<nat>): (lines: seq<string>)
    requires Within(picks, |wants|)
  {
    seq(|picks|, i requires 0 <= i < |picks| => wants[picks[i]].key + "=" + wants[picks[i]].value)
  }

  lemma LaterIds(wants: seq<Want>, n: nat)
    requires Wanted(wants) && n < |wants|
    ensures forall i :: n < i < |wants| ==> Id(wants[i]) != Id(wants[n])
  {
    forall i | n < i < |wants| ensures Id(wants[i]) != Id(wants[n]) {
      assert !SameKey(wants[n], wants[i]);
      if Id(wants[i]) == Id(wants[n]) {
        IdNamesKey(wants, wants[i], wants[n]);
      }
    }
  }

  /** A section is left with the settings it still misses at its end, in the order of the wants. */
  lemma {:induction false} FlushInOrder(st: State, wants: seq<Want>, all: seq<Want>) returns (picks: seq<nat>)
    requires Wanted(all) && wants <= all
    ensures Ascending(picks) && Within(picks, |wants|)
    ensures forall i :: i in picks <==> 0 <= i < |wants| && wants[i].section == st.section && Id(wants[i]) !in st.done
    ensures Flush(st, wants).out == st.out + LinesAt(wants, picks) && Flush(st, wants).section == st.section
    ensures forall i :: |wants| <= i < |all| ==> (Id(all[i]) in Flush(st, wants).done <==> Id(all[i]) in st.done)
  {
    if wants == [] {
      picks := [];
      assert st.out + LinesAt(wants, picks) == st.out;
    } else {
      var n := |wants| - 1;
      var first, w := wants[..n], wants[n];
      var before := FlushInOrder(st, first, all);
      assert w == all[n] && LinesAt(wants, before) == LinesAt(first, before);
      assert Id(w) in Flush(st, first).done <==> Id(w) in st.done;
      LaterIds(all, n);
      if w.section == st.section && Id(w) !in st.done {
        picks := before + [n];
        assert LinesAt(wants, picks) == LinesAt(wants, before) + [Line(w)];
      } else {
        picks := before;
      }
    }
  }

  // ---- merging twice ----

  lemma {:induction false} FlushNothing(st: State, wants: seq<Want>)
    requires forall w :: w in wants && w.section == st.section ==> Id(w) in st.done
    ensures Flush(st, wants) == st
  {
    if wants != [] {
      FlushNothing(st, wants[..|wants| - 1]);
      assert wants[|wants| - 1] in wants;
    }
  }

  ghost predicate DoneIfSet(st: State, wants: seq<Want>) {
    forall w :: w in wants ==> (Id(w) in st.done <==> Set(st.out, w, wants))
  }

  lemma GoodHeader(st: State, line: string, wants: seq<Want>)
    requires Wanted(wants) && Section(st.out) == st.section && DoneIfSet(st, wants)
    requires GoodLine(st.out, line, wants) && KindOf(line).Header?
    ensures
      var r := Step(st, line, wants);
      r.out == st.out + [line] && Section(r.out) == r.section && r.done == st.done
  {
    Appended(st.out, line, wants);
    FlushNothing(st, wants);
  }

  lemma GoodSetting(st: State, line: string, wants: seq<Want>)
    requires Section(st.out) == st.section && GoodLine(st.out, line, wants) && !KindOf(line).Header?
    ensures
      var r := Step(st, line, wants);
      var w := Target(line, st.section, wants);
      && r.out == st.out + [line] && Section(r.out) == r.section
      && r.done == st.done + if w.Some? then {Id(w.value)} else {}
  {
    Appended(st.out, line, wants);
  }

  /** One want after a line whose target is w. */
  lemma {:induction false} GoodCounts(out: seq<string>, done: set<string>, line: string, w: Option<Want>, v: Want,
                                      wants: seq<Want>)
    requires Wanted(wants) && v in wants && (w.Some? ==> w.value in wants)
    requires w == Target(line, Section(out), wants) && (Id(v) in done <==> Set(out, v, wants))
    ensures Id(v) in done + (if w.Some? then {Id(w.value)} else {}) <==> Set(out + [line], v, wants)
  {
    AppendedCount(out, line, v, wants);
    if w.Some? && Id(v) == Id(w.value) {
      IdNamesKey(wants, v, w.value);
    }
  }

  lemma GoodStep(st: State, line: string, wants: seq<Want>)
    requires Wanted(wants) && Section(st.out) == st.section && DoneIfSet(st, wants)
    requires GoodLine(st.out, line, wants)
    ensures
      var r := Step(st, line, wants);
      r.out == st.out + [line] && Section(r.out) == r.section && DoneIfSet(r, wants)
  {
    var w := Target(line, st.section, wants);
    TargetFacts(line, st.section, wants);
    if KindOf(line).Header? {
      GoodHeader(st, line, wants);
    } else {
      GoodSetting(st, line, wants);
    }
    forall v | v in wants
      ensures Id(v) in st.done + (if w.Some? then {Id(w.value)} else {}) <==> Set(st.out + [line], v, wants)
    {
      GoodCounts(st.out, st.done, line, w, v, wants);
    }
  }

  lemma {:induction false} GoodStays(lines: seq<string>, wants: seq<Want>)
    requires Wanted(wants) && Good(lines, wants)
    ensures
      var st := Steps(lines, wants);
      st.out == lines && st.section == Section(lines) && DoneIfSet(st, wants)
  {
    if lines != [] {
      var before, line := lines[..|lines| - 1], lines[|lines| - 1];
      GoodStays(before, wants);
      GoodStep(Steps(before, wants), line, wants);
      assert lines == before + [line];
    }
  }

  lemma {:induction false} AppendNothing(a: Appending, first: seq<Want>, wants: seq<Want>)
    requires forall w :: w in first ==> Id(w) in a.st.done
    ensures AppendSteps(a, first, wants) == a
  {
    if first != [] {
      AppendNothing(a, first[..|first| - 1], wants);
      assert first[|first| - 1] in first;
    }
  }

  lemma MergedKeepsMerged(lines: seq<string>, wants: seq<Want>)
    requires Wanted(wants)
    ensures Merged(Merged(lines, wants), wants) == Merged(lines, wants)
  {
    var out := Merged(lines, wants);
    MergeSets(lines, wants);
    GoodStays(out, wants);
    var st := Steps(out, wants);
    FlushNothing(st, wants);
    AppendNothing(Appending(st, Visited(out)), wants, wants);
  }

  // ---- the same on the text of the file ----

  /** Lines a file can hold, of which the last is not blank. */
  ghost predicate Ends(out: seq<string>) { AllFree(out, '\n') && (|out| > 1 ==> out[|out| - 1] != "") }

  lemma LineFree(w: Want)
    requires Fit(w)
    ensures '\n' !in Line(w) && Line(w) != "" && '\n' !in HeaderLine(w.section) && HeaderLine(w.section) != ""
  {
    assert forall c :: c in w.key ==> !IsSpace(c);
  }

  lemma {:induction false} FlushEnds(st: State, wants: seq<Want>)
    requires (forall w :: w in wants ==> Fit(w)) && Ends(st.out)
    ensures Ends(Flush(st, wants).out)
  {
    if wants != [] {
      FlushEnds(st, wants[..|wants| - 1]);
      LineFree(wants[|wants| - 1]);
    }
  }

  lemma {:induction false} StepsEnd(lines: seq<string>, wants: seq<Want>)
    requires (forall w :: w in wants ==> Fit(w)) && AllFree(lines, '\n')
    ensures
      var out := Steps(lines, wants).out;
      && AllFree(out, '\n') && |out| >= |lines|
      && (lines == [] ==> out == [])
      && (|out| > 1 ==> (|lines| > 1 && out[|out| - 1] == lines[|lines| - 1]) || out[|out| - 1] != "")
  {
    if lines != [] {
      var before, line := lines[..|lines| - 1], lines[|lines| - 1];
      StepsEnd(before, wants);
      assert '\n' !in line;
      var st := Steps(before, wants);
      if KindOf(line).Header? {
        FlushFree(st, wants);
        assert TrimSpace("") == "";
      } else {
        TargetFacts(line, st.section, wants);
        var w := Target(line, st.section, wants);
        if w.Some? {
          LineFree(w.value);
        }
      }
    }
  }

  lemma {:induction false} FlushFree(st: State, wants: seq<Want>)
    requires (forall w :: w in wants ==> Fit(w)) && AllFree(st.out, '\n')
    ensures AllFree(Flush(st, wants).out, '\n') && |Flush(st, wants).out| >= |st.out|
  {
    if wants != [] {
      FlushFree(st, wants[..|wants| - 1]);
      LineFree(wants[|wants| - 1]);
    }
  }

  lemma {:induction false} AppendEnds(a: Appending, first: seq<Want>, wants: seq<Want>)
    requires (forall w :: w in wants ==> Fit(w)) && (forall w :: w in first ==> Fit(w)) && Ends(a.st.out)
    ensures Ends(AppendSteps(a, first, wants).st.out)
  {
    if first != [] {
      var before, w := first[..|first| - 1], first[|first| - 1];
      AppendEnds(a, before, wants);
      LineFree(w);
      var st := AppendSteps(a, before, wants).st;
      FlushEnds(st.(out := st.out + [HeaderLine(w.section)], section := w.section), wants);
    }
  }

  lemma MergedProper(lines: seq<string>, wants: seq<Want>)
    requires Wanted(wants) && Proper(lines)
    ensures Proper(Merged(lines, wants))
  {
    StepsEnd(lines, wants);
    FlushEnds(Steps(lines, wants), wants);
    var st := BeforeAppending(lines, wants);
    AppendEnds(Appending(st, Visited(st.out)), wants, wants);
  }

  /** Merging the same values into a merged file changes nothing. */
  lemma MergeIsIdempotent(existing: string, wants: seq<Want>)
    requires Wanted(wants)
    ensures MergedText(MergedText(existing, wants), wants) == MergedText(existing, wants)
  {
    var lines := Lines(existing);
    var out := Merged(lines, wants);
    LinesProper(existing);
    MergedProper(lines, wants);
    LinesFromLines(out);
    MergedKeepsMerged(lines, wants);
    if out == [] {
      MergeSets(lines, wants);
      NothingMerged();
      if wants != [] {
        SomethingUnset(wants);
      }
    }
  }

  /** A value given by name ends up in its section: some line of the merged text sets it there, and every
      line that sets the key there sets that value. */
  lemma NamedValueIsSet(existing: string, entries: seq<Entry>, section: string, key: string, e: Entry)
    returns (i: nat)
    requires Wanted(WantsOf(entries)) && e in entries && Names(e.name, section, key)
    ensures
      var out := Lines(MergedText(existing, WantsOf(entries)));
      && i < |out| && out[i] == key + "=" + e.value
      && KindOf(out[i]) == Key(key) && Section(out[..i]) == section
      && forall j {:trigger out[j]} :: 0 <= j < |out| && KindOf(out[j]) == Key(key) && Section(out[..j]) == section ==>
           out[j] == key + "=" + e.value
  {
    var wants, lines := WantsOf(entries), Lines(existing);
    var w := Want(section, key, e.value);
    NamedWant(e.name, section, key, e.value);
    assert w in wants by {
      var k :| 0 <= k < |entries| && entries[k] == e;
      assert wants[k] == w;
    }
    var out := Merged(lines, wants);
    i := SomeSettingCarries(lines, w, wants);
    LinesProper(existing);
    MergedProper(lines, wants);
    LinesFromLines(out);
    LineReads(w);
    FindIs(wants, w);
    forall j | 0 <= j < |out| && KindOf(out[j]) == Key(key) && Section(out[..j]) == section
      ensures out[j] == key + "=" + e.value
    {
      EverySettingCarries(lines, j, w, wants);
    }
  }

  lemma SomethingUnset(wants: seq<Want>)
    requires wants != []
    ensures !forall w :: w in wants ==> Set([], w, wants)
  {
    assert wants[0] in wants && !Set([], wants[0], wants);
  }

  lemma NothingMerged()
    ensures Merged([""], []) == [""]
  {
    assert Step(State([], "", {}), "", []) == State([""], "", {});
    assert Steps([""], []) == State([""], "", {});
  }
}
