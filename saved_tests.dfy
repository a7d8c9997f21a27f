/** components/SavedTestsList.tsx: the list of saved runs on the start page, sorted newest
    first, from which a run can be reopened or deleted. */
module SavedTests {
  import opened Wrappers
  import opened Seqs
  import opened Storage
  import opened Text
  import Results

  // ---------------------------------------------------------------------------------------
  // Newest first.

  predicate NewestFirstOrder(s: seq<IndexEntry>) {
    forall i, j :: 0 <= i < j < |s| ==> s[i].timestamp >= s[j].timestamp
  }

  /** Insert `e` after every entry at least as new as it. */
  function Insert(r: seq<IndexEntry>, e: IndexEntry): (r': seq<IndexEntry>)
    ensures |r'| == |r| + 1
  {
    if r == [] then [e]
    else if r[0].timestamp >= e.timestamp then [r[0]] + Insert(r[1..], e)
    else [e] + r
  }

  /** Inserting adds the entry and loses none. */
  lemma {:induction false} InsertAdds(r: seq<IndexEntry>, e: IndexEntry)
    ensures multiset(Insert(r, e)) == multiset(r) + multiset{e}
  {
    if r != [] && r[0].timestamp >= e.timestamp {
      InsertAdds(r[1..], e);
      assert r == [r[0]] + r[1..];
    }
  }

  /** `sort((a, b) => time(b) - time(a))`: a stable sort on the timestamps, newest first.
      It is the insertion sort that takes the entries from the front. */
  function NewestFirst(s: seq<IndexEntry>): (r: seq<IndexEntry>)
    ensures |r| == |s|
  {
    if s == [] then [] else Insert(NewestFirst(s[..|s| - 1]), s[|s| - 1])
  }

  /** Where `Insert` puts the entry: right after the entries at least as new as it. */
  lemma {:induction false} InsertAt(r: seq<IndexEntry>, e: IndexEntry, k: nat)
    requires k <= |r|
    requires forall m :: 0 <= m < k ==> r[m].timestamp >= e.timestamp
    requires k < |r| ==> r[k].timestamp < e.timestamp
    ensures Insert(r, e) == r[..k] + [e] + r[k..]
  {
    if k == 0 {
      assert r[..0] == [] && r[0..] == r;
    } else {
      var t := r[1..];
      assert Insert(r, e) == [r[0]] + Insert(t, e);
      assert forall m :: 0 <= m < k - 1 ==> t[m] == r[m + 1];
      InsertAt(t, e, k - 1);
      SplitAfterHead(r, e, k);
    }
  }

  /** Splitting a list after its head and `k - 1` more elements. */
  lemma SplitAfterHead<T>(r: seq<T>, e: T, k: nat)
    requires 0 < k <= |r|
    ensures [r[0]] + (r[1..][..k - 1] + [e] + r[1..][k - 1..]) == r[..k] + [e] + r[k..]
  {
    assert r[1..][..k - 1] == r[1..k];
    assert r[1..][k - 1..] == r[k..];
    assert [r[0]] + r[1..k] == r[..k];
  }

  lemma {:induction false} InsertKeepsOrder(r: seq<IndexEntry>, e: IndexEntry)
    requires NewestFirstOrder(r)
    ensures NewestFirstOrder(Insert(r, e))
  {
    if r != [] && r[0].timestamp >= e.timestamp {
      InsertKeepsOrder(r[1..], e);
      var tail := Insert(r[1..], e);
      InsertAdds(r[1..], e);
      forall j | 0 <= j < |tail| ensures r[0].timestamp >= tail[j].timestamp {
        assert tail[j] in multiset(tail);
        if tail[j] != e {
          assert tail[j] in multiset(r[1..]);
          assert tail[j] in r[1..];
        }
      }
    }
  }

  /** The sort is a permutation of its input into newest-first order. */
  lemma {:induction false} NewestFirstSpec(s: seq<IndexEntry>)
    ensures NewestFirstOrder(NewestFirst(s))
    ensures multiset(NewestFirst(s)) == multiset(s)
  {
    if s != [] {
      var init := s[..|s| - 1];
      NewestFirstSpec(init);
      InsertKeepsOrder(NewestFirst(init), s[|s| - 1]);
      InsertAdds(NewestFirst(init), s[|s| - 1]);
      MultisetSnoc(s);
    }
  }

  lemma MultisetSnoc<T>(s: seq<T>)
    requires s != []
    ensures multiset(s) == multiset(s[..|s| - 1]) + multiset{s[|s| - 1]}
  {
    assert s == s[..|s| - 1] + [s[|s| - 1]];
  }

  function HasTimestamp(t: int): IndexEntry -> bool {
    (e: IndexEntry) => e.timestamp == t
  }

  /** Inserting into a sorted list leaves the entries of every other timestamp in order and
      puts the new entry after the ones that share its timestamp. */
  lemma InsertTies(r: seq<IndexEntry>, e: IndexEntry, t: int)
    requires NewestFirstOrder(r)
    ensures Filter(Insert(r, e), HasTimestamp(t)) == Filter(r, HasTimestamp(t)) + Filter([e], HasTimestamp(t))
  {
    var k := FirstOlder(r, e.timestamp);
    InsertAt(r, e, k);
    if t == e.timestamp {
      OlderAfter(r, k, t);
    }
    FilterInsertedAt(r, k, e, HasTimestamp(t));
  }

  /** Filtering a list with `e` inserted at `k`, when nothing after `k` passes if `e` does. */
  lemma FilterInsertedAt<T(!new)>(r: seq<T>, k: nat, e: T, p: T -> bool)
    requires k <= |r|
    requires p(e) ==> Filter(r[k..], p) == []
    ensures Filter(r[..k] + [e] + r[k..], p) == Filter(r, p) + Filter([e], p)
  {
    var front, back := r[..k], r[k..];
    TakeDrop(r, k);
    FilterAppend(front + [e], back, p);
    FilterAppend(front, [e], p);
    FilterAppend(front, back, p);
    if !p(e) {
      assert Filter([e], p) == [];
    }
    MoveEmptyAside(Filter(front, p), Filter([e], p), Filter(back, p));
  }

  lemma TakeDrop<T>(r: seq<T>, k: nat)
    requires k <= |r|
    ensures r[..k] + r[k..] == r
  {
  }

  /** When the middle or the last of three parts is empty, the middle may go last. */
  lemma MoveEmptyAside<T>(f: seq<T>, m: seq<T>, b: seq<T>)
    requires m == [] || b == []
    ensures f + m + b == (f + b) + m
  {
    if m == [] {
      assert f + m == f;
    } else {
      assert m + b == m && f + b == f;
    }
  }

  /** In a sorted list, nothing from the first entry older than `t` on has timestamp `t`. */
  lemma OlderAfter(r: seq<IndexEntry>, k: nat, t: int)
    requires NewestFirstOrder(r)
    requires k <= |r| && (k < |r| ==> r[k].timestamp < t)
    ensures Filter(r[k..], HasTimestamp(t)) == []
  {
    var back := r[k..];
    forall m | 0 <= m < |back| ensures back[m].timestamp < t {
      assert back[m] == r[k + m];
    }
    NoneAtTimestamp(back, t);
  }

  /** The first position holding an entry older than `t`. */
  function FirstOlder(r: seq<IndexEntry>, t: int): (k: nat)
    ensures k <= |r|
    ensures forall m :: 0 <= m < k ==> r[m].timestamp >= t
    ensures k < |r| ==> r[k].timestamp < t
  {
    if r == [] || r[0].timestamp < t then 0 else 1 + FirstOlder(r[1..], t)
  }

  lemma {:induction false} NoneAtTimestamp(s: seq<IndexEntry>, t: int)
    requires forall m :: 0 <= m < |s| ==> s[m].timestamp < t
    ensures Filter(s, HasTimestamp(t)) == []
  {
    if s != [] {
      NoneAtTimestamp(s[1..], t);
    }
  }

  /** The sort is stable: the entries that share a timestamp keep their relative order. */
  lemma {:induction false} NewestFirstIsStable(s: seq<IndexEntry>, t: int)
    ensures Filter(NewestFirst(s), HasTimestamp(t)) == Filter(s, HasTimestamp(t))
  {
    if s != [] {
      var init, last := s[..|s| - 1], s[|s| - 1];
      NewestFirstIsStable(init, t);
      NewestFirstSpec(init);
      InsertTies(NewestFirst(init), last, t);
      FilterSnoc(s, HasTimestamp(t));
    }
  }

  /** The in-place sort of the parsed index. */
  method SortNewestFirst(a: array<IndexEntry>)
    modifies a
    ensures a[..] == NewestFirst(old(a[..]))
  {
    ghost var input := a[..];
    var i := 0;
    while i < a.Length
      invariant 0 <= i <= a.Length
      invariant a[..i] == NewestFirst(input[..i])
      invariant a[i..] == input[i..]
    {
      assert NewestFirstOrder(a[..i]) by {
        NewestFirstSpec(input[..i]);
      }
      assert a[i] == input[i];
      InsertNext(a, i);
      assert input[..i + 1][..i] == input[..i];
      i := i + 1;
    }
    assert input[..a.Length] == input;
  }

  /** One step of the insertion sort: `a[i]` moves into the sorted prefix `a[..i]`, behind
      the entries at least as new as it. */
  method InsertNext(a: array<IndexEntry>, i: nat)
    requires i < a.Length
    requires NewestFirstOrder(a[..i])
    modifies a
    ensures a[..i + 1] == Insert(old(a[..i]), old(a[i]))
    ensures a[i + 1..] == old(a[i + 1..])
  {
    ghost var sorted := a[..i];
    var e := a[i];
    var j := ShiftNewer(a, i, e);
    a[j] := e;
    InsertAt(sorted, e, j);
    Reassemble(a[..], sorted, e, j, i);
  }

  /** The loop of one insertion step: the entries of `a[..i]` older than `e` at its end each
      move one place back, opening a gap at `j` just after the entries at least as new. */
  method ShiftNewer(a: array<IndexEntry>, i: nat, e: IndexEntry) returns (j: nat)
    requires i < a.Length
    requires NewestFirstOrder(a[..i])
    modifies a
    ensures j <= i
    ensures forall m :: 0 <= m < j ==> a[m] == old(a[m])
    ensures forall m :: j < m <= i ==> a[m] == old(a[m - 1])
    ensures forall m :: i < m < a.Length ==> a[m] == old(a[m])
    ensures forall m :: 0 <= m < j ==> old(a[m]).timestamp >= e.timestamp
    ensures j < i ==> old(a[j]).timestamp < e.timestamp
  {
    ghost var sorted := a[..i];
    j := i;
    while j > 0 && a[j - 1].timestamp < e.timestamp
      invariant 0 <= j <= i
      invariant forall m :: 0 <= m < j ==> a[m] == sorted[m]
      invariant forall m :: j < m <= i ==> a[m] == sorted[m - 1]
      invariant forall m :: i < m < a.Length ==> a[m] == old(a[m])
      invariant j < i ==> sorted[j].timestamp < e.timestamp
    {
      a[j] := a[j - 1];
      j := j - 1;
    }
    if j > 0 {
      assert sorted[j - 1] == a[j - 1];
      forall m | 0 <= m < j ensures sorted[m].timestamp >= e.timestamp {
        assert sorted[m].timestamp >= sorted[j - 1].timestamp;
      }
    }
  }

  lemma Reassemble(x: seq<IndexEntry>, sorted: seq<IndexEntry>, e: IndexEntry, j: nat, i: nat)
    requires j <= i < |x| && |sorted| == i
    requires forall m :: 0 <= m < j ==> x[m] == sorted[m]
    requires x[j] == e
    requires forall m :: j < m <= i ==> x[m] == sorted[m - 1]
    ensures x[..i + 1] == sorted[..j] + [e] + sorted[j..]
  {
    var y := sorted[..j] + [e] + sorted[j..];
    assert |y| == i + 1;
    forall m | 0 <= m <= i ensures x[m] == y[m] {
      if m > j {
        assert y[m] == sorted[j..][m - j - 1];
      }
    }
  }

  // ---------------------------------------------------------------------------------------
  // Reopening a run.

  /** The session after reopening a run: its fields under the wizard's keys and its id as
      the current run. */
  function RestoredSession(session: Store, testId: string, run: SavedRun): Store {
    session[ProjectDescriptionKey := Text(run.projectDescription)]
           [CategoryKey := Text(run.category)]
           [TestCasesKey := Cases(run.testCases)]
           [TestingStrategyKey := Text(run.testingStrategy)]
           [RiskAreasKey := Strings(run.riskAreas)]
           [CurrentTestIdKey := Text(testId)]
  }

  datatype LoadOutcome = Loaded | Missing | LoadFailed

  function WithoutId(id: string): IndexEntry -> bool {
    (e: IndexEntry) => e.id != id
  }

  /** A reopened run is shown by the results page and never saved a second time: the cases
      and risk areas read back as they were saved, and `currentTestId` is set. */
  lemma ReopenedRunIsNotSavedAgain(session: Store, testId: string, run: SavedRun)
    requires testId != ""
    ensures var s := RestoredSession(session, testId, run);
      && Results.MountReads(s)
      && ReadCases(Get(s, TestCasesKey)) == Some(run.testCases)
      && ReadStrings(Get(s, RiskAreasKey)) == Some(run.riskAreas)
      && !Results.AutoSaveDue(s)
  {
  }

  /** Saving a run and then reopening it from the list restores what was saved. */
  lemma SaveThenReopen(local0: Store, session0: Store, local1: Store, session1: Store, now: nat, suffix: string, run: SavedRun)
    requires Results.SaveEffect(local0, session0, local1, session1, RunId(now, suffix), run)
    ensures Get(local1, RunId(now, suffix)) == Some(Run(run))
    ensures var s := RestoredSession(session1, RunId(now, suffix), run);
      && ReadCases(Get(s, TestCasesKey)) == Some(run.testCases)
      && ReadStrings(Get(s, RiskAreasKey)) == Some(run.riskAreas)
      && Get(s, ProjectDescriptionKey) == Some(Text(run.projectDescription))
      && !Results.AutoSaveDue(s)
  {
    Results.SaveEffectSpec(local0, session0, local1, session1, now, suffix, run);
    assert RunId(now, suffix) != "" by {
      assert StartsWith(RunId(now, suffix), "test_");
    }
  }

  /** Deleting the run a save has just put in front of the index gives back the index as
      it was, provided no older entry carries that id. */
  lemma DeleteUndoesSave(entries: seq<IndexEntry>, id: string, run: SavedRun)
    requires forall i :: 0 <= i < |entries| ==> entries[i].id != id
    ensures Filter([Results.EntryFor(id, run)] + entries, WithoutId(id)) == entries
  {
    FilterAppend([Results.EntryFor(id, run)], entries, WithoutId(id));
    FilterKeepsAll(entries, WithoutId(id));
    assert Filter([Results.EntryFor(id, run)], WithoutId(id)) == [];
  }

  /** Deleting keeps, in order, exactly the entries with another id. */
  lemma DeleteSpec(entries: seq<IndexEntry>, id: string)
    ensures var r := Filter(entries, WithoutId(id));
      && IsSubsequence(r, entries)
      && (forall e :: e in r <==> e in entries && e.id != id)
  {
    FilterIsSubsequence(entries, WithoutId(id));
  }

  class SavedTestsList {
    var savedTests: seq<IndexEntry>

    constructor()
      ensures savedTests == []
    {
      savedTests := [];
    }

    /** `loadSavedTests`: a readable index replaces the list, sorted newest first; an absent
        or unreadable one leaves the list as it is. */
    method LoadSavedTests(b: Browser)
      modifies this
      ensures var v := Get(b.local, SavedTestsKey);
        && (Truthy(v) && v.value.Index? ==> savedTests == NewestFirst(v.value.entries))
        && (!(Truthy(v) && v.value.Index?) ==> savedTests == old(savedTests))
    {
      var v := Get(b.local, SavedTestsKey);
      if !(Truthy(v) && v.value.Index?) {
        return;
      }
      var entries := v.value.entries;
      var a := new IndexEntry[|entries|](i requires 0 <= i < |entries| => entries[i]);
      assert a[..] == entries;
      SortNewestFirst(a);
      savedTests := a[..];
    }

    /** `handleLoadTest`: a stored record is copied into the session under the wizard's keys
        and becomes the current run; no record changes nothing; a value that is not a
        record fails without writing. */
    method HandleLoadTest(b: Browser, testId: string) returns (outcome: LoadOutcome)
      modifies b
      ensures b.local == old(b.local)
      ensures var v := Get(old(b.local), testId);
        && (!Truthy(v) ==> outcome == Missing && b.session == old(b.session))
        && (Truthy(v) && !v.value.Run? ==> outcome == LoadFailed && b.session == old(b.session))
        && (Truthy(v) && v.value.Run? ==> outcome == Loaded && b.session == RestoredSession(old(b.session), testId, v.value.run))
    {
      var v := Get(b.local, testId);
      if !Truthy(v) {
        return Missing;
      }
      if !v.value.Run? {
        return LoadFailed;
      }
      var run := v.value.run;
      b.session := b.session[ProjectDescriptionKey := Text(run.projectDescription)];
      b.session := b.session[CategoryKey := Text(run.category)];
      b.session := b.session[TestCasesKey := Cases(run.testCases)];
      b.session := b.session[TestingStrategyKey := Text(run.testingStrategy)];
      b.session := b.session[RiskAreasKey := Strings(run.riskAreas)];
      b.session := b.session[CurrentTestIdKey := Text(testId)];
      outcome := Loaded;
    }

    /** `handleDeleteTest`: unless the user confirms nothing happens; otherwise the record is
        removed and the list, without the entries of that id, is written back as the index. */
    method HandleDeleteTest(b: Browser, testId: string, confirmed: bool)
      modifies this, b
      ensures b.session == old(b.session)
      ensures !confirmed ==> savedTests == old(savedTests) && b.local == old(b.local)
      ensures confirmed ==> savedTests == Filter(old(savedTests), WithoutId(testId))
      ensures confirmed ==> b.local == (old(b.local) - {testId})[SavedTestsKey := Index(savedTests)]
    {
      if !confirmed {
        return;
      }
      b.local := b.local - {testId};
      var updated := Filter(savedTests, WithoutId(testId));
      savedTests := updated;
      b.local := b.local[SavedTestsKey := Index(updated)];
    }
  }
}
