/** The session view and the active path show the same messages exactly when no two compacted blocks overlap. */
module ViewFacts {
  import opened Protocol
  import opened History
  import opened Slots
  import opened ActivePath
  import opened SessionView
  import opened PathFacts

  /** What an item shows in the session view: a pointer shows the stored message, a skill note nothing. */
  function Shown(msgs: seq<Message>, item: PathItem): seq<Message> {
    match item
    case Kept(m) => [m]
    case Pointer(m, _) => [m]
    case Note(_, _) => []
    case Digest(c) => if SpanOf(msgs, c).Some? then [SummaryMessage(msgs, c)] else []
  }

  function ShownAll(msgs: seq<Message>, items: seq<PathItem>): seq<Message> {
    if items == [] then []
    else ShownAll(msgs, items[..|items| - 1]) + Shown(msgs, items[|items| - 1])
  }

  lemma {:induction false} ShownConcat(msgs: seq<Message>, a: seq<PathItem>, b: seq<PathItem>)
    ensures ShownAll(msgs, a + b) == ShownAll(msgs, a) + ShownAll(msgs, b)
  {
    hide Shown;
    if b == [] {
      assert a + b == a;
    } else {
      var n := |b| - 1;
      assert (a + b)[..|a| + n] == a + b[..n];
      ShownConcat(msgs, a, b[..n]);
      Assoc(ShownAll(msgs, a), ShownAll(msgs, b[..n]), Shown(msgs, b[n]));
    }
  }

  lemma {:induction false} NotesShowNothing(msgs: seq<Message>, skills: seq<Active>, p: nat)
    ensures ShownAll(msgs, NotesAt(skills, p)) == []
  {
    if skills != [] {
      var n := |skills| - 1;
      NotesShowNothing(msgs, skills[..n], p);
      var a := skills[n];
      if a.seen == p {
        assert NotesAt(skills, p)[..|NotesAt(skills, p)| - 1] == NotesAt(skills[..n], p);
      } else {
        assert NotesAt(skills, p) == NotesAt(skills[..n], p);
      }
    }
  }

  lemma ShownOne(msgs: seq<Message>, item: PathItem)
    ensures ShownAll(msgs, [item]) == Shown(msgs, item)
  {
    assert [item][..0] == [];
  }

  /** What slot `p` shows: its summaries, then its message if uncovered. */
  lemma ShownSlot(log: seq<Entry>, p: nat)
    ensures ShownAll(Messages(log), Slot(log, p))
         == ShownAll(Messages(log), DigestsAt(Messages(log), Compactions(log), p))
            + (if p < |Messages(log)| && !Covered(Messages(log), Compactions(log), p) then [Messages(log)[p]] else [])
  {
    var msgs := Messages(log);
    var d, n, m := DigestsAt(msgs, Compactions(log), p), NotesAt(ActiveSkills(log), p), MessagesAt(log, p);
    assert Slot(log, p) == d + (n + m);
    ShownConcat(msgs, n, m);
    ShownConcat(msgs, d, n + m);
    NotesShowNothing(msgs, ActiveSkills(log), p);
    if p < |msgs| && !Covered(msgs, Compactions(log), p) {
      ShownOne(msgs, m[0]);
      assert m == [m[0]];
    }
  }

  /** With disjoint blocks, at most one block begins at a position. */
  lemma {:induction false} OneDigest(msgs: seq<Message>, comps: seq<Compaction>, i: nat, p: nat)
    requires i < |comps| && StartsAt(msgs, comps[i], p)
    requires forall j :: 0 <= j < |comps| && j != i ==> !StartsAt(msgs, comps[j], p)
    ensures DigestsAt(msgs, comps, p) == [Digest(comps[i])]
  {
    var n := |comps| - 1;
    if i == n {
      NoDigest(msgs, comps[..n], p);
    } else {
      OneDigest(msgs, comps[..n], i, p);
    }
  }

  lemma {:induction false} NoDigest(msgs: seq<Message>, comps: seq<Compaction>, p: nat)
    requires forall j :: 0 <= j < |comps| ==> !StartsAt(msgs, comps[j], p)
    ensures DigestsAt(msgs, comps, p) == []
  {
    if comps != [] { NoDigest(msgs, comps[..|comps| - 1], p); }
  }

  /** No block that begins before `p` reaches `p`. */
  ghost predicate Boundary(msgs: seq<Message>, comps: seq<Compaction>, p: nat) {
    forall i :: 0 <= i < |comps| && SpanOf(msgs, comps[i]).Some? && SpanOf(msgs, comps[i]).value.lo < p
      ==> SpanOf(msgs, comps[i]).value.hi < p
  }

  /** What the slots from `p` on show. */
  function ShownFrom(log: seq<Entry>, p: nat): seq<Message>
    requires p <= |Messages(log)| + 1
  {
    ShownAll(Messages(log), Flat(PathSlots(log)[p..]))
  }

  lemma ShownFromNext(log: seq<Entry>, p: nat)
    requires p <= |Messages(log)|
    ensures ShownFrom(log, p) == ShownAll(Messages(log), Slot(log, p)) + ShownFrom(log, p + 1)
  {
    hide Slot, ShownAll;
    var slots := PathSlots(log);
    assert slots[p..] == [Slot(log, p)] + slots[p + 1..];
    FlatCons(Slot(log, p), slots[p + 1..]);
    ShownConcat(Messages(log), Slot(log, p), Flat(slots[p + 1..]));
  }

  /** Past the first message of a block, its slots show nothing. */
  lemma {:induction false} BlockShowsNothing(log: seq<Entry>, i: nat, p: nat)
    requires i < |Compactions(log)| && SpanOf(Messages(log), Compactions(log)[i]).Some?
    requires DisjointSpans(Messages(log), Compactions(log))
    requires SpanOf(Messages(log), Compactions(log)[i]).value.lo < p
    requires p <= SpanOf(Messages(log), Compactions(log)[i]).value.hi + 1
    requires p <= |Messages(log)|
    ensures ShownFrom(log, p) == ShownFrom(log, SpanOf(Messages(log), Compactions(log)[i]).value.hi + 1)
    decreases |Messages(log)| - p
  {
    hide ShownFrom, ShownAll, Slot, DisjointSpans;
    if p <= SpanOf(Messages(log), Compactions(log)[i]).value.hi {
      InsideBlock(log, i, p);
      ShownFromNext(log, p);
      BlockShowsNothing(log, i, p + 1);
    }
  }

  lemma InsideBlock(log: seq<Entry>, i: nat, p: nat)
    requires i < |Compactions(log)| && SpanOf(Messages(log), Compactions(log)[i]).Some?
    requires DisjointSpans(Messages(log), Compactions(log))
    requires SpanOf(Messages(log), Compactions(log)[i]).value.lo < p
    requires p <= SpanOf(Messages(log), Compactions(log)[i]).value.hi
    ensures ShownAll(Messages(log), Slot(log, p)) == []
  {
    hide Slot, SpanOf;
    var msgs, comps := Messages(log), Compactions(log);
    assert Spans(msgs, comps[i], p);
    forall j | 0 <= j < |comps| ensures !StartsAt(msgs, comps[j], p) {
      assert j != i ==> !Spans(msgs, comps[j], p);
    }
    NoDigest(msgs, comps, p);
    ShownSlot(log, p);
  }

  lemma EndShowsNothing(log: seq<Entry>)
    ensures ShownFrom(log, |Messages(log)|) == []
  {
    var n := |Messages(log)|;
    forall j | 0 <= j < |Compactions(log)| ensures !StartsAt(Messages(log), Compactions(log)[j], n) {}
    NoDigest(Messages(log), Compactions(log), n);
    ShownSlot(log, n);
    ShownFromNext(log, n);
    assert PathSlots(log)[n + 1..] == [];
  }

  /** With disjoint blocks, from any block boundary the view and the path show the same messages. */
  lemma {:induction false} ViewAgreesFrom(log: seq<Entry>, p: nat)
    requires DisjointSpans(Messages(log), Compactions(log))
    requires p <= |Messages(log)| && Boundary(Messages(log), Compactions(log), p)
    ensures ViewFrom(Messages(log), Compactions(log), p) == ShownFrom(log, p)
    decreases |Messages(log)| - p
  {
    hide ShownFrom, ShownAll, Slot, DisjointSpans, Boundary, Covered, FirstStarting;
    var msgs, comps := Messages(log), Compactions(log);
    if p == |msgs| {
      EndShowsNothing(log);
      return;
    }
    var start := FirstStarting(msgs, comps, p);
    ShownFromNext(log, p);
    if start.Some? {
      var i := start.value;
      BlockStart(log, i, p);
      BlockShowsNothing(log, i, p + 1);
      ViewAgreesFrom(log, SpanOf(msgs, comps[i]).value.hi + 1);
    } else {
      BoundaryNext(msgs, comps, p);
      KeptSlot(log, p);
      ViewAgreesFrom(log, p + 1);
    }
  }

  lemma KeptSlot(log: seq<Entry>, p: nat)
    requires p < |Messages(log)| && !Covered(Messages(log), Compactions(log), p)
    requires forall j :: 0 <= j < |Compactions(log)| ==> !StartsAt(Messages(log), Compactions(log)[j], p)
    ensures ShownAll(Messages(log), Slot(log, p)) == [Messages(log)[p]]
  {
    NoDigest(Messages(log), Compactions(log), p);
    ShownSlot(log, p);
  }

  lemma BlockStart(log: seq<Entry>, i: nat, p: nat)
    requires DisjointSpans(Messages(log), Compactions(log))
    requires p < |Messages(log)| && Boundary(Messages(log), Compactions(log), p)
    requires i < |Compactions(log)| && StartsAt(Messages(log), Compactions(log)[i], p)
    ensures ShownAll(Messages(log), Slot(log, p)) == [SummaryMessage(Messages(log), Compactions(log)[i])]
    ensures Boundary(Messages(log), Compactions(log), SpanOf(Messages(log), Compactions(log)[i]).value.hi + 1)
  {
    hide Boundary, Slot, SpanOf, Messages, Compactions;
    var msgs, comps := Messages(log), Compactions(log);
    assert Spans(msgs, comps[i], p);
    forall j | 0 <= j < |comps| && j != i ensures !StartsAt(msgs, comps[j], p) {
      assert !Spans(msgs, comps[j], p);
    }
    OneDigest(msgs, comps, i, p);
    ShownSlot(log, p);
    ShownOne(msgs, Digest(comps[i]));
    BoundaryAfterBlock(msgs, comps, i, p);
  }

  lemma BoundaryAfterBlock(msgs: seq<Message>, comps: seq<Compaction>, i: nat, p: nat)
    requires DisjointSpans(msgs, comps) && Boundary(msgs, comps, p)
    requires i < |comps| && StartsAt(msgs, comps[i], p)
    ensures Boundary(msgs, comps, SpanOf(msgs, comps[i]).value.hi + 1)
  {
    hide SpanOf;
    var span := SpanOf(msgs, comps[i]).value;
    forall j | 0 <= j < |comps| && SpanOf(msgs, comps[j]).Some? && SpanOf(msgs, comps[j]).value.lo < span.hi + 1
      ensures SpanOf(msgs, comps[j]).value.hi < span.hi + 1
    {
      var lo := SpanOf(msgs, comps[j]).value.lo;
      assert j != i ==> !(Spans(msgs, comps[j], lo) && Spans(msgs, comps[i], lo));
    }
  }

  lemma BoundaryNext(msgs: seq<Message>, comps: seq<Compaction>, p: nat)
    requires Boundary(msgs, comps, p)
    requires forall j :: 0 <= j < |comps| ==> !StartsAt(msgs, comps[j], p)
    ensures Boundary(msgs, comps, p + 1) && !Covered(msgs, comps, p)
  {
    forall j | 0 <= j < |comps| ensures !Spans(msgs, comps[j], p) {}
    forall i | 0 <= i < |comps| && SpanOf(msgs, comps[i]).Some? && SpanOf(msgs, comps[i]).value.lo < p + 1
      ensures SpanOf(msgs, comps[i]).value.hi < p + 1
    {
      assert !StartsAt(msgs, comps[i], p);
    }
  }

  lemma ViewAgreesIfDisjoint(log: seq<Entry>)
    requires DisjointSpans(Messages(log), Compactions(log))
    ensures ViewMessages(log) == ShownAll(Messages(log), Path(log))
  {
    ViewAgreesFrom(log, 0);
    assert PathSlots(log)[0..] == PathSlots(log);
  }

  // ---------------------------------------------------------------- overlapping blocks

  /** The compaction entries whose summary the view shows from position `p` on. */
  ghost function Emitted(msgs: seq<Message>, comps: seq<Compaction>, p: nat): set<nat>
    decreases |msgs| - p
  {
    if p >= |msgs| then {}
    else
      var start := FirstStarting(msgs, comps, p);
      if start.Some? then {start.value} + Emitted(msgs, comps, SpanOf(msgs, comps[start.value]).value.hi + 1)
      else Emitted(msgs, comps, p + 1)
  }

  ghost function ResolvableSet(msgs: seq<Message>, comps: seq<Compaction>): set<nat> {
    set i: nat | i < |comps| && SpanOf(msgs, comps[i]).Some?
  }

  lemma ResolvableSetNext(msgs: seq<Message>, comps: seq<Compaction>)
    requires comps != []
    ensures var n := |comps| - 1;
            var before := ResolvableSet(msgs, comps[..n]);
            && n !in before
            && ResolvableSet(msgs, comps) == (if SpanOf(msgs, comps[n]).Some? then before + {n} else before)
  {
    hide SpanOf;
    var n := |comps| - 1;
    assert forall i :: 0 <= i < n ==> comps[..n][i] == comps[i];
  }

  lemma {:induction false} ResolvableCounts(msgs: seq<Message>, comps: seq<Compaction>)
    ensures |ResolvableSet(msgs, comps)| == Resolvable(msgs, comps)
  {
    hide ResolvableSet, SpanOf;
    if comps == [] {
      NoneResolvable(msgs);
    } else {
      ResolvableCounts(msgs, comps[..|comps| - 1]);
      ResolvableSetNext(msgs, comps);
    }
  }

  lemma NoneResolvable(msgs: seq<Message>)
    ensures ResolvableSet(msgs, []) == {}
  {
  }

  /** The blocks shown from `p` on begin at or after `p` and do not overlap. */
  lemma {:induction false} EmittedApart(msgs: seq<Message>, comps: seq<Compaction>, p: nat)
    ensures Emitted(msgs, comps, p) <= ResolvableSet(msgs, comps)
    ensures forall i :: i in Emitted(msgs, comps, p) ==> SpanOf(msgs, comps[i]).value.lo >= p
    ensures forall i, j, q :: i in Emitted(msgs, comps, p) && j in Emitted(msgs, comps, p) && i != j ==>
      !(Spans(msgs, comps[i], q) && Spans(msgs, comps[j], q))
    decreases |msgs| - p
  {
    hide SpanOf, FirstStarting;
    if p < |msgs| {
      var start := FirstStarting(msgs, comps, p);
      EmittedApart(msgs, comps, if start.Some? then SpanOf(msgs, comps[start.value]).value.hi + 1 else p + 1);
    }
  }

  lemma {:induction false} CoveredRun(msgs: seq<Message>, comps: seq<Compaction>, i: nat, k: nat)
    requires i < |comps| && SpanOf(msgs, comps[i]).Some?
    requires SpanOf(msgs, comps[i]).value.lo <= k <= SpanOf(msgs, comps[i]).value.hi + 1
    ensures Uncovered(msgs, comps, k) == Uncovered(msgs, comps, SpanOf(msgs, comps[i]).value.lo)
    decreases k
  {
    hide Covered, SpanOf;
    if k > SpanOf(msgs, comps[i]).value.lo {
      CoveredRun(msgs, comps, i, k - 1);
      InBlockIsCovered(msgs, comps, i, k - 1);
    }
  }

  lemma InBlockIsCovered(msgs: seq<Message>, comps: seq<Compaction>, i: nat, p: nat)
    requires i < |comps| && Spans(msgs, comps[i], p)
    ensures Covered(msgs, comps, p)
  {
  }

  lemma EmittedNext(msgs: seq<Message>, comps: seq<Compaction>, p: nat)
    requires p < |msgs| && FirstStarting(msgs, comps, p).Some?
    ensures var next := SpanOf(msgs, comps[FirstStarting(msgs, comps, p).value]).value.hi + 1;
            |Emitted(msgs, comps, p)| == 1 + |Emitted(msgs, comps, next)|
  {
    hide SpanOf, FirstStarting;
    var start := FirstStarting(msgs, comps, p);
    var next := SpanOf(msgs, comps[start.value]).value.hi + 1;
    EmittedApart(msgs, comps, next);
    assert start.value !in Emitted(msgs, comps, next);
  }

  /** The view shows every uncovered message, and one summary per emitted entry. */
  lemma {:induction false} ViewLength(msgs: seq<Message>, comps: seq<Compaction>, p: nat)
    requires p <= |msgs|
    ensures |ViewFrom(msgs, comps, p)| + Uncovered(msgs, comps, p)
         == |Emitted(msgs, comps, p)| + Uncovered(msgs, comps, |msgs|)
    decreases |msgs| - p
  {
    hide FirstStarting, Covered, SpanOf;
    if p < |msgs| {
      var start := FirstStarting(msgs, comps, p);
      if start.Some? {
        var next := SpanOf(msgs, comps[start.value]).value.hi + 1;
        CoveredRun(msgs, comps, start.value, next);
        EmittedNext(msgs, comps, p);
        assert |ViewFrom(msgs, comps, p)| == 1 + |ViewFrom(msgs, comps, next)|;
        ViewLength(msgs, comps, next);
      } else {
        ViewLength(msgs, comps, p + 1);
      }
    }
  }

  lemma {:induction false} ShownLength(msgs: seq<Message>, comps: seq<Compaction>, items: seq<PathItem>)
    requires forall i :: 0 <= i < |items| && items[i].Digest? ==> SpanOf(msgs, items[i].entry).Some?
    ensures |ShownAll(msgs, items)| + |Filtered(items, IsNote)| == |items|
  {
    if items != [] { ShownLength(msgs, comps, items[..|items| - 1]); }
  }

  lemma {:induction false} DigestsResolve(msgs: seq<Message>, comps: seq<Compaction>, p: nat)
    ensures forall i :: 0 <= i < |DigestsAt(msgs, comps, p)| ==>
      DigestsAt(msgs, comps, p)[i].Digest? && SpanOf(msgs, DigestsAt(msgs, comps, p)[i].entry).Some?
  {
    if comps != [] { DigestsResolve(msgs, comps[..|comps| - 1], p); }
  }

  lemma {:induction false} FlatForall<T>(slots: seq<seq<T>>, ok: T -> bool)
    requires forall p, i :: 0 <= p < |slots| && 0 <= i < |slots[p]| ==> ok(slots[p][i])
    ensures forall i :: 0 <= i < |Flat(slots)| ==> ok(Flat(slots)[i])
  {
    if slots != [] { FlatForall(slots[..|slots| - 1], ok); }
  }

  function Resolves(msgs: seq<Message>): PathItem -> bool {
    (item: PathItem) => item.Digest? ==> SpanOf(msgs, item.entry).Some?
  }

  lemma SlotResolves(log: seq<Entry>, p: nat, i: nat)
    requires i < |Slot(log, p)|
    ensures Resolves(Messages(log))(Slot(log, p)[i])
  {
    DigestsResolve(Messages(log), Compactions(log), p);
    NotesAreNotes(ActiveSkills(log), p);
  }

  lemma PathResolves(log: seq<Entry>)
    ensures forall i :: 0 <= i < |Path(log)| && Path(log)[i].Digest? ==> SpanOf(Messages(log), Path(log)[i].entry).Some?
  {
    hide Slot;
    var slots := PathSlots(log);
    forall p, i | 0 <= p < |slots| && 0 <= i < |slots[p]| ensures Resolves(Messages(log))(slots[p][i]) {
      SlotResolves(log, p, i);
    }
    FlatForall(slots, Resolves(Messages(log)));
    assert forall i :: 0 <= i < |Path(log)| ==> Resolves(Messages(log))(Path(log)[i]);
  }

  /** If the view shows as much as the path, it shows every resolvable block, and these do not overlap. */
  lemma DisjointIfViewAgrees(log: seq<Entry>)
    requires |ViewMessages(log)| == |ShownAll(Messages(log), Path(log))|
    ensures DisjointSpans(Messages(log), Compactions(log))
  {
    var msgs, comps := Messages(log), Compactions(log);
    PathResolves(log);
    ShownLength(msgs, comps, Path(log));
    SkillsSurvive(log);
    PathLength(log);
    ViewLength(msgs, comps, 0);
    ResolvableCounts(msgs, comps);
    EmittedApart(msgs, comps, 0);
    SameSize(Emitted(msgs, comps, 0), ResolvableSet(msgs, comps));
    forall i: nat, j: nat, p | i < j < |comps| && Spans(msgs, comps[i], p) ensures !Spans(msgs, comps[j], p) {
      assert i in ResolvableSet(msgs, comps);
      assert j in ResolvableSet(msgs, comps) <==> SpanOf(msgs, comps[j]).Some?;
    }
  }

  lemma SameSize<T>(a: set<T>, b: set<T>)
    requires a <= b && |a| == |b|
    ensures a == b
  {
    var rest := b - a;
    assert b == a + rest;
    assert |b| == |a| + |rest|;
  }

  /** For every log with unique ids: the session view and the active path (skill notes aside) are the same
      messages if and only if no two compacted blocks share a message. */
  lemma ViewAgreesExactlyWhenDisjoint(log: seq<Entry>)
    ensures ViewMessages(log) == ShownAll(Messages(log), Path(log)) <==> DisjointSpans(Messages(log), Compactions(log))
  {
    if DisjointSpans(Messages(log), Compactions(log)) {
      ViewAgreesIfDisjoint(log);
    }
    if ViewMessages(log) == ShownAll(Messages(log), Path(log)) {
      DisjointIfViewAgrees(log);
    }
  }

  /** Two entries whose blocks overlap: the path shows both summaries, the view only the first. */
  lemma OverlappingBlocksDisagree()
    ensures var first := Message("a", None, Developer, None, TextBody("a"));
            var second := Message("b", Some("a"), Developer, None, TextBody("b"));
            var log := [MessageEntry(first), MessageEntry(second),
                        CompactionEntry(Compaction("c", "both", "a", "b", "run")),
                        CompactionEntry(Compaction("d", "second", "b", "b", "run"))];
            ViewMessages(log) != ShownAll(Messages(log), Path(log))
  {
    hide ViewMessages, ShownAll, Path, DisjointSpans, Messages, Compactions;
    var first := Message("a", None, Developer, None, TextBody("a"));
    var second := Message("b", Some("a"), Developer, None, TextBody("b"));
    var both, one := Compaction("c", "both", "a", "b", "run"), Compaction("d", "second", "b", "b", "run");
    FourEntries(first, second, both, one);
    BlocksOverlap(first, second, both, one);
    var log := [MessageEntry(first), MessageEntry(second), CompactionEntry(both), CompactionEntry(one)];
    ViewAgreesExactlyWhenDisjoint(log);
  }

  lemma FourEntries(first: Message, second: Message, both: Compaction, one: Compaction)
    ensures var log := [MessageEntry(first), MessageEntry(second), CompactionEntry(both), CompactionEntry(one)];
            Messages(log) == [first, second] && Compactions(log) == [both, one]
  {
    hide Messages, Compactions;
    var a := [MessageEntry(first)];
    var b := a + [MessageEntry(second)];
    var c := b + [CompactionEntry(both)];
    EmptyLog();
    Appended([], MessageEntry(first));
    assert [] + a == a;
    Appended(a, MessageEntry(second));
    Appended(b, CompactionEntry(both));
    Appended(c, CompactionEntry(one));
    assert c + [CompactionEntry(one)]
        == [MessageEntry(first), MessageEntry(second), CompactionEntry(both), CompactionEntry(one)];
  }

  lemma BlocksOverlap(first: Message, second: Message, both: Compaction, one: Compaction)
    requires first.id == "a" && second.id == "b"
    requires both.firstId == "a" && both.lastId == "b" && one.firstId == "b" && one.lastId == "b"
    ensures !DisjointSpans([first, second], [both, one])
  {
    hide SpanOf;
    TwoMessages(first, second, both, one);
    var comps := [both, one];
    assert Spans([first, second], comps[0], 1) && Spans([first, second], comps[1], 1);
  }

  lemma TwoMessages(first: Message, second: Message, both: Compaction, one: Compaction)
    requires first.id == "a" && second.id == "b"
    requires both.firstId == "a" && both.lastId == "b" && one.firstId == "b" && one.lastId == "b"
    ensures SpanOf([first, second], both) == Some(Span(0, 1)) && SpanOf([first, second], one) == Some(Span(1, 1))
  {
    PositionsPush([], first);
    PositionsPush([first], second);
    assert [] + [first] == [first] && [first] + [second] == [first, second];
  }
}
