/** What the active path of any log holds: which skills, and how many items. */
module PathFacts {
  import opened Protocol
  import opened History
  import opened Slots
  import opened ActivePath

  predicate IsNote(item: PathItem) { item.Note? }

  predicate IsMessage(item: PathItem) { item.Kept? || item.Pointer? }

  predicate IsAside(item: PathItem) { !IsMessage(item) }

  lemma {:induction false} FilterAll<T>(s: seq<T>, keep: T -> bool)
    requires forall i :: 0 <= i < |s| ==> keep(s[i])
    ensures Filtered(s, keep) == s
  {
    if s != [] { FilterAll(s[..|s| - 1], keep); }
  }

  lemma {:induction false} FilterNone<T>(s: seq<T>, keep: T -> bool)
    requires forall i :: 0 <= i < |s| ==> !keep(s[i])
    ensures Filtered(s, keep) == []
  {
    if s != [] { FilterNone(s[..|s| - 1], keep); }
  }

  lemma {:induction false} NotesAreNotes(skills: seq<Active>, p: nat)
    ensures forall i :: 0 <= i < |NotesAt(skills, p)| ==> NotesAt(skills, p)[i].Note?
  {
    if skills != [] { NotesAreNotes(skills[..|skills| - 1], p); }
  }

  lemma {:induction false} DigestsAreDigests(msgs: seq<Message>, comps: seq<Compaction>, p: nat)
    ensures forall i :: 0 <= i < |DigestsAt(msgs, comps, p)| ==> DigestsAt(msgs, comps, p)[i].Digest?
  {
    if comps != [] { DigestsAreDigests(msgs, comps[..|comps| - 1], p); }
  }

  function MessagesAt(log: seq<Entry>, p: nat): seq<PathItem> {
    if p < |Messages(log)| then MessageAt(log, p) else []
  }

  lemma MessagesAreMessages(log: seq<Entry>, p: nat)
    ensures forall i :: 0 <= i < |MessagesAt(log, p)| ==> IsMessage(MessagesAt(log, p)[i])
  {
  }

  /** Each slot, taken apart: the notes, the messages, and what is not a message. */
  lemma SlotParts(log: seq<Entry>, p: nat)
    ensures Filtered(Slot(log, p), IsNote) == NotesAt(ActiveSkills(log), p)
    ensures Filtered(Slot(log, p), IsMessage) == MessagesAt(log, p)
    ensures Filtered(Slot(log, p), IsAside)
         == DigestsAt(Messages(log), Compactions(log), p) + NotesAt(ActiveSkills(log), p)
  {
    hide DigestsAt, NotesAt, MessageAt;
    var d, n, m := DigestsAt(Messages(log), Compactions(log), p), NotesAt(ActiveSkills(log), p), MessagesAt(log, p);
    DigestsAreDigests(Messages(log), Compactions(log), p);
    NotesAreNotes(ActiveSkills(log), p);
    MessagesAreMessages(log, p);
    assert Slot(log, p) == d + (n + m);
    FilterParts(d, n, m, IsNote);
    FilterParts(d, n, m, IsMessage);
    FilterParts(d, n, m, IsAside);
    FilterNone(d, IsNote); FilterAll(n, IsNote); FilterNone(m, IsNote);
    FilterNone(d, IsMessage); FilterNone(n, IsMessage); FilterAll(m, IsMessage);
    FilterAll(d, IsAside); FilterAll(n, IsAside); FilterNone(m, IsAside);
    assert [] + (n + []) == n && [] + ([] + m) == m && d + (n + []) == d + n;
  }

  lemma FilterParts<T>(a: seq<T>, b: seq<T>, c: seq<T>, keep: T -> bool)
    ensures Filtered(a + (b + c), keep) == Filtered(a, keep) + (Filtered(b, keep) + Filtered(c, keep))
  {
    FilteredConcat(b, c, keep);
    FilteredConcat(a, b + c, keep);
  }

  // ---------------------------------------------------------------- skills on the path

  function NotesFor(skills: seq<Active>): seq<PathItem> {
    seq(|skills|, i requires 0 <= i < |skills| => Note(skills[i].name, skills[i].content))
  }

  function NoteSlots(skills: seq<Active>, n: nat): seq<seq<PathItem>> {
    seq(n, p requires 0 <= p => NotesAt(skills, p))
  }

  lemma {:induction false} SeenInOrder(log: seq<Entry>)
    ensures forall i, j :: 0 <= i < j < |ActiveSkills(log)| ==> ActiveSkills(log)[i].seen <= ActiveSkills(log)[j].seen
    ensures forall i :: 0 <= i < |ActiveSkills(log)| ==> ActiveSkills(log)[i].seen <= |Messages(log)|
  {
    if log != [] {
      SeenInOrder(log[..|log| - 1]);
      ActivatedBeforeNow(log);
    }
  }

  lemma {:induction false} FlatEmpty<T>(slots: seq<seq<T>>)
    requires forall p :: 0 <= p < |slots| ==> slots[p] == []
    ensures Flat(slots) == []
  {
    if slots != [] { FlatEmpty(slots[..|slots| - 1]); }
  }

  lemma FlatGrowAt<T>(slots: seq<seq<T>>, s: nat, x: T)
    requires s < |slots|
    requires forall p :: s < p < |slots| ==> slots[p] == []
    ensures Flat(slots[s := slots[s] + [x]]) == Flat(slots) + [x]
  {
    var grown := slots[s := slots[s] + [x]];
    FlatSplit(slots, s + 1);
    FlatSplit(grown, s + 1);
    assert grown[s + 1..] == slots[s + 1..];
    FlatEmpty(slots[s + 1..]);
    assert grown[..s + 1] == slots[..s + 1][s := slots[..s + 1][s] + [x]];
    FlatGrow(slots[..s + 1], x);
    assert Flat(grown[..s + 1]) + [] == Flat(slots[..s + 1]) + [x];
  }

  /** The note of the latest skill goes last in its slot, past which there is none yet. */
  lemma OneMoreNote(skills: seq<Active>, a: Active, n: nat)
    requires a.seen < n && forall i :: 0 <= i < |skills| ==> skills[i].seen <= a.seen
    ensures var slots := NoteSlots(skills, n);
            && NoteSlots(skills + [a], n) == slots[a.seen := slots[a.seen] + [Note(a.name, a.content)]]
            && forall p :: a.seen < p < n ==> slots[p] == []
  {
    hide NotesAt;
    var slots, grown := NoteSlots(skills, n), NoteSlots(skills + [a], n);
    forall p: nat | p < n ensures grown[p] == if p == a.seen then slots[p] + [Note(a.name, a.content)] else slots[p] {
      NotesPush(skills, a, p);
    }
    forall p | a.seen < p < n ensures slots[p] == [] {
      NotesOutside(skills, p);
    }
  }

  lemma NotesPush(skills: seq<Active>, a: Active, p: nat)
    ensures NotesAt(skills + [a], p)
         == if a.seen == p then NotesAt(skills, p) + [Note(a.name, a.content)] else NotesAt(skills, p)
  {
    assert (skills + [a])[..|skills|] == skills;
    assert NotesAt(skills, p) + [] == NotesAt(skills, p);
  }

  lemma {:induction false} NotesLaidOut(skills: seq<Active>, n: nat)
    requires forall i :: 0 <= i < |skills| ==> skills[i].seen < n
    requires forall i, j :: 0 <= i < j < |skills| ==> skills[i].seen <= skills[j].seen
    ensures Flat(NoteSlots(skills, n)) == NotesFor(skills)
  {
    hide Flat;
    if skills == [] {
      FlatEmpty(NoteSlots(skills, n));
    } else {
      var init, a := skills[..|skills| - 1], skills[|skills| - 1];
      var note := Note(a.name, a.content);
      var slots := NoteSlots(init, n);
      NotesLaidOut(init, n);
      OneMoreNote(init, a, n);
      assert skills == init + [a];
      FlatGrowAt(slots, a.seen, note);
      assert NotesFor(skills) == NotesFor(init) + [note];
    }
  }

  /** For every log, whatever is compacted, the skill notes of the path are exactly the recovered skills:
      one per activated name, with its latest content, in order of first activation. */
  lemma SkillsSurvive(log: seq<Entry>)
    ensures Filtered(Path(log), IsNote) == NotesFor(ActiveSkills(log))
  {
    var n := |Messages(log)| + 1;
    forall p | 0 <= p < n ensures NoteSlots(ActiveSkills(log), n)[p] == Filtered(PathSlots(log)[p], IsNote) {
      SlotParts(log, p);
    }
    FlatFilter(PathSlots(log), NoteSlots(ActiveSkills(log), n), IsNote);
    SeenInOrder(log);
    NotesLaidOut(ActiveSkills(log), n);
  }

  // ---------------------------------------------------------------- size of the path

  /** Uncovered messages before position `k`. */
  function Uncovered(msgs: seq<Message>, comps: seq<Compaction>, k: nat): nat {
    if k == 0 then 0
    else Uncovered(msgs, comps, k - 1) + (if Covered(msgs, comps, k - 1) then 0 else 1)
  }

  /** Compaction entries whose block begins before position `k`. */
  function StartedBefore(msgs: seq<Message>, comps: seq<Compaction>, k: nat): nat {
    if comps == [] then 0
    else
      var span := SpanOf(msgs, comps[|comps| - 1]);
      StartedBefore(msgs, comps[..|comps| - 1], k) + (if span.Some? && span.value.lo < k then 1 else 0)
  }

  lemma {:induction false} StartedCounts(msgs: seq<Message>, comps: seq<Compaction>, k: nat)
    ensures StartedBefore(msgs, comps, k + 1) == StartedBefore(msgs, comps, k) + |DigestsAt(msgs, comps, k)|
    ensures StartedBefore(msgs, comps, 0) == 0
    ensures k >= |msgs| ==> StartedBefore(msgs, comps, k) == Resolvable(msgs, comps)
  {
    if comps != [] { StartedCounts(msgs, comps[..|comps| - 1], k); }
  }

  /** Laying out one more slot. */
  lemma PathSlotsNext(log: seq<Entry>, k: nat)
    requires k <= |Messages(log)|
    ensures |Flat(PathSlots(log)[..k + 1])| == |Flat(PathSlots(log)[..k])| + |Slot(log, k)|
  {
    hide Slot, Flat;
    assert PathSlots(log)[..k + 1] == PathSlots(log)[..k] + [Slot(log, k)];
    FlatPush(PathSlots(log)[..k], Slot(log, k));
  }

  lemma NoteSlotsNext(skills: seq<Active>, k: nat)
    ensures |Flat(NoteSlots(skills, k + 1))| == |Flat(NoteSlots(skills, k))| + |NotesAt(skills, k)|
  {
    assert NoteSlots(skills, k + 1) == NoteSlots(skills, k) + [NotesAt(skills, k)];
    FlatPush(NoteSlots(skills, k), NotesAt(skills, k));
  }

  lemma SlotSize(log: seq<Entry>, k: nat)
    ensures |Slot(log, k)| == |DigestsAt(Messages(log), Compactions(log), k)| + |NotesAt(ActiveSkills(log), k)|
      + (if k < |Messages(log)| && !Covered(Messages(log), Compactions(log), k) then 1 else 0)
  {
  }

  lemma {:induction false} PathLengthUpTo(log: seq<Entry>, k: nat)
    requires k <= |Messages(log)|
    ensures |Flat(PathSlots(log)[..k])|
         == Uncovered(Messages(log), Compactions(log), k)
            + StartedBefore(Messages(log), Compactions(log), k)
            + |Flat(NoteSlots(ActiveSkills(log), k))|
  {
    hide Slot, PathSlots, NoteSlots, DigestsAt, NotesAt, StartedBefore, Covered;
    StartedCounts(Messages(log), Compactions(log), 0);
    if k > 0 {
      PathLengthUpTo(log, k - 1);
      StartedCounts(Messages(log), Compactions(log), k - 1);
      PathSlotsNext(log, k - 1);
      NoteSlotsNext(ActiveSkills(log), k - 1);
      SlotSize(log, k - 1);
    } else {
      NoSlots(log);
    }
  }

  lemma NoSlots(log: seq<Entry>)
    ensures Flat(PathSlots(log)[..0]) == [] && Flat(NoteSlots(ActiveSkills(log), 0)) == []
  {
  }

  /** For every log, even with overlapping, reversed or dangling ranges: one item per uncovered message,
      per compaction entry with both ends in the log, and per distinct activated skill. */
  lemma PathLength(log: seq<Entry>)
    ensures |Path(log)| == Uncovered(Messages(log), Compactions(log), |Messages(log)|)
                           + Resolvable(Messages(log), Compactions(log)) + |ActiveSkills(log)|
  {
    hide Slot, NoteSlots, DigestsAt, NotesAt, StartedBefore, Covered, Uncovered, Resolvable;
    var n := |Messages(log)|;
    PathLengthUpTo(log, n);
    PathSlotsNext(log, n);
    assert PathSlots(log)[..n + 1] == PathSlots(log);
    NoteSlotsNext(ActiveSkills(log), n);
    SlotSize(log, n);
    StartedCounts(Messages(log), Compactions(log), n);
    StartedCounts(Messages(log), Compactions(log), n + 1);
    SeenInOrder(log);
    NotesLaidOut(ActiveSkills(log), n + 1);
  }
}
