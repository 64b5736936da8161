/** The active path of a reachable log. */
module ReachablePath {
  import opened Protocol
  import opened History
  import opened Slots
  import opened ActivePath
  import opened PathFacts
  import opened ReachableLog

  /** Everything on the path but the skill notes. */
  predicate IsRecord(item: PathItem) { !item.Note? }

  predicate IsDigest(item: PathItem) { item.Digest? }

  function AllDigests(comps: seq<Compaction>): seq<PathItem> {
    seq(|comps|, i requires 0 <= i < |comps| => Digest(comps[i]))
  }

  /** The path items of the messages from position `from` up to `to`. */
  function ItemsBetween(log: seq<Entry>, from: nat, to: nat): (r: seq<PathItem>)
    requires from <= to <= |Messages(log)|
    ensures |r| == to - from
  {
    seq(to - from, i requires 0 <= i < to - from =>
      Item(SkillCalls(Messages(log)), SkillNames(log), Messages(log)[from + i]))
  }

  lemma ItemsAreMessages(log: seq<Entry>, from: nat, to: nat)
    requires from <= to <= |Messages(log)|
    ensures forall i :: 0 <= i < to - from ==> IsMessage(ItemsBetween(log, from, to)[i])
  {
    forall i | 0 <= i < to - from ensures IsMessage(ItemsBetween(log, from, to)[i]) {
      var item := Item(SkillCalls(Messages(log)), SkillNames(log), Messages(log)[from + i]);
      assert ItemsBetween(log, from, to)[i] == item && IsMessage(item);
    }
  }

  /** The summaries of the blocks that begin before `p`, in log order. */
  function Begun(msgs: seq<Message>, comps: seq<Compaction>, p: nat): seq<PathItem> {
    if comps == [] then []
    else
      var span := SpanOf(msgs, comps[|comps| - 1]);
      Begun(msgs, comps[..|comps| - 1], p)
      + (if span.Some? && span.value.lo < p then [Digest(comps[|comps| - 1])] else [])
  }

  lemma {:induction false} NoneBeginsPast(msgs: seq<Message>, comps: seq<Compaction>, p: nat)
    requires Tiled(msgs, comps) && Frontier(msgs, comps) <= p
    ensures DigestsAt(msgs, comps, p) == []
  {
    if comps != [] {
      FrontierOfTiled(msgs, comps);
      NoneBeginsPast(msgs, comps[..|comps| - 1], p);
    }
  }

  lemma {:induction false} BegunNext(msgs: seq<Message>, comps: seq<Compaction>, p: nat)
    requires Tiled(msgs, comps)
    ensures Begun(msgs, comps, p + 1) == Begun(msgs, comps, p) + DigestsAt(msgs, comps, p)
  {
    if comps != [] {
      var init := comps[..|comps| - 1];
      BegunNext(msgs, init, p);
      if SpanOf(msgs, comps[|comps| - 1]).value.lo <= p {
        NoneBeginsPast(msgs, init, p);
      }
    }
  }

  lemma {:induction false} NothingBegun(msgs: seq<Message>, comps: seq<Compaction>)
    ensures Begun(msgs, comps, 0) == []
  {
    if comps != [] { NothingBegun(msgs, comps[..|comps| - 1]); }
  }

  lemma {:induction false} AllBegun(msgs: seq<Message>, comps: seq<Compaction>, p: nat)
    requires Tiled(msgs, comps) && p >= |msgs|
    ensures Begun(msgs, comps, p) == AllDigests(comps)
  {
    if comps != [] {
      AllBegun(msgs, comps[..|comps| - 1], p);
      assert AllDigests(comps) == AllDigests(comps[..|comps| - 1]) + [Digest(comps[|comps| - 1])];
    }
  }

  function RecordSlot(log: seq<Entry>, p: nat): seq<PathItem> {
    DigestsAt(Messages(log), Compactions(log), p) + MessagesAt(log, p)
  }

  function RecordSlots(log: seq<Entry>, n: nat): seq<seq<PathItem>> {
    seq(n, p requires 0 <= p => RecordSlot(log, p))
  }

  lemma SlotRecords(log: seq<Entry>, p: nat)
    ensures Filtered(Slot(log, p), IsRecord) == RecordSlot(log, p)
  {
    hide DigestsAt, NotesAt, MessageAt;
    var d, n, m := DigestsAt(Messages(log), Compactions(log), p), NotesAt(ActiveSkills(log), p), MessagesAt(log, p);
    DigestsAreDigests(Messages(log), Compactions(log), p);
    NotesAreNotes(ActiveSkills(log), p);
    MessagesAreMessages(log, p);
    assert Slot(log, p) == d + (n + m);
    FilterParts(d, n, m, IsRecord);
    FilterAll(d, IsRecord);
    FilterNone(n, IsRecord);
    FilterAll(m, IsRecord);
    assert d + ([] + m) == d + m;
  }

  lemma MessagesAtTiled(log: seq<Entry>, p: nat)
    requires Tiled(Messages(log), Compactions(log))
    ensures MessagesAt(log, p)
         == if Frontier(Messages(log), Compactions(log)) <= p < |Messages(log)|
            then [Item(SkillCalls(Messages(log)), SkillNames(log), Messages(log)[p])] else []
  {
    CoveredIsPrefix(Messages(log), Compactions(log), p);
  }

  lemma {:induction false} RecordsUpTo(log: seq<Entry>, p: nat)
    requires Tiled(Messages(log), Compactions(log)) && p <= |Messages(log)|
    ensures var msgs, comps := Messages(log), Compactions(log);
            var f := Frontier(msgs, comps);
            Flat(RecordSlots(log, p)) == Begun(msgs, comps, p) + (if p <= f then [] else ItemsBetween(log, f, p))
  {
    hide Tiled, Begun, DigestsAt, Frontier, MessagesAt, RecordSlot, ItemsBetween, RecordSlots, Flat;
    var msgs, comps := Messages(log), Compactions(log);
    var f := Frontier(msgs, comps);
    if p == 0 {
      NothingBegun(msgs, comps);
      NoRecords(log);
    } else {
      RecordsUpTo(log, p - 1);
      RecordSlotsNext(log, p - 1);
      BegunNext(msgs, comps, p - 1);
      if p <= f {
        RecordBefore(log, p - 1);
      } else {
        RecordPast(log, p - 1);
        var items := if p - 1 <= f then [] else ItemsBetween(log, f, p - 1);
        Assoc(Begun(msgs, comps, p - 1), items, RecordSlot(log, p - 1));
      }
    }
  }

  lemma NoRecords(log: seq<Entry>)
    ensures Flat(RecordSlots(log, 0)) == []
  {
  }

  lemma RecordSlotsNext(log: seq<Entry>, p: nat)
    ensures Flat(RecordSlots(log, p + 1)) == Flat(RecordSlots(log, p)) + RecordSlot(log, p)
  {
    assert RecordSlots(log, p + 1) == RecordSlots(log, p) + [RecordSlot(log, p)];
    FlatPush(RecordSlots(log, p), RecordSlot(log, p));
  }

  lemma RecordBefore(log: seq<Entry>, p: nat)
    requires Tiled(Messages(log), Compactions(log))
    requires p < Frontier(Messages(log), Compactions(log))
    ensures RecordSlot(log, p) == DigestsAt(Messages(log), Compactions(log), p)
  {
    MessagesAtTiled(log, p);
  }

  lemma RecordPast(log: seq<Entry>, p: nat)
    requires Tiled(Messages(log), Compactions(log))
    requires Frontier(Messages(log), Compactions(log)) <= p < |Messages(log)|
    ensures var f := Frontier(Messages(log), Compactions(log));
            && DigestsAt(Messages(log), Compactions(log), p) == []
            && RecordSlot(log, p) == [Item(SkillCalls(Messages(log)), SkillNames(log), Messages(log)[p])]
            && ItemsBetween(log, f, p + 1) == ItemsBetween(log, f, p) + RecordSlot(log, p)
            && ItemsBetween(log, f, f) == []
  {
    hide Tiled, Frontier, DigestsAt, MessagesAt, Item, SkillCalls, SkillNames, Messages, Compactions;
    NoneBeginsPast(Messages(log), Compactions(log), p);
    MessagesAtTiled(log, p);
    ItemsNext(log, Frontier(Messages(log), Compactions(log)), p);
  }

  lemma ItemsNext(log: seq<Entry>, f: nat, p: nat)
    requires f <= p < |Messages(log)|
    ensures ItemsBetween(log, f, p + 1)
         == ItemsBetween(log, f, p) + [Item(SkillCalls(Messages(log)), SkillNames(log), Messages(log)[p])]
    ensures ItemsBetween(log, f, f) == []
  {
    hide Item, Messages;
  }

  /** Skill notes aside, the path of a reachable log is one summary per compaction entry, in order,
      followed by every message after the last compacted block. */
  lemma PathOfTiled(log: seq<Entry>)
    requires Tiled(Messages(log), Compactions(log))
    ensures Frontier(Messages(log), Compactions(log)) <= |Messages(log)|
    ensures Filtered(Path(log), IsRecord)
         == AllDigests(Compactions(log))
            + ItemsBetween(log, Frontier(Messages(log), Compactions(log)), |Messages(log)|)
  {
    hide Tiled, Begun, DigestsAt, Frontier, RecordSlot, Slot, Flat;
    var msgs, comps := Messages(log), Compactions(log);
    var n := |msgs|;
    FrontierOfTiled(msgs, comps);
    forall p | 0 <= p <= n ensures RecordSlots(log, n + 1)[p] == Filtered(PathSlots(log)[p], IsRecord) {
      SlotRecords(log, p);
    }
    FlatFilter(PathSlots(log), RecordSlots(log, n + 1), IsRecord);
    RecordSlotsNext(log, n);
    LastSlotEmpty(log);
    RecordsUpTo(log, n);
    AllBegun(msgs, comps, n);
    if Frontier(msgs, comps) == n {
      assert ItemsBetween(log, n, n) == [];
    }
  }

  lemma LastSlotEmpty(log: seq<Entry>)
    requires Tiled(Messages(log), Compactions(log))
    ensures RecordSlot(log, |Messages(log)|) == []
  {
    FrontierOfTiled(Messages(log), Compactions(log));
    NoneBeginsPast(Messages(log), Compactions(log), |Messages(log)|);
  }

  // ---------------------------------------------------------------- calls and results stay together

  /** The item at `t` answers call number `t - a - 1` of the assistant message at `a`, and nothing but results of
      the same turn stands between them; so both are of one run. */
  ghost predicate AnswersOnPath(items: seq<PathItem>, a: int, t: int) {
    && 0 <= a < t < |items|
    && IsMessage(items[a]) && items[a].message.role == Assistant
    && (forall k :: a < k <= t ==> IsMessage(items[k]) && items[k].message.role == Tool)
    && t - a - 1 < |CallsOf(items[a].message.body)|
    && items[t].message.toolCallId == Some(CallsOf(items[a].message.body)[t - a - 1].id)
  }

  /** Which records the path of a tiled log holds, index by index. */
  lemma RecordAtIndex(log: seq<Entry>, t: nat)
    requires Tiled(Messages(log), Compactions(log))
    ensures var msgs, comps := Messages(log), Compactions(log);
            var f, records := Frontier(msgs, comps), Filtered(Path(log), IsRecord);
            && f <= |msgs| && |records| == |comps| + |msgs| - f
            && (t < |comps| ==> records[t] == Digest(comps[t]))
            && (|comps| <= t < |records| ==>
                records[t] == Item(SkillCalls(msgs), SkillNames(log), msgs[f + (t - |comps|)]))
  {
    hide Path, Filtered, Frontier, Tiled;
    PathOfTiled(log);
  }

  /** What stands on the path past the summaries are the messages past the frontier. */
  lemma RecordIsMessage(log: seq<Entry>, t: nat)
    requires Tiled(Messages(log), Compactions(log)) && t < |Filtered(Path(log), IsRecord)|
    ensures var msgs, comps := Messages(log), Compactions(log);
            var f, records := Frontier(msgs, comps), Filtered(Path(log), IsRecord);
            && f <= |msgs| && |records| == |comps| + |msgs| - f
            && (IsMessage(records[t]) <==> |comps| <= t)
            && (|comps| <= t ==> records[t].message == msgs[f + (t - |comps|)])
  {
    hide Path, Filtered, Frontier, Tiled, SkillCalls, SkillNames, Messages, Compactions;
    RecordAtIndex(log, t);
  }

  lemma SameAnswer(msgs: seq<Message>, records: seq<PathItem>, a: int, q: int, b: nat)
    requires AnswersAt(msgs, a, q) && b + (q - a) < |records|
    requires forall k :: b <= k <= b + (q - a) ==> IsMessage(records[k]) && records[k].message == msgs[a + (k - b)]
    ensures AnswersOnPath(records, b, b + (q - a))
  {
    hide CallsOf;
  }

  /** In every reachable log, each tool result on the path stands in its own turn: the assistant message that asked
      for it comes before it, at the distance of its call, with only results of that turn between. */
  lemma ResultsKeepTheirCalls(log: seq<Entry>, t: nat)
    requires Reachable(log)
    requires t < |Filtered(Path(log), IsRecord)|
    requires IsMessage(Filtered(Path(log), IsRecord)[t]) && Filtered(Path(log), IsRecord)[t].message.role == Tool
    ensures exists a :: AnswersOnPath(Filtered(Path(log), IsRecord), a, t)
  {
    hide Path, Filtered, Frontier, Tiled, Linked, DistinctIds, Reachable, SkillCalls, CallsOf, Item, SkillNames;
    hide Messages, Compactions, AnswersOnPath;
    ReachableIsSound(log);
    var msgs, comps := Messages(log), Compactions(log);
    var f, records := Frontier(msgs, comps), Filtered(Path(log), IsRecord);
    RecordIsMessage(log, t);
    var q := f + (t - |comps|);
    var a :| AnswersAt(msgs, a, q);
    FrontierIsDeveloper(msgs, comps);
    assert a >= f;
    var b := |comps| + (a - f);
    forall k | b <= k <= t ensures IsMessage(records[k]) && records[k].message == msgs[f + (k - |comps|)] {
      RecordIsMessage(log, k);
    }
    SameAnswer(msgs, records, a, q, b);
  }

  lemma FrontierIsDeveloper(msgs: seq<Message>, comps: seq<Compaction>)
    requires Tiled(msgs, comps)
    ensures Frontier(msgs, comps) <= |msgs|
    ensures Frontier(msgs, comps) > 0 ==> msgs[Frontier(msgs, comps) - 1].role == Developer
  {
  }
}
