/** What one more compaction entry does to the active path and to its token estimate. */
module CompactionEffect {
  import opened Protocol
  import opened History
  import opened Slots
  import opened ActivePath
  import opened PathFacts
  import opened ReachableLog
  import opened ReachablePath
  import opened Budget

  /** The part of the path in the slots `from..to`. */
  function Part(log: seq<Entry>, from: nat, to: nat): seq<PathItem>
    requires from <= to <= |Messages(log)| + 1
  {
    Flat(PathSlots(log)[from..to])
  }

  lemma FlatConcat<T>(a: seq<seq<T>>, b: seq<seq<T>>)
    ensures Flat(a + b) == Flat(a) + Flat(b)
  {
    FlatSplit(a + b, |a|);
    assert (a + b)[..|a|] == a && (a + b)[|a|..] == b;
  }

  lemma PathInParts(log: seq<Entry>, a: nat, b: nat)
    requires a <= b <= |Messages(log)| + 1
    ensures Path(log) == Part(log, 0, a) + Part(log, a, b) + Part(log, b, |Messages(log)| + 1)
  {
    hide Slot, Flat;
    var slots := PathSlots(log);
    assert slots == slots[0..a] + slots[a..b] + slots[b..|slots|];
    FlatConcat(slots[0..a] + slots[a..b], slots[b..|slots|]);
    FlatConcat(slots[0..a], slots[a..b]);
  }

  /** The new entry's block: none of its messages was covered before. */
  ghost predicate CompactsFresh(log: seq<Entry>, c: Compaction, a: nat, b: nat) {
    && SpanOf(Messages(log), c) == Some(Span(a, b))
    && forall p :: a <= p <= b ==> !Covered(Messages(log), Compactions(log), p)
  }

  lemma MessagesAtCompacted(log: seq<Entry>, c: Compaction, a: nat, b: nat, p: nat)
    requires CompactsFresh(log, c, a, b)
    ensures MessagesAt(log + [CompactionEntry(c)], p) == if a <= p <= b then [] else MessagesAt(log, p)
  {
    Appended(log, CompactionEntry(c));
    CoveredByOneMore(Messages(log), Compactions(log), c);
  }

  lemma SlotCompacted(log: seq<Entry>, c: Compaction, a: nat, b: nat, p: nat)
    requires CompactsFresh(log, c, a, b)
    ensures Slot(log + [CompactionEntry(c)], p) ==
      (if p == a then [Digest(c)] else []) + (if a <= p <= b then Filtered(Slot(log, p), IsAside) else Slot(log, p))
  {
    hide DigestsAt, NotesAt, MessageAt, Covered, MessagesAt, Messages, Compactions, SpanOf;
    var log' := log + [CompactionEntry(c)];
    Appended(log, CompactionEntry(c));
    var d, n, m := DigestsAt(Messages(log), Compactions(log), p), NotesAt(ActiveSkills(log), p), MessagesAt(log, p);
    var x := if p == a then [Digest(c)] else [];
    assert MessagesAt(log', p) == if a <= p <= b then [] else m by { MessagesAtCompacted(log, c, a, b, p); }
    assert DigestsAt(Messages(log'), Compactions(log'), p) == x + d by {
      DigestsPush(Messages(log), Compactions(log), c, p);
    }
    SlotIs(log, p);
    SlotIs(log', p);
    SlotParts(log, p);
    Assoc(x, d, n + MessagesAt(log', p));
    assert n + [] == n;
  }

  lemma SlotIs(log: seq<Entry>, p: nat)
    ensures Slot(log, p)
         == DigestsAt(Messages(log), Compactions(log), p) + (NotesAt(ActiveSkills(log), p) + MessagesAt(log, p))
  {
  }

  lemma SlotsCompacted(log: seq<Entry>, c: Compaction, a: nat, b: nat)
    requires CompactsFresh(log, c, a, b)
    ensures |PathSlots(log + [CompactionEntry(c)])| == |PathSlots(log)| == |Messages(log)| + 1
    ensures forall p :: 0 <= p < |PathSlots(log)| ==>
      PathSlots(log + [CompactionEntry(c)])[p] ==
        if p == a then [Digest(c)] + Filtered(PathSlots(log)[p], IsAside)
        else if a < p <= b then Filtered(PathSlots(log)[p], IsAside) else PathSlots(log)[p]
  {
    hide Slot, Filtered, Covered;
    var n, log' := |Messages(log)|, log + [CompactionEntry(c)];
    Appended(log, CompactionEntry(c));
    forall p | 0 <= p <= n
      ensures Slot(log', p) ==
        if p == a then [Digest(c)] + Filtered(Slot(log, p), IsAside)
        else if a < p <= b then Filtered(Slot(log, p), IsAside) else Slot(log, p)
    {
      SlotCompacted(log, c, a, b, p);
      assert [] + Slot(log, p) == Slot(log, p);
      assert [] + Filtered(Slot(log, p), IsAside) == Filtered(Slot(log, p), IsAside);
    }
  }

  lemma PartKept(log: seq<Entry>, c: Compaction, a: nat, b: nat, from: nat, to: nat)
    requires CompactsFresh(log, c, a, b)
    requires from <= to <= |Messages(log)| + 1 && (to <= a || b < from)
    ensures Messages(log + [CompactionEntry(c)]) == Messages(log)
    ensures Part(log + [CompactionEntry(c)], from, to) == Part(log, from, to)
  {
    hide PathSlots, Flat, Filtered, Covered, Messages;
    Appended(log, CompactionEntry(c));
    SlotsCompacted(log, c, a, b);
    assert PathSlots(log + [CompactionEntry(c)])[from..to] == PathSlots(log)[from..to];
  }

  /** The slots of the block lose their messages, and the first gains the summary. */
  lemma PartCompacted(log: seq<Entry>, c: Compaction, a: nat, b: nat)
    requires CompactsFresh(log, c, a, b)
    ensures Messages(log + [CompactionEntry(c)]) == Messages(log)
    ensures Part(log + [CompactionEntry(c)], a, b + 1) == [Digest(c)] + Filtered(Part(log, a, b + 1), IsAside)
  {
    hide PathSlots, Flat, Filtered, Messages;
    Appended(log, CompactionEntry(c));
    SlotsCompacted(log, c, a, b);
    var block := PathSlots(log)[a..b + 1];
    var quiet := seq(|block|, i requires 0 <= i < |block| => Filtered(block[i], IsAside));
    FlatFilter(block, quiet, IsAside);
    assert PathSlots(log + [CompactionEntry(c)])[a..b + 1] == quiet[0 := [Digest(c)] + quiet[0]];
    FrontInsert(quiet, Digest(c));
  }

  lemma FrontInsert<T>(slots: seq<seq<T>>, x: T)
    requires slots != []
    ensures Flat(slots[0 := [x] + slots[0]]) == [x] + Flat(slots)
  {
    FlatInsert(slots, 0, x);
    assert slots[..0] == [];
    var all := Flat(slots);
    assert all[..0] + [x] + all[0..] == [x] + all;
  }

  lemma FlatNone<T>()
    ensures Flat<T>([]) == []
  {
  }

  lemma {:induction false} BlockMessages(log: seq<Entry>, a: nat, b: nat)
    requires a <= b <= |Messages(log)|
    requires forall p :: a <= p < b ==> !Covered(Messages(log), Compactions(log), p)
    ensures Filtered(Part(log, a, b), IsMessage) == ItemsBetween(log, a, b)
  {
    hide Slot, Flat, Filtered, Covered, MessageAt;
    if a == b {
      FlatNone<PathItem>();
      FilterNone<PathItem>([], IsMessage);
      assert PathSlots(log)[a..b] == [];
    } else {
      BlockMessages(log, a, b - 1);
      assert PathSlots(log)[a..b] == PathSlots(log)[a..b - 1] + [Slot(log, b - 1)];
      FlatPush(PathSlots(log)[a..b - 1], Slot(log, b - 1));
      FilteredConcat(Part(log, a, b - 1), Slot(log, b - 1), IsMessage);
      SlotParts(log, b - 1);
      ItemsNext(log, a, b - 1);
      FreshMessage(log, b - 1);
    }
  }

  lemma FreshMessage(log: seq<Entry>, p: nat)
    requires p < |Messages(log)| && !Covered(Messages(log), Compactions(log), p)
    ensures MessagesAt(log, p) == [Item(SkillCalls(Messages(log)), SkillNames(log), Messages(log)[p])]
  {
  }

  /** Appending a compaction entry over uncovered messages deletes exactly those messages from the path and
      puts one summary where their block began; every other item keeps its place in the order. */
  lemma CompactionChangesOnlyItsBlock(log: seq<Entry>, c: Compaction, a: nat, b: nat)
    requires CompactsFresh(log, c, a, b)
    ensures var n := |Messages(log)|;
            && Path(log) == Part(log, 0, a) + Part(log, a, b + 1) + Part(log, b + 1, n + 1)
            && Path(log + [CompactionEntry(c)])
               == Part(log, 0, a) + ([Digest(c)] + Filtered(Part(log, a, b + 1), IsAside)) + Part(log, b + 1, n + 1)
            && Filtered(Part(log, a, b + 1), IsMessage) == ItemsBetween(log, a, b + 1)
  {
    hide Path, Part, Filtered, ItemsBetween, Covered, Messages, Compactions;
    CompactedInParts(log, c, a, b);
    PathInParts(log, a, b + 1);
    BlockMessages(log, a, b + 1);
  }

  lemma CompactedInParts(log: seq<Entry>, c: Compaction, a: nat, b: nat)
    requires CompactsFresh(log, c, a, b)
    ensures Path(log + [CompactionEntry(c)])
         == Part(log, 0, a) + ([Digest(c)] + Filtered(Part(log, a, b + 1), IsAside))
            + Part(log, b + 1, |Messages(log)| + 1)
  {
    hide Path, Part, Filtered, Covered, Messages, Compactions;
    var n := |Messages(log)|;
    PartKept(log, c, a, b, 0, a);
    PartKept(log, c, a, b, b + 1, n + 1);
    PartCompacted(log, c, a, b);
    PathInParts(log + [CompactionEntry(c)], a, b + 1);
  }

  // ---------------------------------------------------------------- tokens

  function Tokens(items: seq<PathItem>): nat {
    EstimateTokens(Mapped(items, Render))
  }

  lemma TokensConcat(a: seq<PathItem>, b: seq<PathItem>)
    ensures Tokens(a + b) == Tokens(a) + Tokens(b)
  {
    hide EstimateTokens, Render;
    EstimateConcat(Mapped(a, Render), Mapped(b, Render));
    assert Mapped(a + b, Render) == Mapped(a, Render) + Mapped(b, Render);
  }

  lemma {:induction false} TokensPartition(s: seq<PathItem>, keep: PathItem -> bool, drop: PathItem -> bool)
    requires forall x :: keep(x) <==> !drop(x)
    ensures Tokens(s) == Tokens(Filtered(s, keep)) + Tokens(Filtered(s, drop))
  {
    hide Tokens;
    if s == [] {
      TokensConcat(s, s);
      assert s + s == s;
    } else {
      var n := |s| - 1;
      var last := [s[n]];
      TokensPartition(s[..n], keep, drop);
      assert s == s[..n] + last;
      TokensConcat(s[..n], last);
      TokensConcat(Filtered(s[..n], keep), last);
      TokensConcat(Filtered(s[..n], drop), last);
      assert keep(s[n]) <==> !drop(s[n]);
      assert Filtered(s[..n], keep) + [] == Filtered(s[..n], keep);
      assert Filtered(s[..n], drop) + [] == Filtered(s[..n], drop);
    }
  }

  /** New tokens are the old tokens, less those of the replaced messages, plus those of the summary. */
  lemma CompactionTokens(log: seq<Entry>, c: Compaction, a: nat, b: nat)
    requires CompactsFresh(log, c, a, b)
    ensures Tokens(Path(log + [CompactionEntry(c)])) + Tokens(ItemsBetween(log, a, b + 1))
         == Tokens(Path(log)) + Tokens([Digest(c)])
  {
    hide Path, Part, Filtered, Tokens, ItemsBetween;
    var n := |Messages(log)|;
    CompactionChangesOnlyItsBlock(log, c, a, b);
    var pre, mid, post := Part(log, 0, a), Part(log, a, b + 1), Part(log, b + 1, n + 1);
    var quiet := Filtered(mid, IsAside);
    TokensPartition(mid, IsAside, IsMessage);
    TokensConcat(pre + mid, post);
    TokensConcat(pre, mid);
    TokensConcat(pre + ([Digest(c)] + quiet), post);
    TokensConcat(pre, [Digest(c)] + quiet);
    TokensConcat([Digest(c)], quiet);
  }

  /** On a reachable log a legal compaction leaves only summaries and skill notes on the path. */
  lemma CompactedPathTokens(log: seq<Entry>, c: Compaction)
    requires Reachable(log) && LegalCompaction(log, c)
    ensures Tokens(Path(log + [CompactionEntry(c)]))
         == Tokens(AllDigests(Compactions(log) + [c])) + Tokens(NotesFor(ActiveSkills(log)))
  {
    hide Path, Filtered, Tokens, Tiled, LegalCompaction, Sound, AllDigests;
    var log' := log + [CompactionEntry(c)];
    ReachableIsSound(log);
    TiledAfter(log, c);
    Appended(log, CompactionEntry(c));
    PathOfTiled(log');
    assert ItemsBetween(log', |Messages(log)|, |Messages(log)|) == [];
    SkillsSurvive(log');
    TokensPartition(Path(log'), IsRecord, IsNote);
    assert AllDigests(Compactions(log')) + [] == AllDigests(Compactions(log'));
  }

  lemma TiledAfter(log: seq<Entry>, c: Compaction)
    requires Sound(log) && LegalCompaction(log, c)
    ensures var log' := log + [CompactionEntry(c)];
            && Messages(log') == Messages(log)
            && Tiled(Messages(log'), Compactions(log'))
            && Frontier(Messages(log'), Compactions(log')) == |Messages(log)|
            && CompactsFresh(log, c, Frontier(Messages(log), Compactions(log)), |Messages(log)| - 1)
  {
    hide Covered, Linked, Answered, LegalCompaction, Tiled, Frontier, Messages, Compactions;
    Appended(log, CompactionEntry(c));
    TiledNext(log, c);
    var msgs, comps := Messages(log), Compactions(log);
    NewFrontier(msgs, comps, c);
    FreshPast(msgs, comps);
  }

  lemma NewFrontier(msgs: seq<Message>, comps: seq<Compaction>, c: Compaction)
    requires SpanOf(msgs, c).Some?
    ensures Frontier(msgs, comps + [c]) == SpanOf(msgs, c).value.hi + 1
  {
    hide SpanOf;
  }

  lemma FreshPast(msgs: seq<Message>, comps: seq<Compaction>)
    requires Tiled(msgs, comps)
    ensures forall p: nat :: Frontier(msgs, comps) <= p ==> !Covered(msgs, comps, p)
  {
    hide Covered, Tiled, Frontier;
    forall p: nat | Frontier(msgs, comps) <= p ensures !Covered(msgs, comps, p) {
      CoveredIsPrefix(msgs, comps, p);
    }
  }
}
