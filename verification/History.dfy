/** What a session log says, independently of how the readers walk it. */
module History {
  import opened Protocol

  function Messages(log: seq<Entry>): (r: seq<Message>)
    ensures |r| <= |log|
  {
    if log == [] then []
    else Messages(log[..|log| - 1]) +
         (if log[|log| - 1].MessageEntry? then [log[|log| - 1].message] else [])
  }

  function Compactions(log: seq<Entry>): seq<Compaction> {
    if log == [] then []
    else Compactions(log[..|log| - 1]) +
         (if log[|log| - 1].CompactionEntry? then [log[|log| - 1].compaction] else [])
  }

  function SkillNames(log: seq<Entry>): set<string> {
    if log == [] then {}
    else SkillNames(log[..|log| - 1]) +
         (if log[|log| - 1].SkillActivated? then {log[|log| - 1].skill.name} else {})
  }

  ghost predicate UniqueIds(msgs: seq<Message>) {
    forall i, j :: 0 <= i < j < |msgs| ==> msgs[i].id != msgs[j].id
  }

  /** The hash map from message id to chronological index; a later insertion replaces an earlier one. */
  function Positions(msgs: seq<Message>): (m: map<Id, nat>)
    ensures forall id :: id in m ==> m[id] < |msgs| && msgs[m[id]].id == id
    ensures forall i :: 0 <= i < |msgs| ==> msgs[i].id in m
  {
    if msgs == [] then map[]
    else Positions(msgs[..|msgs| - 1])[msgs[|msgs| - 1].id := |msgs| - 1]
  }

  function IdsOf(msgs: seq<Message>): (r: seq<Id>)
    ensures |r| == |msgs|
  {
    seq(|msgs|, p requires 0 <= p < |msgs| => msgs[p].id)
  }

  lemma PositionsPush(msgs: seq<Message>, m: Message)
    ensures Positions(msgs + [m]) == Positions(msgs)[m.id := |msgs|]
  {
    assert (msgs + [m])[..|msgs|] == msgs;
  }

  lemma IdsPush(msgs: seq<Message>, m: Message)
    ensures IdsOf(msgs + [m]) == IdsOf(msgs) + [m.id]
  {
  }

  datatype Span = Span(lo: nat, hi: nat)

  /** The block of message positions a compaction entry stands for, if both its ends are in the log. */
  function SpanOf(msgs: seq<Message>, c: Compaction): (r: Option<Span>)
    ensures r.Some? ==> r.value.lo <= r.value.hi < |msgs|
  {
    var m := Positions(msgs);
    if c.firstId in m && c.lastId in m then
      var a, b := m[c.firstId], m[c.lastId];
      Some(if a <= b then Span(a, b) else Span(b, a))
    else None
  }

  predicate Spans(msgs: seq<Message>, c: Compaction, p: nat) {
    var s := SpanOf(msgs, c);
    s.Some? && s.value.lo <= p <= s.value.hi
  }

  /** Position `p` lies in the block of some compaction entry. */
  predicate Covered(msgs: seq<Message>, comps: seq<Compaction>, p: nat) {
    exists i :: 0 <= i < |comps| && Spans(msgs, comps[i], p)
  }

  ghost predicate SpansId(msgs: seq<Message>, c: Compaction, id: Id) {
    exists p :: 0 <= p < |msgs| && msgs[p].id == id && Spans(msgs, c, p)
  }

  ghost predicate CoversId(msgs: seq<Message>, comps: seq<Compaction>, id: Id) {
    exists p :: 0 <= p < |msgs| && msgs[p].id == id && Covered(msgs, comps, p)
  }

  function CoveredIds(msgs: seq<Message>, comps: seq<Compaction>): set<Id> {
    set p | 0 <= p < |msgs| && Covered(msgs, comps, p) :: msgs[p].id
  }

  /** The blocks of two different compaction entries never share a message. */
  ghost predicate DisjointSpans(msgs: seq<Message>, comps: seq<Compaction>) {
    forall i, j, p :: 0 <= i < j < |comps| && Spans(msgs, comps[i], p) ==> !Spans(msgs, comps[j], p)
  }

  /** The number of compaction entries whose two ends are both in the log. */
  function Resolvable(msgs: seq<Message>, comps: seq<Compaction>): nat {
    if comps == [] then 0
    else Resolvable(msgs, comps[..|comps| - 1]) +
         (if SpanOf(msgs, comps[|comps| - 1]).Some? then 1 else 0)
  }

  /** An activated skill: its current content, and the number of messages before its first record. */
  datatype Active = Active(name: string, content: string, seen: nat)

  predicate Has(skills: seq<Active>, name: string) {
    exists i :: 0 <= i < |skills| && skills[i].name == name
  }

  function Renewed(skills: seq<Active>, skill: Skill): (r: seq<Active>)
    ensures |r| == |skills|
  {
    seq(|skills|, i requires 0 <= i < |skills| =>
      if skills[i].name == skill.name then skills[i].(content := skill.content) else skills[i])
  }

  function WithSkill(skills: seq<Active>, skill: Skill, seen: nat): seq<Active> {
    if Has(skills, skill.name) then Renewed(skills, skill) else skills + [Active(skill.name, skill.content, seen)]
  }

  /** Replays the activation records: a repeated name refreshes the content and keeps its place. */
  function ActiveSkills(log: seq<Entry>): seq<Active> {
    if log == [] then []
    else
      var skills := ActiveSkills(log[..|log| - 1]);
      var entry := log[|log| - 1];
      if !entry.SkillActivated? then skills
      else WithSkill(skills, entry.skill, |Messages(log[..|log| - 1])|)
  }

  lemma EmptyLog()
    ensures Messages([]) == [] && Compactions([]) == [] && SkillNames([]) == {} && ActiveSkills([]) == []
  {
  }

  // ---------------------------------------------------------------- appending one entry

  /** What each reading of the log becomes when `e` arrives after `log`. */
  ghost predicate Extends(log: seq<Entry>, e: Entry, more: seq<Entry>) {
    && Messages(more) == (if e.MessageEntry? then Messages(log) + [e.message] else Messages(log))
    && Compactions(more) == (if e.CompactionEntry? then Compactions(log) + [e.compaction] else Compactions(log))
    && SkillNames(more) == (if e.SkillActivated? then SkillNames(log) + {e.skill.name} else SkillNames(log))
    && ActiveSkills(more) ==
       (if e.SkillActivated? then WithSkill(ActiveSkills(log), e.skill, |Messages(log)|) else ActiveSkills(log))
  }

  lemma Appended(log: seq<Entry>, e: Entry)
    ensures Extends(log, e, log + [e])
  {
    assert (log + [e])[..|log|] == log;
  }

  lemma AppendedAt(log: seq<Entry>, i: nat)
    requires i < |log|
    ensures Extends(log[..i], log[i], log[..i + 1])
  {
    Appended(log[..i], log[i]);
    assert log[..i + 1] == log[..i] + [log[i]];
  }

  /** A block keeps its positions when a message with a new id arrives. */
  lemma SpanIsStable(msgs: seq<Message>, m: Message, c: Compaction)
    requires UniqueIds(msgs + [m])
    requires SpanOf(msgs, c).Some?
    ensures SpanOf(msgs + [m], c) == SpanOf(msgs, c)
  {
    var all := msgs + [m];
    PositionsPush(msgs, m);
    forall id | id in Positions(msgs) ensures id != m.id {
      assert all[Positions(msgs)[id]].id == id && all[|msgs|] == m;
    }
  }

  lemma PositionOf(msgs: seq<Message>, p: nat)
    requires UniqueIds(msgs) && p < |msgs|
    ensures msgs[p].id in Positions(msgs) && Positions(msgs)[msgs[p].id] == p
  {
    var q := Positions(msgs)[msgs[p].id];
    assert msgs[q].id == msgs[p].id;
  }

  // ---------------------------------------------------------------- activated skills

  ghost predicate DistinctNames(skills: seq<Active>) {
    forall i, j :: 0 <= i < j < |skills| ==> skills[i].name != skills[j].name
  }

  ghost predicate RecordAt(log: seq<Entry>, k: int, name: string) {
    0 <= k < |log| && log[k].SkillActivated? && log[k].skill.name == name
  }

  /** `a` carries the content of the last record of its name and stands where its first record stood. */
  ghost predicate FaithfulSkill(log: seq<Entry>, a: Active) {
    exists first, last ::
      && RecordAt(log, first, a.name) && RecordAt(log, last, a.name)
      && (forall k :: RecordAt(log, k, a.name) ==> first <= k <= last)
      && a.content == log[last].skill.content
      && a.seen == |Messages(log[..first])|
  }

  ghost predicate FirstRecord(log: seq<Entry>, k: int, name: string) {
    RecordAt(log, k, name) && forall l :: 0 <= l < k ==> !RecordAt(log, l, name)
  }

  lemma {:induction false} ActivatedNames(log: seq<Entry>)
    ensures DistinctNames(ActiveSkills(log))
    ensures forall name :: Has(ActiveSkills(log), name) <==> name in SkillNames(log)
  {
    if log != [] {
      var init, e := log[..|log| - 1], log[|log| - 1];
      ActivatedNames(init);
      var prev, now := ActiveSkills(init), ActiveSkills(log);
      forall name ensures Has(now, name) <==> name in SkillNames(log) {
        if Has(prev, name) {
          var i :| 0 <= i < |prev| && prev[i].name == name;
          assert now[i].name == name;
        } else if e.SkillActivated? && e.skill.name == name {
          assert now[|prev|].name == name;
        } else {
          assert forall i :: 0 <= i < |now| && i < |prev| ==> now[i].name == prev[i].name;
        }
      }
    }
  }

  lemma {:induction false} RecordedNames(log: seq<Entry>, name: string)
    ensures name in SkillNames(log) <==> exists k :: RecordAt(log, k, name)
  {
    if log != [] {
      var init := log[..|log| - 1];
      RecordedNames(init, name);
      assert forall k :: RecordAt(init, k, name) ==> RecordAt(log, k, name);
      assert forall k :: RecordAt(log, k, name) && k < |init| ==> RecordAt(init, k, name);
      if log[|init|].SkillActivated? && log[|init|].skill.name == name {
        assert RecordAt(log, |init|, name);
      }
    }
  }

  /** One more entry: a skill already faithful stays so once its content is renewed. */
  lemma FaithfulStep(init: seq<Entry>, e: Entry, a: Active)
    requires FaithfulSkill(init, a)
    ensures FaithfulSkill(init + [e],
      if e.SkillActivated? && e.skill.name == a.name then a.(content := e.skill.content) else a)
  {
    var log := init + [e];
    var renewed := e.SkillActivated? && e.skill.name == a.name;
    var first, last :| RecordAt(init, first, a.name) && RecordAt(init, last, a.name)
      && (forall k :: RecordAt(init, k, a.name) ==> first <= k <= last)
      && a.content == init[last].skill.content && a.seen == |Messages(init[..first])|;
    assert init[..first] == log[..first];
    var last' := if renewed then |init| else last;
    assert RecordAt(log, first, a.name) && RecordAt(log, last', a.name);
    forall k | RecordAt(log, k, a.name) ensures first <= k <= last' {
      assert k < |init| ==> RecordAt(init, k, a.name);
    }
  }

  /** The recovered list names every activated skill once, with its latest content and its first place. */
  lemma {:induction false} ActiveSkillsAreFaithful(log: seq<Entry>)
    ensures DistinctNames(ActiveSkills(log))
    ensures forall name :: Has(ActiveSkills(log), name) <==> exists k :: RecordAt(log, k, name)
    ensures forall i :: 0 <= i < |ActiveSkills(log)| ==> FaithfulSkill(log, ActiveSkills(log)[i])
  {
    ActivatedNames(log);
    forall name ensures Has(ActiveSkills(log), name) <==> exists k :: RecordAt(log, k, name) {
      RecordedNames(log, name);
    }
    if log != [] {
      var init, e := log[..|log| - 1], log[|log| - 1];
      assert log == init + [e];
      ActiveSkillsAreFaithful(init);
      var prev, now := ActiveSkills(init), ActiveSkills(log);
      forall i | 0 <= i < |now| ensures FaithfulSkill(log, now[i]) {
        if i < |prev| {
          FaithfulStep(init, e, prev[i]);
        } else {
          var name := now[i].name;
          assert init == log[..|init|] && RecordAt(log, |init|, name);
          assert forall k :: RecordAt(init, k, name) ==> Has(prev, name);
          assert forall k :: RecordAt(log, k, name) && k < |init| ==> RecordAt(init, k, name);
        }
      }
    }
  }

  /** The recovered list follows the order in which the skills were first activated. */
  lemma {:induction false} ActiveSkillsInOrder(log: seq<Entry>, i: nat, j: nat, k: int, l: int)
    requires i < j < |ActiveSkills(log)|
    requires FirstRecord(log, k, ActiveSkills(log)[i].name) && FirstRecord(log, l, ActiveSkills(log)[j].name)
    ensures k < l
  {
    var init := log[..|log| - 1];
    var prev, now := ActiveSkills(init), ActiveSkills(log);
    ActivatedNames(init);
    RecordedNames(init, now[i].name);
    RecordedNames(init, now[j].name);
    assert prev[i].name == now[i].name;
    assert Has(prev, now[i].name);
    var r :| RecordAt(init, r, now[i].name);
    assert RecordAt(log, r, now[i].name);
    assert forall m, name :: RecordAt(init, m, name) ==> RecordAt(log, m, name);
    assert k <= r < |init| && RecordAt(init, k, now[i].name);
    assert FirstRecord(init, k, now[i].name);
    if j < |prev| {
      assert Has(prev, now[j].name);
      var q :| RecordAt(init, q, now[j].name);
      assert RecordAt(log, q, now[j].name);
      assert l <= q < |init| && RecordAt(init, l, now[j].name);
      assert FirstRecord(init, l, prev[j].name);
      ActiveSkillsInOrder(init, i, j, k, l);
    } else {
      assert !Has(prev, now[j].name);
      assert l < |init| ==> RecordAt(init, l, now[j].name);
    }
  }
}
