/** The activated skills of a session kept in memory, beside the log that remembers them. */
module SkillCache {
  import opened Protocol
  import opened History
  import opened Slots
  import opened Runtime
  import ActivePath
  import PathFacts

  predicate Named(skills: seq<Skill>, name: string) {
    exists i :: 0 <= i < |skills| && skills[i].name == name
  }

  /** A known name takes the new content and keeps its place; a new name goes last. */
  function Upserted(skills: seq<Skill>, skill: Skill): seq<Skill> {
    if Named(skills, skill.name) then
      seq(|skills|, i requires 0 <= i < |skills| => if skills[i].name == skill.name then skill else skills[i])
    else skills + [skill]
  }

  function UpsertAll(skills: seq<Skill>, more: seq<Skill>): seq<Skill> {
    if more == [] then skills else Upserted(UpsertAll(skills, more[..|more| - 1]), more[|more| - 1])
  }

  /** What a fresh process finds in the log. */
  function Recovered(log: seq<Entry>): (r: seq<Skill>)
    ensures |r| == |ActiveSkills(log)|
  {
    var active := ActiveSkills(log);
    seq(|active|, i requires 0 <= i < |active| => Skill(active[i].name, active[i].content))
  }

  lemma SameNames(log: seq<Entry>, name: string)
    ensures Named(Recovered(log), name) <==> Has(ActiveSkills(log), name)
  {
    var active, skills := ActiveSkills(log), Recovered(log);
    if Has(active, name) {
      var i :| 0 <= i < |active| && active[i].name == name;
      assert skills[i].name == name;
    }
  }

  /** Writing through is recovering: updating the list is what reading the longer log would give. */
  lemma WriteThrough(log: seq<Entry>, e: Entry)
    ensures Recovered(log + [e]) == if e.SkillActivated? then Upserted(Recovered(log), e.skill) else Recovered(log)
  {
    hide ActiveSkills, Has, Named;
    Appended(log, e);
    if e.SkillActivated? { SameNames(log, e.skill.name); }
  }

  lemma {:induction false} WriteThroughSeries(log: seq<Entry>, skills: seq<Skill>)
    ensures Recovered(log + Activations(skills)) == UpsertAll(Recovered(log), skills)
  {
    hide Upserted, ActiveSkills;
    if skills == [] {
      assert log + Activations(skills) == log;
    } else {
      var n := |skills| - 1;
      WriteThroughSeries(log, skills[..n]);
      WriteThrough(log + Activations(skills[..n]), SkillActivated(skills[n]));
      assert log + Activations(skills) == log + Activations(skills[..n]) + [SkillActivated(skills[n])];
    }
  }

  /** Recording an activation that the list already holds, because it was recovered after the write, changes nothing. */
  lemma RecordedTwice(log: seq<Entry>, skill: Skill)
    ensures Upserted(Recovered(log + [SkillActivated(skill)]), skill) == Recovered(log + [SkillActivated(skill)])
  {
    var skills := Recovered(log);
    var once := Upserted(skills, skill);
    WriteThrough(log, SkillActivated(skill));
    if Named(skills, skill.name) {
      var i :| 0 <= i < |skills| && skills[i].name == skill.name;
      assert once[i].name == skill.name;
    } else {
      assert once[|skills|].name == skill.name;
    }
    ActivatedNames(log);
  }

  /** The cache lists, in order, exactly the skill notes that the active path shows the model. */
  lemma {:induction false} CacheIsOnThePath(log: seq<Entry>)
    ensures Filtered(ActivePath.Path(log), PathFacts.IsNote)
         == Mapped(Recovered(log), (s: Skill) => ActivePath.Note(s.name, s.content))
  {
    hide ActiveSkills, ActivePath.Path;
    PathFacts.SkillsSurvive(log);
  }

  ghost predicate DistinctSkills(skills: seq<Skill>) {
    forall i, j :: 0 <= i < j < |skills| ==> skills[i].name != skills[j].name
  }

  lemma RecoveredIsDistinct(log: seq<Entry>)
    ensures DistinctSkills(Recovered(log))
  {
    ActivatedNames(log);
  }

  lemma UpsertKeepsDistinct(skills: seq<Skill>, skill: Skill)
    requires DistinctSkills(skills)
    ensures DistinctSkills(Upserted(skills, skill)) && Named(Upserted(skills, skill), skill.name)
  {
    var more := Upserted(skills, skill);
    if Named(skills, skill.name) {
      var i :| 0 <= i < |skills| && skills[i].name == skill.name;
      assert more[i].name == skill.name;
    } else {
      assert more[|skills|].name == skill.name;
    }
  }

  lemma UpsertNames(skills: seq<Skill>, skill: Skill, name: string)
    ensures Named(Upserted(skills, skill), name) <==> Named(skills, name) || name == skill.name
  {
    var more := Upserted(skills, skill);
    if Named(skills, name) {
      var i :| 0 <= i < |skills| && skills[i].name == name;
      assert more[i].name == name;
    }
    if name == skill.name && !Named(skills, name) {
      assert more[|skills|].name == name;
    }
    if Named(more, name) && name != skill.name {
      var i :| 0 <= i < |more| && more[i].name == name;
      assert skills[i].name == name;
    }
  }

  /** Two activations that reach the log in one order and the cache in the other leave the cache right exactly
      when they agree, or name different skills of which one was active before. */
  lemma CrossedUpdates(log: seq<Entry>, first: Skill, second: Skill)
    ensures var skills := Recovered(log);
            var both := log + [SkillActivated(first)] + [SkillActivated(second)];
            Upserted(Upserted(skills, second), first) == Recovered(both)
            <==> (if first.name == second.name then first.content == second.content
                  else Named(skills, first.name) || Named(skills, second.name))
  {
    hide Recovered;
    WriteThrough(log, SkillActivated(first));
    WriteThrough(log + [SkillActivated(first)], SkillActivated(second));
    RecoveredIsDistinct(log);
    Crossed(Recovered(log), first, second);
  }

  /** Two skills, neither active before, whose activations cross. */
  lemma CrossingFails()
    ensures var a, b := Skill("a", "first"), Skill("b", "second");
            Upserted(Upserted(Recovered([]), b), a) != Recovered([SkillActivated(a), SkillActivated(b)])
  {
    hide Upserted, Recovered, Named;
    var a, b := Skill("a", "first"), Skill("b", "second");
    CrossedUpdates([], a, b);
    NothingRecovered();
    NotNamedInNone("a");
    NotNamedInNone("b");
    assert [] + [SkillActivated(a)] + [SkillActivated(b)] == [SkillActivated(a), SkillActivated(b)];
  }

  lemma NotNamedInNone(name: string)
    ensures !Named([], name)
  {
  }

  lemma Crossed(skills: seq<Skill>, a: Skill, b: Skill)
    requires DistinctSkills(skills)
    ensures Upserted(Upserted(skills, b), a) == Upserted(Upserted(skills, a), b)
            <==> (if a.name == b.name then a.content == b.content else Named(skills, a.name) || Named(skills, b.name))
  {
    hide Named;
    UpsertNames(skills, a, b.name);
    UpsertNames(skills, b, a.name);
    UpsertNames(skills, a, a.name);
    UpsertNames(skills, b, b.name);
    var ab, ba := Upserted(Upserted(skills, b), a), Upserted(Upserted(skills, a), b);
    if !Named(skills, a.name) && !Named(skills, b.name) {
      NotNamed(skills, a.name);
      NotNamed(skills, b.name);
      var n := |skills|;
      assert a.name != b.name ==> ab[n] == b && ba[n] == a;
      assert a.name == b.name ==> ab[n] == a && ba[n] == b;
    } else if a.name == b.name {
      var i := NamedAt(skills, a.name);
      assert ab[i] == a && ba[i] == b;
    }
  }

  lemma NamedAt(skills: seq<Skill>, name: string) returns (i: nat)
    requires Named(skills, name)
    ensures i < |skills| && skills[i].name == name
  {
    i :| 0 <= i < |skills| && skills[i].name == name;
  }

  lemma NotNamed(skills: seq<Skill>, name: string)
    requires !Named(skills, name)
    ensures forall i :: 0 <= i < |skills| ==> skills[i].name != name
  {
  }

  // ---------------------------------------------------------------- the shared list

  /** The list of one session, shared by the pool and the `activate_skill` tool. */
  class SkillHandle {
    var skills: seq<Skill>

    constructor (skills: seq<Skill>)
      ensures this.skills == skills
    {
      this.skills := skills;
    }

    /** Refreshes the skill in place, or adds it at the end. */
    method Update(skill: Skill) returns (alreadyActive: bool)
      requires DistinctSkills(skills)
      modifies this
      ensures skills == Upserted(old(skills), skill) && DistinctSkills(skills)
      ensures alreadyActive <==> Named(old(skills), skill.name)
    {
      UpsertKeepsDistinct(skills, skill);
      for i := 0 to |skills|
        invariant skills == old(skills)
        invariant forall j :: 0 <= j < i ==> skills[j].name != skill.name
      {
        if skills[i].name == skill.name {
          skills := skills[i := Skill(skills[i].name, skill.content)];
          return true;
        }
      }
      skills := skills + [skill];
      return false;
    }
  }

  method CollectSkills(entries: seq<Entry>) returns (skills: seq<Skill>)
    ensures skills == Recovered(entries)
  {
    hide Recovered, Upserted;
    var handle := new SkillHandle([]);
    NothingRecovered();
    for i := 0 to |entries|
      invariant handle.skills == Recovered(entries[..i])
    {
      RecoveredIsDistinct(entries[..i]);
      WriteThrough(entries[..i], entries[i]);
      assert entries[..i] + [entries[i]] == entries[..i + 1];
      if entries[i].SkillActivated? {
        var _ := handle.Update(entries[i].skill);
      }
    }
    assert entries[..|entries|] == entries;
    return handle.skills;
  }

  lemma NothingRecovered()
    ensures Recovered([]) == []
  {
  }

  /** Keeps the list of a session once somebody has asked for it. */
  class RunnerPool {
    const store: SessionStore
    var active: SkillHandle?

    constructor (store: SessionStore)
      ensures this.store == store && active == null
    {
      this.store := store;
      active := null;
    }

    /** What is in memory, if anything, is what the log says. */
    ghost predicate Faithful()
      reads this, active, store
    {
      active != null ==> active.skills == Recovered(store.entries)
    }

    /** A log that cannot be read counts as empty. */
    method LoadActiveSkills() returns (skills: seq<Skill>, ghost read: bool)
      ensures skills == if read then Recovered(store.entries) else []
      ensures store.reliable ==> read
    {
      var entries := store.ReadEntries();
      if entries.Err? {
        return [], false;
      }
      skills := CollectSkills(entries.value);
      return skills, true;
    }

    /** The list in memory, recovered from the log if there is none yet. */
    method ActiveSkillsFor() returns (handle: SkillHandle, ghost read: bool)
      modifies this
      ensures active == handle && (store.reliable ==> read)
      ensures old(active) != null ==> handle == old(active) && read
      ensures old(active) == null ==> fresh(handle) && handle.skills == if read then Recovered(store.entries) else []
    {
      if active != null {
        return active, true;
      }
      var skills: seq<Skill>;
      skills, read := LoadActiveSkills();
      active := new SkillHandle(skills);
      return active, read;
    }

    /** Called after the activation was written: an older list gains it, and a list recovered just now has it. After
        a failed read the list holds this skill alone, which is right exactly when no other was active. */
    method RecordSkillActivation(skill: Skill, ghost before: seq<Entry>) returns (ghost read: bool)
      requires store.entries == before + [SkillActivated(skill)]
      requires active != null ==> active.skills == Recovered(before)
      modifies this, active
      ensures store.reliable ==> read
      ensures old(active) != null ==> read && active == old(active)
      ensures old(active) == null ==> fresh(active)
      ensures active != null && (!read ==> active.skills == [skill])
      ensures Faithful() <==> read || OnlySkill(Recovered(before), skill.name)
    {
      hide Recovered, Upserted, Named, OnlySkill;
      WriteThrough(before, SkillActivated(skill));
      RecordedTwice(before, skill);
      RecoveredIsDistinct(before);
      RecoveredIsDistinct(store.entries);
      var handle: SkillHandle;
      handle, read := ActiveSkillsFor();
      FirstSkill(skill);
      WithoutTheRest(before, skill);
      var _ := handle.Update(skill);
    }

    /** Activation by command: load the view and look the skill up, write, then update. */
    method ActivateForSession(skill: Skill) returns (r: Result<(), ActivationError>, ghost read: bool)
      requires Faithful()
      modifies this, active, store
      ensures store.entries == if r.Ok? then old(store.entries) + [SkillActivated(skill)] else old(store.entries)
      ensures r.Err? ==> Faithful()
      ensures r.Ok? ==> active != null && (!read ==> active.skills == [skill])
      ensures r.Ok? ==> (Faithful() <==> read || OnlySkill(old(Recovered(store.entries)), skill.name))
      ensures old(active) != null && r.Ok? ==> read
    {
      hide Recovered, OnlySkill;
      ghost var before := store.entries;
      read := false;
      var unknown: bool := *;
      if unknown {
        return Err(SkillNotFound), false;
      }
      var appended := store.AppendSkillActivation(skill);
      if appended.Err? {
        return Err(NotWritten), false;
      }
      read := RecordSkillActivation(skill, before);
      r := Ok(());
    }

    /** Activation by the model's tool call: write, then update the shared list; the full text goes back to the
        model only the first time. */
    method InvokeActivateSkill(skill: Skill) returns (r: Result<string, StoreError>)
      requires active != null && Faithful()
      modifies active, store
      ensures Faithful()
      ensures store.entries == if r.Ok? then old(store.entries) + [SkillActivated(skill)] else old(store.entries)
      ensures r.Ok? ==>
        var known := Has(ActiveSkills(old(store.entries)), skill.name);
        if known then "Skill `" + skill.name + "`" <= r.value else r.value == skill.content
    {
      hide Recovered, Upserted, Named, Has, ActiveSkills, ConfirmationText;
      ghost var before := store.entries;
      var appended := store.AppendSkillActivation(skill);
      if appended.Err? {
        return Err(StoreError);
      }
      ConfirmsByName(skill.name);
      WriteThrough(before, SkillActivated(skill));
      RecoveredIsDistinct(before);
      SameNames(before, skill.name);
      var alreadyActive := active.Update(skill);
      return Ok(if alreadyActive then ConfirmationText(skill.name) else skill.content);
    }
  }

  datatype ActivationError = SkillNotFound | NotWritten

  predicate OnlySkill(skills: seq<Skill>, name: string) {
    forall i :: 0 <= i < |skills| ==> skills[i].name == name
  }

  lemma FirstSkill(skill: Skill)
    ensures Upserted([], skill) == [skill] && DistinctSkills([])
  {
  }

  lemma FirstTwoDiffer(skills: seq<Skill>)
    requires DistinctSkills(skills)
    ensures |skills| <= 1 || skills[0].name != skills[1].name
  {
  }

  lemma AtMostOne(skills: seq<Skill>, name: string)
    requires DistinctSkills(skills) && OnlySkill(skills, name)
    ensures |skills| <= 1
  {
    FirstTwoDiffer(skills);
  }

  /** A list that lost what came before is still right exactly when only this skill was active. */
  lemma WithoutTheRest(log: seq<Entry>, skill: Skill)
    ensures [skill] == Recovered(log + [SkillActivated(skill)]) <==> OnlySkill(Recovered(log), skill.name)
  {
    hide Recovered;
    WriteThrough(log, SkillActivated(skill));
    var skills := Recovered(log);
    RecoveredIsDistinct(log);
    if OnlySkill(skills, skill.name) {
      AtMostOne(skills, skill.name);
      if skills != [] { assert skills[0].name == skill.name; }
    } else {
      var i :| 0 <= i < |skills| && skills[i].name != skill.name;
      assert Upserted(skills, skill)[i] == skills[i];
    }
  }

  function ConfirmationText(name: string): string {
    "Skill `" + name + "`" + " is already active; its instructions are provided in the conversation."
  }

  lemma ConfirmsByName(name: string)
    ensures "Skill `" + name + "`" <= ConfirmationText(name)
  {
  }
}
