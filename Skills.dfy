/**
 * Creating a skill from the team builder: a name that matches an existing
 * skill up to case reuses that skill, any other name becomes a new skill, and
 * the chosen skill joins the team of the event being edited.
 */
module Skills {
  import opened Types
  import Text
  import TeamBuilder
  import Calculations
  import Seqs

  /** The test `s.name.toLowerCase() === name.toLowerCase()`. */
  function NameMatches(name: string): Skill -> bool {
    (s: Skill) => Text.EqualsIgnoringCase(s.name, name)
  }

  /** `skills.find(s => s.name.toLowerCase() === name.toLowerCase())`, as the index of the first match. */
  function FindByName(skills: seq<Skill>, name: string): Option<nat> {
    Seqs.FirstIndex(skills, NameMatches(name))
  }

  /** No two skills have names equal up to case. */
  predicate DistinctNames(skills: seq<Skill>) {
    forall i, j :: 0 <= i < j < |skills| ==> !Text.EqualsIgnoringCase(skills[i].name, skills[j].name)
  }

  /** The skill list after asking for `name`, and the id of the skill to use. */
  datatype Resolution = Resolution(skills: seq<Skill>, skillId: string)

  /** Reuse the first skill whose name matches up to case, or append a new skill with that name. */
  function ResolveSkill(skills: seq<Skill>, name: string, newId: string): (r: Resolution)
    ensures FindByName(skills, name).Some? ==>
      r.skills == skills && r.skillId == skills[FindByName(skills, name).value].id
    ensures FindByName(skills, name).None? ==>
      r.skills == skills + [Skill(newId, name)] && r.skillId == newId
  {
    match FindByName(skills, name)
    case Some(k) => Resolution(skills, skills[k].id)
    case None => Resolution(skills + [Skill(newId, name)], newId)
  }

  /** The chosen id belongs to a skill of the list whose name matches `name` up to case. */
  predicate Carries(r: Resolution, name: string) {
    exists k :: 0 <= k < |r.skills| && Text.EqualsIgnoringCase(r.skills[k].name, name) && r.skills[k].id == r.skillId
  }

  /**
   * Asking for a name never creates a case-insensitive duplicate: the list
   * stays free of duplicates, and afterwards exactly one skill carries the
   * name up to case, the one whose id is used.
   */
  lemma ResolveKeepsNamesDistinct(skills: seq<Skill>, name: string, newId: string)
    requires DistinctNames(skills)
    ensures DistinctNames(ResolveSkill(skills, name, newId).skills)
    ensures Carries(ResolveSkill(skills, name, newId), name)
  {
    var r := ResolveSkill(skills, name, newId);
    match FindByName(skills, name)
    case Some(k) =>
      assert Text.EqualsIgnoringCase(r.skills[k].name, name);
    case None =>
      var n := |skills|;
      forall i, j | 0 <= i < j < |r.skills|
        ensures !Text.EqualsIgnoringCase(r.skills[i].name, r.skills[j].name)
      {
        if j == n {
          assert r.skills[i] == skills[i] && r.skills[j].name == name;
        } else {
          assert r.skills[i] == skills[i] && r.skills[j] == skills[j];
        }
      }
      assert r.skills[n].name == name && r.skills[n].id == r.skillId;
  }

  /**
   * The events after skill `skillId` joins the team of every event whose id
   * is `contextId`, unless that team already has it.
   */
  function AddMemberToEvents(events: seq<EventItem>, contextId: string, skillId: string): (r: seq<EventItem>)
    ensures |r| == |events|
    ensures forall i :: 0 <= i < |events| && events[i].id != contextId ==> r[i] == events[i]
    ensures forall i :: 0 <= i < |events| && events[i].id == contextId ==>
      r[i] == events[i].(team := TeamBuilder.AddSkill(events[i].team, skillId))
  {
    seq(|events|, i requires 0 <= i < |events| =>
      if events[i].id == contextId
      then events[i].(team := TeamBuilder.AddSkill(events[i].team, skillId))
      else events[i])
  }

  /**
   * Adding a member changes no cost, so the base amount stays in step, and
   * keeps every well-formed team well formed; the target events then have the skill.
   */
  lemma AddMemberKeepsCostsAndTeams(events: seq<EventItem>, contextId: string, skillId: string)
    ensures Calculations.TotalEventCost(AddMemberToEvents(events, contextId, skillId))
         == Calculations.TotalEventCost(events)
    ensures forall i :: 0 <= i < |events| && TeamBuilder.WellFormedTeam(events[i].team) ==>
      TeamBuilder.WellFormedTeam(AddMemberToEvents(events, contextId, skillId)[i].team)
    ensures forall i :: 0 <= i < |events| && events[i].id == contextId ==>
      TeamBuilder.HasSkill(AddMemberToEvents(events, contextId, skillId)[i].team, skillId)
  {
    var r := AddMemberToEvents(events, contextId, skillId);
    assert Calculations.EventCosts(r) == Calculations.EventCosts(events);
    forall i | 0 <= i < |events| && TeamBuilder.WellFormedTeam(events[i].team)
      ensures TeamBuilder.WellFormedTeam(r[i].team)
    {
      if events[i].id == contextId && |events[i].team| > 0 {
        TeamBuilder.ControlsPreserveWellFormed(events[i].team, 0, skillId);
      } else if events[i].id == contextId {
        assert r[i].team == [TeamMember(skillId, 1)];
      }
    }
  }
}
