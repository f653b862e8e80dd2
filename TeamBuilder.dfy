/**
 * The team builder of an event: the new team each of its controls hands
 * back (decrement, increment, remove, pick a skill), and the shape of team
 * these controls keep: every count at least 1 and no skill listed twice.
 */
module TeamBuilder {
  import opened Types

  /** Some member of the team has this skill. */
  predicate HasSkill(team: seq<TeamMember>, skillId: string) {
    exists i :: 0 <= i < |team| && team[i].skillId == skillId
  }

  /** Every count is at least 1 and no two members share a skill. */
  predicate WellFormedTeam(team: seq<TeamMember>) {
    && (forall i :: 0 <= i < |team| ==> team[i].count >= 1)
    && (forall i, j :: 0 <= i < j < |team| ==> team[i].skillId != team[j].skillId)
  }

  /** The "-" control: one fewer of member `idx`, but never below 1. */
  function Decrement(team: seq<TeamMember>, idx: nat): (r: seq<TeamMember>)
    requires idx < |team|
    ensures |r| == |team|
    ensures forall j :: 0 <= j < |team| && j != idx ==> r[j] == team[j]
    ensures r[idx].skillId == team[idx].skillId
    ensures team[idx].count > 1 ==> r[idx].count == team[idx].count - 1
    ensures team[idx].count <= 1 ==> r == team
    ensures team[idx].count >= 1 ==> r[idx].count >= 1
  {
    if team[idx].count > 1 then team[idx := team[idx].(count := team[idx].count - 1)] else team
  }

  /** The "+" control: exactly one more of member `idx`. */
  function Increment(team: seq<TeamMember>, idx: nat): (r: seq<TeamMember>)
    requires idx < |team|
    ensures |r| == |team|
    ensures forall j :: 0 <= j < |team| && j != idx ==> r[j] == team[j]
    ensures r[idx] == TeamMember(team[idx].skillId, team[idx].count + 1)
  {
    team[idx := team[idx].(count := team[idx].count + 1)]
  }

  /** The remove control: `team.filter((_, i) => i !== idx)`. */
  function RemoveAt(team: seq<TeamMember>, idx: nat): (r: seq<TeamMember>)
    requires idx < |team|
    ensures |r| == |team| - 1
    ensures forall j :: 0 <= j < idx ==> r[j] == team[j]
    ensures forall j :: idx <= j < |r| ==> r[j] == team[j + 1]
  {
    team[..idx] + team[idx + 1..]
  }

  /** Picking a skill: a new member with count 1, unless the skill is already in the team. */
  function AddSkill(team: seq<TeamMember>, skillId: string): (r: seq<TeamMember>)
    ensures HasSkill(r, skillId)
    ensures HasSkill(team, skillId) ==> r == team
    ensures !HasSkill(team, skillId) ==> r == team + [TeamMember(skillId, 1)]
  {
    if HasSkill(team, skillId) then team
    else
      var r := team + [TeamMember(skillId, 1)];
      assert r[|team|].skillId == skillId;
      r
  }

  /** Every control keeps a well-formed team well formed. */
  lemma ControlsPreserveWellFormed(team: seq<TeamMember>, idx: nat, skillId: string)
    requires WellFormedTeam(team) && idx < |team|
    ensures WellFormedTeam(Decrement(team, idx))
    ensures WellFormedTeam(Increment(team, idx))
    ensures WellFormedTeam(RemoveAt(team, idx))
    ensures WellFormedTeam(AddSkill(team, skillId))
  {
    var r := AddSkill(team, skillId);
    if !HasSkill(team, skillId) {
      forall i, j | 0 <= i < j < |r| ensures r[i].skillId != r[j].skillId {
        if j == |team| {
          assert r[i] == team[i];
        }
      }
    }
    var d := RemoveAt(team, idx);
    forall i, j | 0 <= i < j < |d| ensures d[i].skillId != d[j].skillId {
      var i' := if i < idx then i else i + 1;
      var j' := if j < idx then j else j + 1;
      assert d[i] == team[i'] && d[j] == team[j'] && i' < j';
    }
  }

  /** Removing a member of a well-formed team removes its skill from the team. */
  lemma RemoveDropsSkill(team: seq<TeamMember>, idx: nat)
    requires WellFormedTeam(team) && idx < |team|
    ensures !HasSkill(RemoveAt(team, idx), team[idx].skillId)
    ensures forall j :: 0 <= j < |team| && j != idx ==> HasSkill(RemoveAt(team, idx), team[j].skillId)
  {
    var r := RemoveAt(team, idx);
    forall k | 0 <= k < |r| ensures r[k].skillId != team[idx].skillId {
      if k < idx {
        assert r[k] == team[k];
      } else {
        assert r[k] == team[k + 1];
      }
    }
    forall j | 0 <= j < |team| && j != idx ensures HasSkill(r, team[j].skillId) {
      var k := if j < idx then j else j - 1;
      assert r[k] == team[j];
    }
  }

  /** "-" undoes "+" on a member whose count is at least 1. */
  lemma DecrementUndoesIncrement(team: seq<TeamMember>, idx: nat)
    requires idx < |team| && team[idx].count >= 1
    ensures Decrement(Increment(team, idx), idx) == team
  {
    var r := Decrement(Increment(team, idx), idx);
    assert forall j :: 0 <= j < |team| ==> r[j] == team[j];
  }

  /** Picking the same skill twice is picking it once. */
  lemma AddSkillIdempotent(team: seq<TeamMember>, skillId: string)
    ensures AddSkill(AddSkill(team, skillId), skillId) == AddSkill(team, skillId)
  {
  }
}
