/**
 * The quotation editor: the application state (editor buffer, saved
 * quotations, skill master, active quotation, wizard step) and the handlers
 * that change it. Every change to the event list is followed by the
 * base-amount synchronisation, so the stored base amount always equals the
 * sum of the event costs between handlers.
 */
module Editor {
  import opened Types
  import Text
  import Seqs
  import Calculations
  import TeamBuilder
  import Skills
  import History

  /** The screens of the application. */
  datatype View = Dashboard | EditorScreen | Clients | SkillsScreen | Templates

  /** The wizard's steps run from Client (1) to Preview (5). */
  const FirstStep: int := 1
  const LastStep: int := 5

  /** The team-member picker's entry that opens the new-skill input. */
  const CreateNewOption: string := "CREATE_NEW"

  // ---------------------------------------------------------------------------
  // The records the handlers create
  // ---------------------------------------------------------------------------

  /** The event the "+ Custom" button appends: no team, cost 0, date and venue open. */
  function CustomEvent(id: string): (e: EventItem)
    ensures e.id == id && e.name == "New Event" && e.team == [] && OrZero(e.approxCost) == 0.0
    ensures !e.isDateDecided && !e.isVenueDecided && e.date == "" && e.venue == ""
  {
    EventItem(id, "New Event", false, "", "", false, "", "", [], "", Num(0.0))
  }

  /** The event added from a template: its name, duration, team and cost, with date and venue open. */
  function EventFromTemplate(t: EventTemplate, id: string): (e: EventItem)
    ensures e.id == id && e.name == t.name && e.duration == t.defaultDuration && e.team == t.defaultTeam
    ensures OrZero(e.approxCost) == OrZero(t.defaultCost)
    ensures !e.isDateDecided && !e.isVenueDecided && e.date == "" && e.venue == "" && e.notes == ""
  {
    EventItem(id, t.name, false, "", "", false, "", t.defaultDuration, t.defaultTeam, "", t.defaultCost)
  }

  /** The add-on the "Add" button appends: blank texts and price 0. */
  function NewAddOn(id: string): (a: AddOn)
    ensures a.id == id && a.service == "" && a.description == "" && OrZero(a.price) == 0.0
  {
    AddOn(id, "", "", Num(0.0))
  }

  /**
   * The milestone the "Add" button appends: an unpaid 0 % phase, whose
   * amount agrees with every grand total.
   */
  function NewMilestone(id: string): (m: PaymentMilestone)
    ensures m.id == id && m.name == "New Phase" && !m.isPaid && m.kind == Percentage
    ensures forall grandTotal: real :: Calculations.MilestoneAmount(m.kind, m.value, grandTotal) == m.amount
  {
    PaymentMilestone(id, "New Phase", Percentage, 0.0, 0.0, "", false, None, None, None)
  }

  /** The buffer of a new quotation: the initial quotation with its own number and no add-ons. */
  function NewQuotationData(initial: QuotationData, quoNumber: string): QuotationData {
    initial.(client := initial.client.(quoNumber := quoNumber), addOns := [])
  }

  /** The record of a new quotation, with its creation entry. */
  function NewRecord(initial: QuotationData, id: string, quoNumber: string, now: string, entryId: string)
    : (r: QuotationRecord)
    ensures r.id == id && r.createdAt == now && r.updatedAt == now
    ensures r.data.client == initial.client.(quoNumber := quoNumber) && r.data.addOns == []
    ensures r.data.events == initial.events && r.data.financials == initial.financials && r.data.meta == initial.meta
    ensures r.history == [HistoryLog(entryId, now, History.SaveAuthor, "Created new quotation")]
  {
    QuotationRecord(id, now, now, NewQuotationData(initial, quoNumber),
                    [HistoryLog(entryId, now, History.SaveAuthor, "Created new quotation")])
  }

  // The filter and find conditions of the handlers.

  function NotEvent(id: string): EventItem -> bool {
    (e: EventItem) => e.id != id
  }

  function NotMilestone(id: string): PaymentMilestone -> bool {
    (m: PaymentMilestone) => m.id != id
  }

  function NotRecord(id: string): QuotationRecord -> bool {
    (q: QuotationRecord) => q.id != id
  }

  function IsRecord(id: string): QuotationRecord -> bool {
    (q: QuotationRecord) => q.id == id
  }

  /** `quotations.map(q => q.id === id ? <saved q> : q)`. */
  function SaveInto(qs: seq<QuotationRecord>, id: string, current: QuotationData, now: string, entryId: string,
                    numberText: real -> string): (r: seq<QuotationRecord>)
    ensures |r| == |qs|
    ensures forall i :: 0 <= i < |qs| && qs[i].id != id ==> r[i] == qs[i]
    ensures forall i :: 0 <= i < |qs| && qs[i].id == id ==>
      r[i] == History.SavedRecord(qs[i], current, now, entryId, numberText)
  {
    seq(|qs|, i requires 0 <= i < |qs| =>
      if qs[i].id == id then History.SavedRecord(qs[i], current, now, entryId, numberText) else qs[i])
  }

  /** The milestones after a value edit at `idx`: the parsed value and the amount recomputed from it. */
  function WithValue(ms: seq<PaymentMilestone>, idx: nat, value: real, grandTotal: real): (r: seq<PaymentMilestone>)
    requires idx < |ms|
    ensures |r| == |ms|
    ensures forall j :: 0 <= j < |ms| && j != idx ==> r[j] == ms[j]
    ensures r[idx].value == value && r[idx].kind == ms[idx].kind
    ensures r[idx].amount == Calculations.MilestoneAmount(ms[idx].kind, value, grandTotal)
    ensures r[idx].(value := ms[idx].value, amount := ms[idx].amount) == ms[idx]
  {
    ms[idx := ms[idx].(value := value, amount := Calculations.MilestoneAmount(ms[idx].kind, value, grandTotal))]
  }

  /** Editing a milestone changes neither the grand total nor, while it stays unpaid, the amount received. */
  lemma MilestoneEditKeepsTotals(q: QuotationData, idx: nat, value: real, grandTotal: real)
    requires idx < |q.financials.paymentMilestones|
    requires !q.financials.paymentMilestones[idx].isPaid
    ensures var q' := q.(financials := q.financials.(
              paymentMilestones := WithValue(q.financials.paymentMilestones, idx, value, grandTotal)));
            && Calculations.CalculateTotals(q').grandTotal == Calculations.CalculateTotals(q).grandTotal
            && Calculations.CalculateTotals(q').totalPaid == Calculations.CalculateTotals(q).totalPaid
  {
    var ms := q.financials.paymentMilestones;
    Calculations.TotalsIgnoreSchedule(q, WithValue(ms, idx, value, grandTotal));
    Calculations.TotalsIgnoreSchedule(q, ms);
    Calculations.UnpaidMilestonesDoNotCount(ms, WithValue(ms, idx, value, grandTotal));
  }

  /**
   * The buffer after a created or reused skill joins the events with id
   * `contextId`: only outside the template editor and for a non-empty id.
   * No cost changes, so a synchronised base amount stays synchronised.
   */
  function WithSkillMember(d: QuotationData, contextId: string, isTemplate: bool, skillId: string): (r: QuotationData)
    ensures skillId == "" || isTemplate ==> r == d
    ensures skillId != "" && !isTemplate ==>
      r == d.(events := Skills.AddMemberToEvents(d.events, contextId, skillId))
    ensures Calculations.BaseSynced(d) ==> Calculations.BaseSynced(r)
  {
    if skillId != "" && !isTemplate then
      Skills.AddMemberKeepsCostsAndTeams(d.events, contextId, skillId);
      d.(events := Skills.AddMemberToEvents(d.events, contextId, skillId))
    else d
  }

  /** What creating a skill yields: the skill list, the buffer and the id of the skill used. */
  datatype SkillCreation = SkillCreation(skills: seq<Skill>, data: QuotationData, skillId: string)

  /**
   * Creating a skill from the team builder. A name that is blank after
   * trimming does nothing. Otherwise the first skill whose name matches up to
   * case is reused, or a skill with the name as typed is appended; outside
   * the template editor and for a non-empty id it then joins the team of the
   * events with id `contextId` that do not have it yet.
   */
  function CreateSkill(skills: seq<Skill>, d: QuotationData, name: string, contextId: string, isTemplate: bool,
                       newId: string): (r: Option<SkillCreation>)
    ensures r.None? <==> Text.IsBlank(name)
    ensures r.Some? ==>
      && r.value.skills == Skills.ResolveSkill(skills, name, newId).skills
      && r.value.skillId == Skills.ResolveSkill(skills, name, newId).skillId
      && r.value.data == WithSkillMember(d, contextId, isTemplate, r.value.skillId)
    ensures r.Some? && Calculations.BaseSynced(d) ==> Calculations.BaseSynced(r.value.data)
  {
    // `!name.trim()`, stated with IsBlank (see CreateSkillRejectsBlankName).
    if Text.IsBlank(name) then None
    else
      var res := Skills.ResolveSkill(skills, name, newId);
      Some(SkillCreation(res.skills, WithSkillMember(d, contextId, isTemplate, res.skillId), res.skillId))
  }

  /** The guard is the source's `!name.trim()`: nothing happens exactly when the trimmed name is empty. */
  lemma CreateSkillRejectsBlankName(skills: seq<Skill>, d: QuotationData, name: string, contextId: string,
                                    isTemplate: bool, newId: string)
    ensures CreateSkill(skills, d, name, contextId, isTemplate, newId).None? <==> Text.Trim(name) == ""
  {
    Text.TrimEmptyIffBlank(name);
  }

  /**
   * Creating a skill never makes two skills whose names differ only in case,
   * the skill used carries the name typed, and outside the template editor
   * every event with id `contextId` then has it in its team.
   */
  lemma CreateSkillKeepsNamesDistinct(skills: seq<Skill>, d: QuotationData, name: string, contextId: string,
                                      isTemplate: bool, newId: string)
    requires Skills.DistinctNames(skills) && !Text.IsBlank(name)
    ensures var r := CreateSkill(skills, d, name, contextId, isTemplate, newId).value;
      && Skills.DistinctNames(r.skills)
      && Skills.Carries(Skills.Resolution(r.skills, r.skillId), name)
      && (r.skillId != "" && !isTemplate ==>
            forall i :: 0 <= i < |r.data.events| && r.data.events[i].id == contextId ==>
              TeamBuilder.HasSkill(r.data.events[i].team, r.skillId))
  {
    var r := CreateSkill(skills, d, name, contextId, isTemplate, newId).value;
    Skills.ResolveKeepsNamesDistinct(skills, name, newId);
    Skills.AddMemberKeepsCostsAndTeams(d.events, contextId, r.skillId);
  }

  // ---------------------------------------------------------------------------
  // The application state
  // ---------------------------------------------------------------------------

  class QuotationEditor {
    var data: QuotationData
    var quotations: seq<QuotationRecord>
    var skills: seq<Skill>
    var activeQuotationId: Option<string>
    var activeStep: int
    var view: View
    var activeSkillInputId: Option<string>
    var tempSkillInput: string

    /** The wizard is on one of its steps and the stored base amount matches the event costs. */
    predicate Valid()
      reads this
    {
      && FirstStep <= activeStep <= LastStep
      && Calculations.BaseSynced(data)
    }

    /** Only the editor buffer may have changed. */
    twostate predicate OnlyDataChanged()
      reads this
    {
      && quotations == old(quotations)
      && skills == old(skills)
      && activeQuotationId == old(activeQuotationId)
      && activeStep == old(activeStep)
      && view == old(view)
      && activeSkillInputId == old(activeSkillInputId)
      && tempSkillInput == old(tempSkillInput)
    }

    /** Only the wizard step may have changed. */
    twostate predicate OnlyStepChanged()
      reads this
    {
      && data == old(data)
      && quotations == old(quotations)
      && skills == old(skills)
      && activeQuotationId == old(activeQuotationId)
      && view == old(view)
      && activeSkillInputId == old(activeSkillInputId)
      && tempSkillInput == old(tempSkillInput)
    }

    /**
     * The state on start-up: the initial quotation in the buffer (then
     * synchronised), the sample record as the only saved quotation, the
     * dashboard on screen.
     */
    constructor (initial: QuotationData, initialSkills: seq<Skill>, now: string)
      ensures Valid()
      ensures data == Calculations.SyncedBase(initial)
      ensures quotations == [QuotationRecord("Q-SAMPLE-001", now, now, initial,
                               [HistoryLog("h1", now, "System", "Initial Quotation Created")])]
      ensures skills == initialSkills && activeQuotationId == None
      ensures activeStep == FirstStep && view == Dashboard
      ensures activeSkillInputId == None && tempSkillInput == ""
    {
      data := initial;
      quotations := [QuotationRecord("Q-SAMPLE-001", now, now, initial,
                      [HistoryLog("h1", now, "System", "Initial Quotation Created")])];
      skills := initialSkills;
      activeQuotationId := None;
      activeStep := FirstStep;
      view := Dashboard;
      activeSkillInputId := None;
      tempSkillInput := "";
      new;
      SyncBaseAmount();
    }

    /**
     * The base-amount synchronisation: writes the event total into the base
     * amount, and only when the two differ.
     */
    method SyncBaseAmount()
      modifies this
      ensures data == Calculations.SyncedBase(old(data))
      ensures Calculations.BaseSynced(old(data)) ==> data == old(data)
      ensures activeStep == old(activeStep) && OnlyDataChanged()
    {
      var totalEventCost := Calculations.TotalEventCost(data.events);
      if totalEventCost != data.financials.baseAmount {
        data := data.(financials := data.financials.(baseAmount := totalEventCost));
      }
    }

    // -------------------------------------------------------------------------
    // Quotations
    // -------------------------------------------------------------------------

    /**
     * A new quotation goes to the front of the list and into the editor, at the first step.
     * The application always starts it from its initial quotation: callers pass
     * `Sample.SampleQuotation` as `initial`.
     */
    method CreateQuotation(initial: QuotationData, newId: string, quoNumber: string, now: string, entryId: string)
      requires Valid()
      modifies this
      ensures Valid()
      ensures quotations == [NewRecord(initial, newId, quoNumber, now, entryId)] + old(quotations)
      ensures activeQuotationId == Some(newId)
      ensures data == Calculations.SyncedBase(NewQuotationData(initial, quoNumber))
      ensures activeStep == FirstStep && view == EditorScreen
      ensures skills == old(skills)
      ensures activeSkillInputId == old(activeSkillInputId) && tempSkillInput == old(tempSkillInput)
    {
      var record := NewRecord(initial, newId, quoNumber, now, entryId);
      quotations := [record] + quotations;
      activeQuotationId := Some(newId);
      data := record.data;
      SyncBaseAmount();
      activeStep := FirstStep;
      view := EditorScreen;
    }

    /** Opening a saved quotation copies its data into the editor; an unknown id changes nothing. */
    method EditQuotation(id: string)
      requires Valid()
      modifies this
      ensures Valid()
      ensures Seqs.FirstIndex(old(quotations), IsRecord(id)).None? ==>
        data == old(data) && activeQuotationId == old(activeQuotationId)
        && activeStep == old(activeStep) && view == old(view)
      ensures Seqs.FirstIndex(old(quotations), IsRecord(id)).Some? ==>
        && data == Calculations.SyncedBase(old(quotations)[Seqs.FirstIndex(old(quotations), IsRecord(id)).value].data)
        && activeQuotationId == Some(id) && activeStep == FirstStep && view == EditorScreen
      ensures quotations == old(quotations) && skills == old(skills)
      ensures activeSkillInputId == old(activeSkillInputId) && tempSkillInput == old(tempSkillInput)
    {
      match Seqs.FirstIndex(quotations, IsRecord(id))
      case None =>
      case Some(k) =>
        activeQuotationId := Some(id);
        data := quotations[k].data;
        SyncBaseAmount();
        activeStep := FirstStep;
        view := EditorScreen;
    }

    /**
     * Deleting (once confirmed) removes every record with that id; deleting
     * the open quotation also closes the editor.
     */
    method DeleteQuotation(id: string)
      requires Valid()
      modifies this
      ensures Valid()
      ensures quotations == Seqs.Filter(old(quotations), NotRecord(id))
      ensures forall i :: 0 <= i < |quotations| ==> quotations[i].id != id
      ensures old(activeQuotationId) == Some(id) ==> activeQuotationId == None && view == Dashboard
      ensures old(activeQuotationId) != Some(id) ==> activeQuotationId == old(activeQuotationId) && view == old(view)
      ensures data == old(data) && skills == old(skills) && activeStep == old(activeStep)
      ensures activeSkillInputId == old(activeSkillInputId) && tempSkillInput == old(tempSkillInput)
    {
      quotations := Seqs.Filter(quotations, NotRecord(id));
      if activeQuotationId == Some(id) {
        view := Dashboard;
        activeQuotationId := None;
      }
    }

    /**
     * Saving commits the editor buffer into the record(s) with the active id,
     * with a history entry when a watched field changed; without an active
     * quotation (or with an empty id) nothing happens.
     */
    method SaveQuotation(now: string, entryId: string, numberText: real -> string)
      requires Valid()
      modifies this
      ensures Valid()
      ensures (old(activeQuotationId).None? || old(activeQuotationId).value == "") ==> quotations == old(quotations)
      ensures old(activeQuotationId).Some? && old(activeQuotationId).value != "" ==>
        quotations == SaveInto(old(quotations), old(activeQuotationId).value, data, now, entryId, numberText)
      ensures data == old(data) && skills == old(skills) && activeQuotationId == old(activeQuotationId)
      ensures activeStep == old(activeStep) && view == old(view)
      ensures activeSkillInputId == old(activeSkillInputId) && tempSkillInput == old(tempSkillInput)
    {
      if activeQuotationId.None? || activeQuotationId.value == "" {
        return;
      }
      quotations := SaveInto(quotations, activeQuotationId.value, data, now, entryId, numberText);
    }

    /** "Back to Dashboard": saves the open quotation, then closes the editor. */
    method BackToDashboard(now: string, entryId: string, numberText: real -> string)
      requires Valid()
      modifies this
      ensures Valid()
      ensures (old(activeQuotationId).None? || old(activeQuotationId).value == "") ==> quotations == old(quotations)
      ensures old(activeQuotationId).Some? && old(activeQuotationId).value != "" ==>
        quotations == SaveInto(old(quotations), old(activeQuotationId).value, data, now, entryId, numberText)
      ensures view == Dashboard && activeQuotationId == None
      ensures data == old(data) && skills == old(skills) && activeStep == old(activeStep)
      ensures activeSkillInputId == old(activeSkillInputId) && tempSkillInput == old(tempSkillInput)
    {
      SaveQuotation(now, entryId, numberText);
      view := Dashboard;
      activeQuotationId := None;
    }

    // -------------------------------------------------------------------------
    // Events
    // -------------------------------------------------------------------------

    /** Adding an event from a template raises the base amount by the template's cost. */
    method AddEventFromTemplate(t: EventTemplate, newId: string)
      requires Valid()
      modifies this
      ensures Valid() && OnlyDataChanged()
      ensures data == Calculations.SyncedBase(old(data).(events := old(data.events) + [EventFromTemplate(t, newId)]))
      ensures data.financials.baseAmount == old(data.financials.baseAmount) + OrZero(t.defaultCost)
    {
      data := data.(events := data.events + [EventFromTemplate(t, newId)]);
      Calculations.EventCostAppend(old(data.events), EventFromTemplate(t, newId));
      SyncBaseAmount();
    }

    /** Adding a custom event appends a blank event of cost 0; the base amount stays. */
    method AddCustomEvent(newId: string)
      requires Valid()
      modifies this
      ensures Valid() && OnlyDataChanged()
      ensures data == old(data).(events := old(data.events) + [CustomEvent(newId)])
    {
      data := data.(events := data.events + [CustomEvent(newId)]);
      Calculations.EventCostAppend(old(data.events), CustomEvent(newId));
      SyncBaseAmount();
    }

    /** Removing an event (once confirmed) drops every event with that id. */
    method RemoveEvent(id: string)
      requires Valid()
      modifies this
      ensures Valid() && OnlyDataChanged()
      ensures data == Calculations.SyncedBase(old(data).(events := Seqs.Filter(old(data.events), NotEvent(id))))
      ensures forall i :: 0 <= i < |data.events| ==> data.events[i].id != id
    {
      data := data.(events := Seqs.Filter(data.events, NotEvent(id)));
      SyncBaseAmount();
    }

    /** Editing an event's cost stores the parsed number (0 when it fails) and moves the base amount with it. */
    method SetEventCost(idx: nat, parsed: JsNumber)
      requires Valid() && idx < |data.events|
      modifies this
      ensures Valid() && OnlyDataChanged()
      ensures data == Calculations.SyncedBase(old(data).(events :=
                old(data.events)[idx := old(data.events)[idx].(approxCost := Num(OrZero(parsed)))]))
      ensures data.financials.baseAmount
           == old(data.financials.baseAmount) - OrZero(old(data.events)[idx].approxCost) + OrZero(parsed)
    {
      var e := data.events[idx].(approxCost := Num(OrZero(parsed)));
      Calculations.EventCostUpdate(data.events, idx, e);
      data := data.(events := data.events[idx := e]);
      SyncBaseAmount();
    }

    // -------------------------------------------------------------------------
    // Team builder
    // -------------------------------------------------------------------------

    /** Replaces the team of event `idx`; the costs, and so the base amount, do not move. */
    method SetTeam(idx: nat, team: seq<TeamMember>)
      requires Valid() && idx < |data.events|
      modifies this
      ensures Valid() && OnlyDataChanged()
      ensures data == old(data).(events := old(data.events)[idx := old(data.events)[idx].(team := team)])
    {
      var e := data.events[idx].(team := team);
      Calculations.EventCostUpdate(data.events, idx, e);
      data := data.(events := data.events[idx := e]);
      SyncBaseAmount();
    }

    /** The "-" control on member `m` of event `idx`. */
    method DecrementMember(idx: nat, m: nat)
      requires Valid() && idx < |data.events| && m < |data.events[idx].team|
      modifies this
      ensures Valid() && OnlyDataChanged()
      ensures data == old(data).(events := old(data.events)[idx :=
                old(data.events)[idx].(team := TeamBuilder.Decrement(old(data.events)[idx].team, m))])
    {
      SetTeam(idx, TeamBuilder.Decrement(data.events[idx].team, m));
    }

    /** The "+" control on member `m` of event `idx`. */
    method IncrementMember(idx: nat, m: nat)
      requires Valid() && idx < |data.events| && m < |data.events[idx].team|
      modifies this
      ensures Valid() && OnlyDataChanged()
      ensures data == old(data).(events := old(data.events)[idx :=
                old(data.events)[idx].(team := TeamBuilder.Increment(old(data.events)[idx].team, m))])
    {
      SetTeam(idx, TeamBuilder.Increment(data.events[idx].team, m));
    }

    /** The remove control on member `m` of event `idx`. */
    method RemoveMember(idx: nat, m: nat)
      requires Valid() && idx < |data.events| && m < |data.events[idx].team|
      modifies this
      ensures Valid() && OnlyDataChanged()
      ensures data == old(data).(events := old(data.events)[idx :=
                old(data.events)[idx].(team := TeamBuilder.RemoveAt(old(data.events)[idx].team, m))])
    {
      SetTeam(idx, TeamBuilder.RemoveAt(data.events[idx].team, m));
    }

    /**
     * The member picker of event `idx`: "create new" opens the skill input
     * for that event, the empty choice does nothing, and a skill id is added
     * with count 1 unless the team already has it.
     */
    method PickTeamOption(idx: nat, option: string)
      requires Valid() && idx < |data.events|
      modifies this
      ensures Valid()
      ensures quotations == old(quotations) && skills == old(skills)
      ensures activeQuotationId == old(activeQuotationId) && activeStep == old(activeStep) && view == old(view)
      ensures option == CreateNewOption ==>
        data == old(data) && activeSkillInputId == Some(old(data.events)[idx].id) && tempSkillInput == ""
      ensures option != CreateNewOption ==>
        activeSkillInputId == old(activeSkillInputId) && tempSkillInput == old(tempSkillInput)
      ensures option == "" ==> data == old(data)
      ensures option != CreateNewOption && option != "" ==>
        data == old(data).(events := old(data.events)[idx :=
                  old(data.events)[idx].(team := TeamBuilder.AddSkill(old(data.events)[idx].team, option))])
    {
      if option == CreateNewOption {
        activeSkillInputId := Some(data.events[idx].id);
        tempSkillInput := "";
      } else if option != "" {
        if !TeamBuilder.HasSkill(data.events[idx].team, option) {
          SetTeam(idx, data.events[idx].team + [TeamMember(option, 1)]);
        }
      }
    }

    /**
     * Creating a skill from the team builder (see `CreateSkill`); when the
     * name is not blank the new-skill input is also closed.
     */
    method CreateAndAddSkill(skillName: string, contextId: string, isTemplate: bool, newSkillId: string)
      returns (skillId: Option<string>)
      requires Valid()
      modifies this
      ensures Valid()
      ensures quotations == old(quotations) && activeQuotationId == old(activeQuotationId)
      ensures activeStep == old(activeStep) && view == old(view)
      ensures CreateSkill(old(skills), old(data), skillName, contextId, isTemplate, newSkillId).None? ==>
        && skillId == None && data == old(data) && skills == old(skills)
        && activeSkillInputId == old(activeSkillInputId) && tempSkillInput == old(tempSkillInput)
      ensures CreateSkill(old(skills), old(data), skillName, contextId, isTemplate, newSkillId).Some? ==>
        && skillId == Some(CreateSkill(old(skills), old(data), skillName, contextId, isTemplate, newSkillId).value.skillId)
        && skills == CreateSkill(old(skills), old(data), skillName, contextId, isTemplate, newSkillId).value.skills
        && data == CreateSkill(old(skills), old(data), skillName, contextId, isTemplate, newSkillId).value.data
        && activeSkillInputId == None && tempSkillInput == ""
    {
      var outcome := CreateSkill(skills, data, skillName, contextId, isTemplate, newSkillId);
      match outcome
      case None =>
        skillId := None;
      case Some(c) =>
        activeSkillInputId := None;
        tempSkillInput := "";
        skills := c.skills;
        data := c.data;
        skillId := Some(c.skillId);
    }

    // -------------------------------------------------------------------------
    // Add-ons and discount
    // -------------------------------------------------------------------------

    method AddAddOn(newId: string)
      requires Valid()
      modifies this
      ensures Valid() && OnlyDataChanged()
      ensures data == old(data).(addOns := old(data.addOns) + [NewAddOn(newId)])
    {
      data := data.(addOns := data.addOns + [NewAddOn(newId)]);
    }

    /** Removing add-on `idx`: `addOns.filter((_, i) => i !== idx)`. */
    method RemoveAddOn(idx: nat)
      requires Valid() && idx < |data.addOns|
      modifies this
      ensures Valid() && OnlyDataChanged()
      ensures data == old(data).(addOns := old(data.addOns)[..idx] + old(data.addOns)[idx + 1..])
    {
      data := data.(addOns := data.addOns[..idx] + data.addOns[idx + 1..]);
    }

    /** Editing an add-on's price stores the parsed number, or 0 when parsing fails. */
    method SetAddOnPrice(idx: nat, parsed: JsNumber)
      requires Valid() && idx < |data.addOns|
      modifies this
      ensures Valid() && OnlyDataChanged()
      ensures data == old(data).(addOns := old(data.addOns)[idx := old(data.addOns)[idx].(price := Num(OrZero(parsed)))])
    {
      data := data.(addOns := data.addOns[idx := data.addOns[idx].(price := Num(OrZero(parsed)))]);
    }

    /** Editing the discount stores the parsed number, or 0; no milestone amount is recomputed. */
    method SetDiscount(parsed: JsNumber)
      requires Valid()
      modifies this
      ensures Valid() && OnlyDataChanged()
      ensures data == old(data).(financials := old(data.financials).(discount := OrZero(parsed)))
    {
      data := data.(financials := data.financials.(discount := OrZero(parsed)));
    }

    // -------------------------------------------------------------------------
    // Payment milestones
    // -------------------------------------------------------------------------

    method AddMilestone(newId: string)
      requires Valid()
      modifies this
      ensures Valid() && OnlyDataChanged()
      ensures data == old(data).(financials := old(data.financials).(
                paymentMilestones := old(data.financials.paymentMilestones) + [NewMilestone(newId)]))
      ensures Calculations.CalculateTotals(data).totalPaid == Calculations.CalculateTotals(old(data)).totalPaid
    {
      var ms := data.financials.paymentMilestones;
      Calculations.InsertUnpaidMilestone(ms, |ms|, NewMilestone(newId));
      assert ms[..|ms|] + [NewMilestone(newId)] + ms[|ms|..] == ms + [NewMilestone(newId)];
      data := data.(financials := data.financials.(paymentMilestones := ms + [NewMilestone(newId)]));
    }

    /** Removing a milestone drops every milestone with that id. */
    method RemoveMilestone(id: string)
      requires Valid()
      modifies this
      ensures Valid() && OnlyDataChanged()
      ensures data == old(data).(financials := old(data.financials).(
                paymentMilestones := Seqs.Filter(old(data.financials.paymentMilestones), NotMilestone(id))))
    {
      data := data.(financials := data.financials.(
                paymentMilestones := Seqs.Filter(data.financials.paymentMilestones, NotMilestone(id))));
    }

    /** Changing a milestone's type does not recompute its amount. */
    method SetMilestoneKind(idx: nat, kind: MilestoneKind)
      requires Valid() && idx < |data.financials.paymentMilestones|
      modifies this
      ensures Valid() && OnlyDataChanged()
      ensures data == old(data).(financials := old(data.financials).(
                paymentMilestones := old(data.financials.paymentMilestones)[idx :=
                  old(data.financials.paymentMilestones)[idx].(kind := kind)]))
    {
      var ms := data.financials.paymentMilestones;
      data := data.(financials := data.financials.(paymentMilestones := ms[idx := ms[idx].(kind := kind)]));
    }

    /**
     * Editing a milestone's value stores the parsed number (0 when it fails)
     * and recomputes that milestone's amount from the current grand total;
     * no other milestone is touched.
     */
    method SetMilestoneValue(idx: nat, parsed: JsNumber)
      requires Valid() && idx < |data.financials.paymentMilestones|
      modifies this
      ensures Valid() && OnlyDataChanged()
      ensures data == old(data).(financials := old(data.financials).(
                paymentMilestones := WithValue(old(data.financials.paymentMilestones), idx, OrZero(parsed),
                                               Calculations.CalculateTotals(old(data)).grandTotal)))
      ensures Calculations.CalculateTotals(data).grandTotal == Calculations.CalculateTotals(old(data)).grandTotal
    {
      var totals := Calculations.CalculateTotals(data);
      var ms := WithValue(data.financials.paymentMilestones, idx, OrZero(parsed), totals.grandTotal);
      Calculations.TotalsIgnoreSchedule(data, ms);
      data := data.(financials := data.financials.(paymentMilestones := ms));
    }

    /** Ticking or clearing a milestone's paid box. */
    method SetMilestonePaid(idx: nat, paid: bool)
      requires Valid() && idx < |data.financials.paymentMilestones|
      modifies this
      ensures Valid() && OnlyDataChanged()
      ensures data == old(data).(financials := old(data.financials).(
                paymentMilestones := old(data.financials.paymentMilestones)[idx :=
                  old(data.financials.paymentMilestones)[idx].(isPaid := paid)]))
    {
      var ms := data.financials.paymentMilestones;
      data := data.(financials := data.financials.(paymentMilestones := ms[idx := ms[idx].(isPaid := paid)]));
    }

    // -------------------------------------------------------------------------
    // Wizard navigation
    // -------------------------------------------------------------------------

    /** "Previous": one step back, disabled on the first step. */
    method PreviousStep()
      requires Valid()
      modifies this
      ensures Valid() && OnlyStepChanged()
      ensures activeStep == if old(activeStep) == FirstStep then FirstStep else old(activeStep) - 1
    {
      if activeStep != FirstStep {
        activeStep := activeStep - 1;
      }
    }

    /** "Next Step": one step forward, disabled on the last step. */
    method NextStep()
      requires Valid()
      modifies this
      ensures Valid() && OnlyStepChanged()
      ensures activeStep == if old(activeStep) == LastStep then LastStep else old(activeStep) + 1
    {
      if activeStep != LastStep {
        activeStep := activeStep + 1;
      }
    }

    /** Clicking a step of the stepper, whose buttons are the steps 1 to 5. */
    method GoToStep(step: int)
      requires Valid() && FirstStep <= step <= LastStep
      modifies this
      ensures Valid() && OnlyStepChanged() && activeStep == step
    {
      activeStep := step;
    }
  }
}
