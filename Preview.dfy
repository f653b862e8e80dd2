/**
 * The text-shaping rules of the printable quotation: bullet lists from
 * multi-line fields, the team line of an event, the add-ons subtotal, the
 * rows of the package summary that are shown only under a condition, the
 * "to be confirmed" placeholders, and the fallbacks for empty fields.
 */
module Preview {
  import opened Types
  import Text
  import Seqs
  import Calculations

  // ---------------------------------------------------------------------------
  // Bullet lists (deliverables, payment terms, delivery timeline, terms)
  // ---------------------------------------------------------------------------

  /** The line filter `line.trim() !== ''`. */
  function KeepLine(): string -> bool {
    (line: string) => Text.Trim(line) != ""
  }

  /**
   * `renderList`: the newline-separated lines of `text`, in order, without
   * those that are blank; the kept lines are not trimmed.
   */
  function RenderList(text: string): (items: seq<string>)
    ensures |items| <= |Text.Split(text, '\n')|
    ensures forall i :: 0 <= i < |items| ==> items[i] in Text.Split(text, '\n')
    ensures forall i :: 0 <= i < |items| ==> '\n' !in items[i] && !Text.IsBlank(items[i])
  {
    var lines := Text.Split(text, '\n');
    var items := Seqs.Filter(lines, KeepLine());
    assert forall i :: 0 <= i < |items| ==> '\n' !in items[i] && !Text.IsBlank(items[i]) by {
      forall i | 0 <= i < |items| ensures '\n' !in items[i] && !Text.IsBlank(items[i]) {
        Text.TrimEmptyIffBlank(items[i]);
        var k :| 0 <= k < |lines| && lines[k] == items[i];
      }
    }
    items
  }

  /** A single line is one item, or none when it is blank. */
  lemma RenderListSingleLine(line: string)
    requires '\n' !in line
    ensures RenderList(line) == (if Text.IsBlank(line) then [] else [line])
  {
    Text.SplitNoSeparator(line, '\n');
    Text.TrimEmptyIffBlank(line);
    assert [line][1..] == [];
  }

  /** A line break between two texts splits the list between them: nothing is merged, lost or reordered. */
  lemma RenderListConcat(a: string, b: string)
    ensures RenderList(a + "\n" + b) == RenderList(a) + RenderList(b)
  {
    Text.SplitAtSeparator(a, b, '\n');
    Seqs.FilterAppend(Text.Split(a, '\n'), Text.Split(b, '\n'), KeepLine());
  }

  /** Lines without line breaks and none blank, joined by line breaks, come back as exactly those lines. */
  lemma RenderListOfJoinedLines(lines: seq<string>)
    requires |lines| >= 1
    requires forall i :: 0 <= i < |lines| ==> '\n' !in lines[i] && !Text.IsBlank(lines[i])
    ensures RenderList(Text.Join(lines, "\n")) == lines
  {
    Text.SplitJoin(lines, '\n');
    forall i | 0 <= i < |lines| ensures KeepLine()(lines[i]) {
      Text.TrimEmptyIffBlank(lines[i]);
    }
    Seqs.FilterKeepsAll(lines, KeepLine());
  }

  /** A text with no blank line is shown whole: joining the items by line breaks gives it back. */
  lemma RenderListKeepsText(text: string)
    requires forall i :: 0 <= i < |Text.Split(text, '\n')| ==> !Text.IsBlank(Text.Split(text, '\n')[i])
    ensures Text.Join(RenderList(text), "\n") == text
  {
    var lines := Text.Split(text, '\n');
    forall i | 0 <= i < |lines| ensures KeepLine()(lines[i]) {
      Text.TrimEmptyIffBlank(lines[i]);
    }
    Seqs.FilterKeepsAll(lines, KeepLine());
    Text.JoinSplit(text, '\n');
  }

  // ---------------------------------------------------------------------------
  // The team line of an event
  // ---------------------------------------------------------------------------

  /** The name shown for a skill id that is not in the list, or whose name is empty. */
  const UnknownSkill: string := "Unknown Skill"

  function HasId(id: string): Skill -> bool {
    (s: Skill) => s.id == id
  }

  /** `skills.find(s => s.id === id)?.name || 'Unknown Skill'`. */
  function SkillName(skills: seq<Skill>, id: string): (name: string)
    ensures name != ""
    ensures (forall k :: 0 <= k < |skills| ==> skills[k].id != id) ==> name == UnknownSkill
    ensures forall k ::
      (0 <= k < |skills| && skills[k].id == id && skills[k].name != ""
       && (forall j :: 0 <= j < k ==> skills[j].id != id)) ==> name == skills[k].name
    ensures name == UnknownSkill || exists k :: 0 <= k < |skills| && skills[k].id == id && skills[k].name == name
  {
    match Seqs.FirstIndex(skills, HasId(id))
    case None => UnknownSkill
    case Some(k) => if skills[k].name != "" then skills[k].name else UnknownSkill
  }

  /** `${member.count} ${skillName}`. */
  function MemberLabel(m: TeamMember, skills: seq<Skill>): (shown: string)
    ensures |shown| == |Text.IntToText(m.count)| + 1 + |SkillName(skills, m.skillId)|
    ensures shown[..|Text.IntToText(m.count)|] == Text.IntToText(m.count)
    ensures shown[|Text.IntToText(m.count)|] == ' '
    ensures shown[|Text.IntToText(m.count)| + 1..] == SkillName(skills, m.skillId)
    ensures m.count >= 0 ==>
      Text.IsDigits(shown[..|Text.IntToText(m.count)|]) && Text.DigitsValue(shown[..|Text.IntToText(m.count)|]) == m.count
  {
    var count := Text.IntToText(m.count);
    var shown := count + " " + SkillName(skills, m.skillId);
    assert shown[..|count|] == count;
    assert shown[|count| + 1..] == SkillName(skills, m.skillId);
    shown
  }

  function MemberLabels(team: seq<TeamMember>, skills: seq<Skill>): (labels: seq<string>)
    ensures |labels| == |team|
    ensures forall i :: 0 <= i < |team| ==> labels[i] == MemberLabel(team[i], skills)
  {
    seq(|team|, i requires 0 <= i < |team| => MemberLabel(team[i], skills))
  }

  /** A join is at least as long as its first piece. */
  lemma JoinCoversFirst(parts: seq<string>, sep: string)
    requires |parts| >= 1
    ensures |Text.Join(parts, sep)| >= |parts[0]|
  {
  }

  /**
   * `renderTeamString`: '-' for an empty team, otherwise the member labels
   * joined by ", ". The dash stands exactly for an empty team, and a team
   * line starts with its first member's label.
   */
  function TeamString(team: seq<TeamMember>, skills: seq<Skill>): (line: string)
    ensures line == "-" <==> |team| == 0
    ensures |team| >= 1 ==>
      |line| >= |MemberLabel(team[0], skills)| && line[..|MemberLabel(team[0], skills)|] == MemberLabel(team[0], skills)
  {
    if |team| == 0 then "-"
    else
      var labels := MemberLabels(team, skills);
      JoinCoversFirst(labels, ", ");
      var line := Text.Join(labels, ", ");
      assert line[..|labels[0]|] == labels[0];
      line
  }

  /** A one-member team shows that member's label alone. */
  lemma TeamStringSingle(m: TeamMember, skills: seq<Skill>)
    ensures TeamString([m], skills) == MemberLabel(m, skills)
  {
  }

  /** Appending a member appends ", " and its label: labels come in team order. */
  lemma TeamStringAppend(team: seq<TeamMember>, m: TeamMember, skills: seq<Skill>)
    requires |team| >= 1
    ensures TeamString(team + [m], skills) == TeamString(team, skills) + ", " + MemberLabel(m, skills)
  {
    assert MemberLabels(team + [m], skills) == MemberLabels(team, skills) + [MemberLabel(m, skills)];
    Text.JoinSnoc(MemberLabels(team, skills), MemberLabel(m, skills), ", ");
  }

  // ---------------------------------------------------------------------------
  // The add-ons subtotal
  // ---------------------------------------------------------------------------

  /** `addOns.reduce((sum, item) => sum + (item.price || 0), acc)`: adds from the front. */
  function AddOnsFold(acc: real, addOns: seq<AddOn>): real
    decreases |addOns|
  {
    if |addOns| == 0 then acc else AddOnsFold(acc + OrZero(addOns[0].price), addOns[1..])
  }

  /** `addOnsTotal`: it agrees with the add-on total the calculator charges GST on. */
  function AddOnsTotal(addOns: seq<AddOn>): (total: real)
    ensures total == Calculations.TotalAddOns(addOns)
  {
    AddOnsFoldIsSum(0.0, addOns);
    AddOnsFold(0.0, addOns)
  }

  /** The front-to-back fold from `acc` adds the calculator's add-on total to `acc`. */
  lemma {:induction false} AddOnsFoldIsSum(acc: real, addOns: seq<AddOn>)
    ensures AddOnsFold(acc, addOns) == acc + Calculations.TotalAddOns(addOns)
    decreases |addOns|
  {
    if |addOns| > 0 {
      AddOnsFoldIsSum(acc + OrZero(addOns[0].price), addOns[1..]);
      var prices := Calculations.AddOnPrices(addOns);
      assert prices == [OrZero(addOns[0].price)] + Calculations.AddOnPrices(addOns[1..]);
      Calculations.SumAppend([OrZero(addOns[0].price)], Calculations.AddOnPrices(addOns[1..]));
      assert Calculations.Sum([OrZero(addOns[0].price)]) == OrZero(addOns[0].price) by {
        assert [OrZero(addOns[0].price)][..0] == [];
      }
    }
  }

  // ---------------------------------------------------------------------------
  // The package summary and the sections shown under a condition
  // ---------------------------------------------------------------------------

  /** The discount row: shown exactly when the discount lowers the package price. */
  predicate ShowDiscountRow(q: QuotationData): (shown: bool)
    ensures shown <==> Calculations.CalculateTotals(q).packageAfterDiscount < q.financials.baseAmount
  {
    q.financials.discount > 0.0
  }

  /** The add-ons row: a positive subtotal needs an add-on, so it never appears without the add-ons table. */
  predicate ShowAddOnsRow(q: QuotationData): (shown: bool)
    ensures shown ==> ShowAddOnsTable(q)
  {
    AddOnsTotal(q.addOns) > 0.0
  }

  /**
   * The "Advance Paid" row. It is display only: the balance due shown below
   * it is what it would be with no advance at all.
   */
  predicate ShowAdvanceRow(q: QuotationData): (shown: bool)
    ensures shown ==>
      Calculations.CalculateTotals(q).balanceDue
      == Calculations.CalculateTotals(q.(financials := q.financials.(advanceAmount := 0.0))).balanceDue
  {
    AdvanceDoesNotReduceBalance(q, 0.0);
    q.financials.advanceAmount > 0.0
  }

  /** The optional add-ons table; without it no add-on money is charged. */
  predicate ShowAddOnsTable(q: QuotationData): (shown: bool)
    ensures !shown ==> AddOnsTotal(q.addOns) == 0.0
  {
    |q.addOns| > 0
  }

  /** The payment schedule block, shown for non-empty payment terms; hiding it hides no list item. */
  predicate ShowPaymentTerms(q: QuotationData): (shown: bool)
    ensures !shown ==> RenderList(q.meta.paymentTerms) == []
  {
    if q.meta.paymentTerms == "" then
      RenderListSingleLine("");
      false
    else true
  }

  /**
   * What the summary's visible rows add up to: the base amount, minus the
   * discount when its row is shown, plus the add-ons when theirs is.
   */
  function ShownRowsTotal(q: QuotationData): real {
    q.financials.baseAmount
    - (if ShowDiscountRow(q) then q.financials.discount else 0.0)
    + (if ShowAddOnsRow(q) then AddOnsTotal(q.addOns) else 0.0)
  }

  /**
   * The summary has no GST row: with a non-negative discount and add-ons
   * subtotal, the grand total exceeds the visible rows by exactly the GST.
   */
  lemma SummaryGapIsGst(q: QuotationData)
    requires q.financials.discount >= 0.0 && AddOnsTotal(q.addOns) >= 0.0
    ensures Calculations.CalculateTotals(q).grandTotal - ShownRowsTotal(q) == Calculations.CalculateTotals(q).gstAmount
  {
  }

  /**
   * The advance row is display only: the balance due shown below it does
   * not depend on the advance amount.
   */
  lemma AdvanceDoesNotReduceBalance(q: QuotationData, advance: real)
    ensures Calculations.CalculateTotals(q.(financials := q.financials.(advanceAmount := advance))).balanceDue
         == Calculations.CalculateTotals(q).balanceDue
  {
    var q' := q.(financials := q.financials.(advanceAmount := advance));
    assert q'.financials.paymentMilestones == q.financials.paymentMilestones;
    assert q'.financials.baseAmount == q.financials.baseAmount && q'.financials.discount == q.financials.discount;
    assert q'.financials.gstRate == q.financials.gstRate && q'.addOns == q.addOns;
  }

  // ---------------------------------------------------------------------------
  // Event lines, placeholders and fallbacks
  // ---------------------------------------------------------------------------

  /** A line of the event card: a text, or the italic "To be confirmed by client" placeholder. */
  datatype Shown = Text(s: string) | ToBeConfirmed

  /** The separator between an event's date and its time range. */
  const DateSeparator: string := " \U{2022} "

  /** The date line: the date and the time range once a date is decided and entered. */
  function DateLine(ev: EventItem): (r: Shown)
    ensures r.Text? <==> ev.isDateDecided && ev.date != ""
    ensures r.Text? ==> |r.s| == |ev.date| + |DateSeparator| + |ev.timeRange|
                        && r.s[..|ev.date|] == ev.date && r.s[|ev.date| + |DateSeparator|..] == ev.timeRange
                        && r.s[|ev.date|..|ev.date| + |DateSeparator|] == DateSeparator
  {
    if ev.isDateDecided && ev.date != "" then Text(ev.date + DateSeparator + ev.timeRange) else ToBeConfirmed
  }

  /** The venue line: the venue once one is decided and entered. */
  function VenueLine(ev: EventItem): (r: Shown)
    ensures r.Text? <==> ev.isVenueDecided && ev.venue != ""
    ensures r.Text? ==> r.s == ev.venue
  {
    if ev.isVenueDecided && ev.venue != "" then Text(ev.venue) else ToBeConfirmed
  }

  /** The event heading: its name, or "Event <n>" with its 1-based position when the name is empty. */
  function EventTitle(ev: EventItem, index: nat): (title: string)
    ensures title != ""
    ensures ev.name != "" ==> title == ev.name
    ensures ev.name == "" ==>
      && |title| > 6 && title[..6] == "Event " && Text.IsDigits(title[6..])
      && Text.DigitsValue(title[6..]) == index + 1
  {
    if ev.name != "" then ev.name
    else
      var t := "Event " + Text.NatToText(index + 1);
      assert t[6..] == Text.NatToText(index + 1);
      Text.NatToTextRoundTrip(index + 1);
      t
  }

  /** "Prepared For": `name.split('&')[0]`, the client name up to its first '&'. */
  function PreparedFor(name: string): (r: string)
    ensures '&' !in r
    ensures |r| <= |name| && r == name[..|r|]
    ensures |r| < |name| ==> name[|r|] == '&'
    ensures '&' !in name ==> r == name
  {
    PreparedForIsPrefix(name);
    Text.Split(name, '&')[0]
  }

  /** The first piece of a split is the text before the first separator. */
  lemma {:induction false} PreparedForIsPrefix(name: string)
    ensures var r := Text.Split(name, '&')[0];
      && |r| <= |name| && r == name[..|r|]
      && (|r| < |name| ==> name[|r|] == '&')
      && ('&' !in name ==> r == name)
  {
    if name != [] {
      PreparedForIsPrefix(name[1..]);
      if '&' !in name {
        assert '&' !in name[1..];
        assert name == [name[0]] + name[1..];
      }
    }
  }

  /** A name with an '&' is shown up to the first one. */
  lemma PreparedForStopsAtAmpersand(a: string, b: string)
    requires '&' !in a
    ensures PreparedFor(a + "&" + b) == a
  {
    Text.SplitAtSeparator(a, b, '&');
    Text.SplitNoSeparator(a, '&');
  }

  /** `value || fallback`: an empty field shows the fallback (company, address, client signature). */
  function OrElse(value: string, fallback: string): (r: string)
    ensures value != "" ==> r == value
    ensures value == "" ==> r == fallback
  {
    if value != "" then value else fallback
  }

  /** The company and address show '-' when empty. */
  function CompanyText(c: ClientDetails): (r: string)
    ensures r != "" && (c.company != "" ==> r == c.company)
    ensures c.company == "" ==> r == "-"
  {
    OrElse(c.company, "-")
  }

  function AddressText(c: ClientDetails): (r: string)
    ensures r != "" && (c.address != "" ==> r == c.address)
    ensures c.address == "" ==> r == "-"
  {
    OrElse(c.address, "-")
  }

  /** The client's signature line shows "Client Signature" until a name is entered. */
  function ClientSignature(m: TermsAndDeliverables): (r: string)
    ensures r != "" && (m.clientSignName != "" ==> r == m.clientSignName)
    ensures m.clientSignName == "" ==> r == "Client Signature"
  {
    OrElse(m.clientSignName, "Client Signature")
  }
}
