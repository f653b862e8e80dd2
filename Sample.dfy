/**
 * The sample quotation the application starts with (two events, one add-on,
 * a 30/40/30 payment schedule with the first part paid) and the figures the
 * model derives for it.
 */
module Sample {
  import opened Types
  import Text
  import Calculations
  import Editor
  import Preview

  const CandidPhotographer: Skill := Skill("s1", "Candid Photographer")
  const TraditionalPhotographer: Skill := Skill("s2", "Traditional Photographer")
  const Cinematographer: Skill := Skill("s3", "Cinematographer")

  /** The skill master the application starts with. */
  const InitialSkills: seq<Skill> := [
    CandidPhotographer,
    TraditionalPhotographer,
    Cinematographer,
    Skill("s4", "Drone Pilot"),
    Skill("s5", "Traditional Videographer"),
    Skill("s6", "Album Designer"),
    Skill("s7", "Assistant")
  ]

  const HaldiTeam: seq<TeamMember> := [TeamMember("s1", 1), TeamMember("s2", 1)]

  const Haldi: EventItem := EventItem(
    "1", "Haldi Ceremony", false, "2026-11-24", "10:00 AM \U{2013} 2:00 PM", false, "Lucknow (Home)",
    "4\U{2013}5 Hours", HaldiTeam, "Day function \U{2013} mostly family ritual coverage.", Num(25000.0))

  const Sangeet: EventItem := EventItem(
    "2", "Sangeet Ceremony", false, "2026-11-25", "5:00 PM \U{2013} 11:00 PM", false, "Lucknow Banquet",
    "5\U{2013}6 Hours", [TeamMember("s1", 1), TeamMember("s3", 1), TeamMember("s2", 1)], "", Num(40000.0))

  const Schedule: seq<PaymentMilestone> := [
    PaymentMilestone("1", "Booking Advance", Percentage, 30.0, 21240.0, "", true, Some("2025-01-05"), Some("UPI"), None),
    PaymentMilestone("2", "Wedding Day", Percentage, 40.0, 28320.0, "2026-11-29", false, None, None, None),
    PaymentMilestone("3", "Final Delivery", Percentage, 30.0, 21240.0, "", false, None, None, None)
  ]

  const DeliveryLines: seq<string> := [
    "Photos: 10\U{2013}12 Days",
    "Videos: 25\U{2013}30 Days",
    "Albums: 10\U{2013}15 Days After Selection"
  ]

  /**
   * The initial quotation; its date and validity are computed from the clock
   * and come in as parameters. Fields the sample leaves out (address,
   * advance, payment terms, the decided-flags) read as empty, 0 or false.
   */
  function SampleQuotation(today: string, validTill: string): QuotationData {
    QuotationData(
      ClientDetails(None, "Rahul Sharma & Priya Verma", "", "+91-9876543210", "rahul.priya@example.com", "",
                    "Wedding Coverage \U{2013} Lucknow & Varanasi",
                    "Lucknow (Haldi, Sangeet, Wedding) & Varanasi (Reception)",
                    "Instagram / Friend Reference", today, validTill, "QUO-2025-0012", "Draft"),
      [Haldi, Sangeet],
      Financials("Complete Mix Package \U{2013} Haldi + Sangeet + Wedding + Reception",
                 65000.0, 5000.0, 18.0, 0.0, Schedule,
                 "Includes travel within city limits and standard editing."),
      [AddOn("1", "LED Wall Live", "Live projection setup with LED", Num(15000.0))],
      TermsAndDeliverables("", Text.Join(DeliveryLines, "\n"), "", "", "", "Rahul Sharma",
                           "Mera Studio & Films \U{2013} Authorized Signatory"))
  }

  /** The stored base amount is already the sum of the two event costs. */
  lemma SampleIsSynced(today: string, validTill: string)
    ensures Calculations.BaseSynced(SampleQuotation(today, validTill))
    ensures Calculations.SyncedBase(SampleQuotation(today, validTill)) == SampleQuotation(today, validTill)
  {
    var q := SampleQuotation(today, validTill);
    assert Calculations.EventCosts(q.events) == [25000.0, 40000.0];
    assert [25000.0, 40000.0][..1] == [25000.0];
    assert [25000.0][..0] == [];
  }

  /**
   * The summary figures: 65000 - 5000 + 15000 = 75000 taxable, GST 13500,
   * grand total 88500, 21240 received, 67260 due.
   */
  lemma SampleTotals(today: string, validTill: string)
    ensures Calculations.CalculateTotals(SampleQuotation(today, validTill))
         == Calculations.CalculatedTotals(60000.0, 13500.0, 88500.0, 21240.0, 67260.0, 65000.0)
  {
    var q := SampleQuotation(today, validTill);
    SampleIsSynced(today, validTill);
    assert Calculations.AddOnPrices(q.addOns) == [15000.0];
    assert [15000.0][..0] == [];
    assert Calculations.TotalAddOns(q.addOns) == 15000.0;
    var c := Calculations.PaidContributions(Schedule);
    assert c == [21240.0, 0.0, 0.0];
    assert c[..2] == [21240.0, 0.0] && c[..2][..1] == [21240.0] && c[..2][..1][..0] == [];
    assert Calculations.Sum(c[..2][..1]) == 21240.0;
    assert Calculations.Sum(c[..2]) == 21240.0;
    assert Calculations.Sum(c) == 21240.0;
    var t := Calculations.CalculateTotals(q);
    assert t.grandTotal == 75000.0 * (1.0 + 18.0 / 100.0) == 88500.0;
  }

  /**
   * The stored milestone amounts are 30/40/30 % of 70800, the grand total
   * before the add-on was counted, not of the current 88500: they are stale
   * until each value is edited again.
   */
  lemma SampleAmountsAreStale()
    ensures Calculations.AllPercentOf(Schedule, 70800.0)
    ensures !Calculations.AllPercentOf(Schedule, 88500.0)
  {
    assert Schedule[0].amount != Calculations.MilestoneAmount(Percentage, 30.0, 88500.0);
  }

  /** Re-entering the first milestone's 30 % recomputes its amount against the current total. */
  lemma SampleValueEditRefreshesAmount()
    ensures Editor.WithValue(Schedule, 0, 30.0, 88500.0)[0].amount == 26550.0
    ensures Editor.WithValue(Schedule, 0, 30.0, 88500.0)[1..] == Schedule[1..]
  {
  }

  /** Team lines name a member by the first skill with its id, and an id not in the master as unknown. */
  lemma SampleSkillNames()
    ensures Preview.SkillName(InitialSkills, "s2") == TraditionalPhotographer.name
    ensures Preview.SkillName(InitialSkills, "s9") == Preview.UnknownSkill
  {
    assert InitialSkills[1].id == "s2" && InitialSkills[0].id != "s2";
    forall k | 0 <= k < |InitialSkills| ensures InitialSkills[k].id != "s9" {
      assert InitialSkills[k].id[1] != '9';
    }
  }

  /** The delivery timeline is listed line by line; the sample's undecided date shows the placeholder. */
  lemma SampleTimeline(today: string, validTill: string)
    ensures Preview.RenderList(SampleQuotation(today, validTill).meta.deliveryTimeline) == DeliveryLines
    ensures Preview.DateLine(Haldi) == Preview.ToBeConfirmed
  {
    forall i | 0 <= i < |DeliveryLines| ensures '\n' !in DeliveryLines[i] && !Text.IsBlank(DeliveryLines[i]) {
      assert !Text.IsWhitespace(DeliveryLines[i][0]);
    }
    Preview.RenderListOfJoinedLines(DeliveryLines);
  }
}
