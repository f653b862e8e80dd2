/**
 * The records of the quotation builder: a quotation (client, events,
 * financials, add-ons, terms), the skill and event-template masters, and the
 * saved quotation records with their history log.
 */
module Types {

  datatype Option<T> = None | Some(value: T)

  /**
   * A JavaScript number field that may also hold a non-numeric value
   * (`NaN`, `undefined`, the result of a failed `parseFloat`).
   */
  datatype JsNumber = Num(v: real) | NaN

  /** `Number(x) || 0` and `x || 0` on a number field: the value, or 0 when it is not a number. */
  function OrZero(x: JsNumber): (r: real)
    ensures x.Num? ==> r == x.v
    ensures x.NaN? ==> r == 0.0
  {
    match x
    case Num(v) => v
    case NaN => 0.0
  }

  datatype TeamMember = TeamMember(skillId: string, count: int)

  datatype Skill = Skill(id: string, name: string)

  datatype EventTemplate = EventTemplate(
    id: string,
    name: string,
    defaultDuration: string,
    defaultTeam: seq<TeamMember>,
    defaultCost: JsNumber)

  /** One coverage session of the quotation. An absent decided-flag reads as false. */
  datatype EventItem = EventItem(
    id: string,
    name: string,
    isDateDecided: bool,
    date: string,
    timeRange: string,
    isVenueDecided: bool,
    venue: string,
    duration: string,
    team: seq<TeamMember>,
    notes: string,
    approxCost: JsNumber)

  datatype MilestoneKind = Percentage | Fixed

  datatype PaymentMilestone = PaymentMilestone(
    id: string,
    name: string,
    kind: MilestoneKind,
    value: real,
    amount: real,
    dueDate: string,
    isPaid: bool,
    paidAt: Option<string>,
    paymentMethod: Option<string>,
    proofFile: Option<string>)

  /** The package's money settings; `gstRate` is a percentage, an absent advance reads as 0. */
  datatype Financials = Financials(
    packageName: string,
    baseAmount: real,
    discount: real,
    gstRate: real,
    advanceAmount: real,
    paymentMilestones: seq<PaymentMilestone>,
    notes: string)

  datatype AddOn = AddOn(id: string, service: string, description: string, price: JsNumber)

  datatype TermsAndDeliverables = TermsAndDeliverables(
    deliverables: string,
    deliveryTimeline: string,
    bankDetails: string,
    paymentTerms: string,
    terms: string,
    clientSignName: string,
    studioSignName: string)

  /** The status is kept as the text the editor stores. */
  datatype ClientDetails = ClientDetails(
    id: Option<string>,
    name: string,
    company: string,
    phone: string,
    email: string,
    address: string,
    tagline: string,
    locations: string,
    reference: string,
    date: string,
    validTill: string,
    quoNumber: string,
    status: string)

  datatype QuotationData = QuotationData(
    client: ClientDetails,
    events: seq<EventItem>,
    financials: Financials,
    addOns: seq<AddOn>,
    meta: TermsAndDeliverables)

  datatype HistoryLog = HistoryLog(id: string, timestamp: string, user: string, action: string)

  datatype QuotationRecord = QuotationRecord(
    id: string,
    createdAt: string,
    updatedAt: string,
    data: QuotationData,
    history: seq<HistoryLog>)
}
