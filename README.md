# Quotation builder — a verified model of its money and editing rules

The quotation builder is a single-page application a photography studio uses
to put together a client quotation. A quotation has client details, a list of
events (coverage sessions, each with a cost and a team of skills), financials
(base amount, discount, GST rate, payment milestones), optional add-ons and
terms. The application derives a totals summary from it. It keeps the stored
base amount equal to the sum of the event costs. It saves the editor buffer
into a list of quotation records with a short history digest, and it renders a
printable preview.

This project models that core in Dafny:

- `Types`: the records of `types.ts`. Numeric fields that the application
  coerces with `Number(x) || 0`, `x || 0` or `parseFloat(x) || 0` are a
  `JsNumber` (a number, or not a number). `OrZero` is the coercion.
- `Calculations`: `calculateTotals`, the base-amount synchronisation rule and
  the amount of a payment milestone. All amounts are `real`.
- `TeamBuilder`: the new team each team-builder control hands back, and the
  team shape those controls keep (counts at least 1, no skill listed twice).
- `Skills`: reuse-or-create of a skill by case-insensitive name, and adding
  the chosen skill to an event's team.
- `History`: what a save writes into a record, including the three-field
  change digest.
- `Editor`: the application state as a class. It holds the editor buffer,
  the saved quotations, the skill master, the active quotation, the screen,
  the wizard step and the inline new-skill input. Its methods are the
  handlers. Its invariant `Valid()` says the wizard step is in 1..5 and the
  stored base amount equals the event total.
- `Preview`: the text-shaping rules of the printable quotation. These are
  bullet lists, team lines, the add-ons subtotal, the summary rows that appear
  only under a condition, the "to be confirmed" placeholders and the
  fallbacks for empty fields.
- `Text` and `Seqs`: the JavaScript string and array operations these rest
  on (`split`, `join`, `trim`, `toLowerCase`, `find`, `filter`).
- `Sample`: the initial quotation of `constants.ts` and the figures the model
  derives for it. These are a grand total of 88500, 21240 received and 67260
  due. The stored milestone amounts are 30/40/30 % of 70800, not of the
  current 88500.

Three points where the code behaves differently from what its types and names suggest:

- GST is always charged at `financials.gstRate`. That field is read by
  App.tsx:81 and set in constants.ts:114, but `Financials` in types.ts:78-85
  does not declare it.
- The amount received is the sum of the paid milestones. The advance amount is
  only shown in the preview and never reduces the balance.
- The save digest watches exactly three fields: client name, base amount and
  number of add-ons.

The editor never writes `isDateDecided`, `isVenueDecided`,
`financials.advanceAmount` or `meta.paymentTerms` (types.ts:52, 55, 82, 98
declare them; only the preview at PreviewSection.tsx:81, 84, 121, 176 reads
them). The decided branches of `Preview.DateLine` and `Preview.VenueLine`, the
advance row and the payment-terms block are therefore reachable only from data
supplied outside the editor; a custom event (App.tsx:788) carries no decided
flag at all, which the model reads as undecided.

## Model

| member | source | states |
|---|---|---|
| Types.OrZero | App.tsx:69 | a non-numeric cost or price counts as 0; a number counts as itself |
| Calculations.EventCostAppend | App.tsx:69 | adding an event adds exactly its coerced cost to the event total |
| Calculations.EventCostConcat | App.tsx:69 | the event total of a concatenation is the sum of the two totals |
| Calculations.EventCostUpdate | App.tsx:69 | replacing one event moves the event total by the difference of the coerced costs |
| Calculations.TotalEventCost | App.tsx:69 | no events total 0, and with no negative numeric cost the event total is not negative |
| Calculations.TotalAddOns | App.tsx:72 | no add-ons total 0, and with no negative numeric price the add-on total is not negative |
| Calculations.PaidMilestones | App.tsx:84-86 | membership only: the filtered list holds only paid milestones of the schedule, and every paid milestone is in it (order and multiplicity enter through the sum, fixed by PaidFilterSum) |
| Calculations.PaidFilterSum | App.tsx:84-86 | the filter-then-sum of amounts equals a sum in which unpaid milestones contribute 0 |
| Calculations.TotalPaid | App.tsx:84-86 | the amount received is the sum in which each milestone contributes its amount when paid and 0 otherwise |
| Calculations.UnpaidMilestonesDoNotCount | App.tsx:84-86 | schedules that agree on which milestones are paid and on their amounts have the same total received |
| Calculations.InsertUnpaidMilestone | App.tsx:84-86 | inserting an unpaid milestone anywhere leaves the total received unchanged |
| Calculations.CalculateTotals | App.tsx:67-98 | the event total is the coerced cost sum; the package after discount uses the stored base amount; grand total = (base − discount + add-ons) × (1 + rate/100); it splits into package + add-ons + GST; balance due + total paid = grand total |
| Calculations.ExcessDiscountIsNotClamped | App.tsx:75-82 | a discount above base plus add-ons gives a negative grand total and a balance below minus the amount received |
| Calculations.GrandTotalReadsStoredBase | App.tsx:75-82 | grand total and balance do not depend on the event list |
| Calculations.TotalsIgnoreSchedule | App.tsx:67-98 | replacing the payment schedule changes only the amount received (and so the balance) |
| Calculations.SyncedBase | App.tsx:103-111 | afterwards the base amount equals the event total; no other field changes; an already synchronised quotation is returned unchanged |
| Calculations.SyncIdempotent | App.tsx:103-111 | synchronising twice is synchronising once |
| Calculations.SyncedPackagePrice | App.tsx:103-111 | once synchronised, the package after discount is the event total minus the discount |
| Calculations.MilestoneAmount | App.tsx:972-976 | a percentage milestone's amount × 100 is grand total × value; a fixed one's amount is its value |
| Calculations.PercentScheduleCoversTotal | App.tsx:972-976 | percentage amounts computed against one grand total add up to that total × (sum of percentages) / 100 |
| TeamBuilder.Decrement | App.tsx:504-508 | "-" lowers member idx by one only when its count is above 1, never below 1, and touches no other member |
| TeamBuilder.Increment | App.tsx:510-514 | "+" adds exactly one to member idx and touches no other member |
| TeamBuilder.RemoveAt | App.tsx:515 | the remove control drops exactly position idx and keeps the others in order |
| TeamBuilder.AddSkill | App.tsx:552-556 | picking a skill adds it with count 1 iff it is absent; afterwards the team has it |
| TeamBuilder.ControlsPreserveWellFormed | App.tsx:504-556 | every control keeps counts at least 1 and skill ids unique |
| TeamBuilder.RemoveDropsSkill | App.tsx:515 | in a well-formed team, removing a member removes its skill and keeps every other skill |
| TeamBuilder.DecrementUndoesIncrement | App.tsx:504-514 | "-" after "+" restores the team |
| TeamBuilder.AddSkillIdempotent | App.tsx:552-556 | picking the same skill twice is picking it once |
| Skills.ResolveSkill | App.tsx:232-240 | a name matching an existing skill up to case reuses the first match and the list does not grow; otherwise one skill with the typed name and the new id is appended |
| Skills.ResolveKeepsNamesDistinct | App.tsx:232-240 | no case-insensitive duplicate names arise, and the chosen id belongs to a skill carrying the name |
| Skills.AddMemberToEvents | App.tsx:246-255 | only events whose id is the context id change, and only their team, by adding the skill when absent |
| Skills.AddMemberKeepsCostsAndTeams | App.tsx:246-255 | adding a member keeps the event total and well-formed teams; the target events then have the skill |
| History.ChangeLines | App.tsx:176-179 | one change line per watched field that differs, in the order client name, base amount, add-on count, and none iff all three agree; the name line quotes the old and new names around the arrow, the base line shows the old and new amounts' text around it, and the add-on line is "Add-ons updated" |
| History.NameLine | App.tsx:177 | `Client Name: "`, the old name, `" → "`, the new name, `"` |
| History.BaseLine | App.tsx:178 | `Base Amount: `, the old amount's text, ` → `, the new amount's text |
| History.SavedRecord | App.tsx:170-197 | the record keeps its id and creation time, takes the buffer and the save time, and gains exactly one history entry at the front iff a watched field changed, with the changes joined by line breaks |
| History.EntryTextSplitsIntoChanges | App.tsx:187 | the entry text splits back into the change lines when names and amounts hold no line break |
| Editor.SaveInto | App.tsx:169-200 | only records with the active id change, each into its saved form |
| Editor.CustomEvent | App.tsx:788 | the custom event has the given id, the name "New Event", no team, cost 0, and date and venue open |
| Editor.EventFromTemplate | App.tsx:768-778 | the event takes the template's name, duration, team and cost, with date, venue and notes open |
| Editor.NewAddOn | App.tsx:877 | the new add-on has blank service and description and price 0 |
| Editor.NewMilestone | App.tsx:932 | the new milestone is an unpaid 0 % "New Phase" whose amount agrees with every grand total |
| Editor.NewRecord | App.tsx:118-134 | the new record has the id and creation time given, the initial quotation with its own number and no add-ons, and one creation entry by the save author |
| Editor.WithValue | App.tsx:967-978 | only milestone idx changes: it takes the parsed value and the amount recomputed from its kind; everything else about it stays |
| Editor.MilestoneEditKeepsTotals | App.tsx:967-978 | a value edit on an unpaid milestone changes neither the grand total nor the amount received |
| Editor.WithSkillMember | App.tsx:242-256 | outside the template editor and for a non-empty id the skill joins the context events; otherwise the buffer is unchanged; the base amount stays synchronised |
| Editor.CreateSkill | App.tsx:229-262 | a blank name yields nothing; otherwise the skill list and id are those of reuse-or-create and the buffer is that of adding the member |
| Editor.CreateSkillRejectsBlankName | App.tsx:230 | nothing happens exactly when the trimmed name is empty |
| Editor.CreateSkillKeepsNamesDistinct | App.tsx:229-257 | skill names stay distinct up to case, the id used carries the typed name, and the context events then have it |
| Editor.QuotationEditor.constructor | App.tsx:27-63 | start-up state: the synchronised initial quotation in the buffer, the sample record as the only quotation, dashboard, step 1 |
| Editor.QuotationEditor.SyncBaseAmount | App.tsx:103-111 | the buffer becomes its synchronised form; nothing is written when already synchronised; nothing else changes |
| Editor.QuotationEditor.CreateQuotation | App.tsx:116-141 | the new record (initial data with its number and no add-ons, one creation entry) goes to the front, becomes active and opens at step 1 |
| Editor.QuotationEditor.EditQuotation | App.tsx:143-152 | the first record with the id is opened at step 1; an unknown id changes nothing |
| Editor.QuotationEditor.DeleteQuotation | App.tsx:154-164 | every record with the id is removed; deleting the open one returns to the dashboard |
| Editor.QuotationEditor.SaveQuotation | App.tsx:166-201 | without an active id nothing changes; otherwise the quotation list becomes SaveInto of the buffer; the buffer is unchanged |
| Editor.QuotationEditor.BackToDashboard | App.tsx:1093 | saves as SaveQuotation does, then shows the dashboard with no active quotation; the buffer is unchanged |
| Editor.QuotationEditor.AddEventFromTemplate | App.tsx:764-781 | the template's event is appended and the base amount rises by its coerced cost |
| Editor.QuotationEditor.AddCustomEvent | App.tsx:787-789 | a "New Event" of cost 0 is appended; the base amount stays |
| Editor.QuotationEditor.RemoveEvent | App.tsx:799 | every event with the id is removed and the base amount follows |
| Editor.QuotationEditor.SetEventCost | App.tsx:840-842 | the parsed cost (0 on failure) is stored and the base amount moves by the difference |
| Editor.QuotationEditor.SetTeam | App.tsx:852-857 | only the team of event idx changes; costs and base amount stay |
| Editor.QuotationEditor.DecrementMember | App.tsx:504-508 | event idx's team becomes TeamBuilder.Decrement of it |
| Editor.QuotationEditor.IncrementMember | App.tsx:510-514 | event idx's team becomes TeamBuilder.Increment of it |
| Editor.QuotationEditor.RemoveMember | App.tsx:515 | event idx's team becomes TeamBuilder.RemoveAt of it |
| Editor.QuotationEditor.PickTeamOption | App.tsx:547-557 | "CREATE_NEW" opens an empty skill input for the event; the empty choice does nothing; a skill id is added as by AddSkill |
| Editor.QuotationEditor.CreateAndAddSkill | App.tsx:229-262 | skills and buffer become those of CreateSkill and the input closes; a blank name changes nothing and returns no id |
| Editor.QuotationEditor.AddAddOn | App.tsx:876-879 | an empty add-on of price 0 is appended |
| Editor.QuotationEditor.RemoveAddOn | App.tsx:895-897 | exactly add-on idx is removed |
| Editor.QuotationEditor.SetAddOnPrice | App.tsx:892-894 | add-on idx takes the parsed price, 0 on failure |
| Editor.QuotationEditor.SetDiscount | App.tsx:917 | the discount takes the parsed number, 0 on failure; no milestone amount is recomputed |
| Editor.QuotationEditor.AddMilestone | App.tsx:931-934 | a "New Phase" 0 % unpaid milestone is appended and the amount received is unchanged |
| Editor.QuotationEditor.RemoveMilestone | App.tsx:940-944 | every milestone with the id is removed |
| Editor.QuotationEditor.SetMilestoneKind | App.tsx:956-960 | only the kind of milestone idx changes; its amount is not recomputed |
| Editor.QuotationEditor.SetMilestoneValue | App.tsx:967-978 | the schedule becomes WithValue against the current grand total, which the edit leaves unchanged |
| Editor.QuotationEditor.SetMilestonePaid | App.tsx:996-1000 | only the paid flag of milestone idx changes |
| Editor.QuotationEditor.PreviousStep | App.tsx:1124-1130 | one step back, staying on step 1; nothing but the step changes |
| Editor.QuotationEditor.NextStep | App.tsx:1131-1137 | one step forward, staying on step 5; nothing but the step changes |
| Editor.QuotationEditor.GoToStep | App.tsx:1105-1115 | the chosen step of 1..5 becomes active; nothing else changes |
| Text.TrimEmptyIffBlank | components/PreviewSection.tsx:22 | `trim` yields the empty string exactly for an all-whitespace string |
| Text.JoinSplit | components/PreviewSection.tsx:22 | joining the pieces of a split with its separator gives the text back |
| Text.SplitJoin | App.tsx:187 | splitting a join of separator-free pieces gives the pieces back |
| Text.NatToTextRoundTrip | components/PreviewSection.tsx:78 | the decimal text of a number reads back as that number |
| Text.IntToText | components/PreviewSection.tsx:33 | the decimal text of an integer: digits reading back as the value, after a minus sign exactly when it is negative |
| Preview.RenderList | components/PreviewSection.tsx:22 | each item is one of the lines of the text, has no line break and is not blank; there are no more items than lines |
| Preview.RenderListSingleLine | components/PreviewSection.tsx:22 | one line is one item, or none when blank |
| Preview.RenderListConcat | components/PreviewSection.tsx:22 | a line break splits the list: nothing is merged, lost or reordered |
| Preview.RenderListOfJoinedLines | components/PreviewSection.tsx:22 | non-blank lines joined by line breaks come back exactly, untrimmed |
| Preview.RenderListKeepsText | components/PreviewSection.tsx:22 | a text with no blank line is shown whole |
| Preview.SkillName | components/PreviewSection.tsx:32 | the name of the first skill with the id, or "Unknown Skill" when there is none or its name is empty |
| Preview.MemberLabel | components/PreviewSection.tsx:33 | the label is the count's decimal text (reading back as the count when it is not negative), one space, then the skill name |
| Preview.MemberLabels | components/PreviewSection.tsx:31-34 | one label per member, in team order |
| Preview.TeamString | components/PreviewSection.tsx:29-35 | "-" exactly for an empty team; otherwise the line starts with the first member's label |
| Preview.TeamStringSingle | components/PreviewSection.tsx:31-34 | a one-member team shows that member's label |
| Preview.TeamStringAppend | components/PreviewSection.tsx:31-34 | appending a member appends ", " and its label |
| Preview.AddOnsFoldIsSum | components/PreviewSection.tsx:37 | the front-to-back fold `AddOnsFold` from an accumulator adds the calculator's add-on total to it |
| Preview.AddOnsTotal | components/PreviewSection.tsx:37 | the preview's add-ons subtotal equals the calculator's add-on total |
| Preview.ShowAddOnsRow | components/PreviewSection.tsx:109 | the add-ons row never appears without the add-ons table |
| Preview.ShowDiscountRow | components/PreviewSection.tsx:103 | the discount row appears exactly when the discount lowers the package price |
| Preview.ShowAdvanceRow | components/PreviewSection.tsx:121 | when the advance row appears, the balance due is what it would be with no advance |
| Preview.ShowAddOnsTable | components/PreviewSection.tsx:136 | without the add-ons table the add-ons subtotal is 0 |
| Preview.ShowPaymentTerms | components/PreviewSection.tsx:176 | hiding the payment terms block hides no list item |
| Preview.SummaryGapIsGst | components/PreviewSection.tsx:101-118 | with non-negative discount and add-ons, the grand total exceeds the visible rows by exactly the GST |
| Preview.AdvanceDoesNotReduceBalance | components/PreviewSection.tsx:121-130 | the balance due does not depend on the advance amount |
| Preview.DateLine | components/PreviewSection.tsx:81 | "date • time" (the date, the separator, the time range) iff the date is decided and non-empty, else the placeholder |
| Preview.VenueLine | components/PreviewSection.tsx:84 | the venue iff it is decided and non-empty, else the placeholder |
| Preview.EventTitle | components/PreviewSection.tsx:78 | the name, or "Event " and digits reading as the 1-based position when the name is empty |
| Preview.PreparedFor | components/PreviewSection.tsx:55 | the longest prefix of the client name without '&'; the whole name when it has none |
| Preview.PreparedForStopsAtAmpersand | components/PreviewSection.tsx:55 | a name with an '&' shows exactly the part before the first one |
| Preview.CompanyText | components/PreviewSection.tsx:64 | the company, or "-" when it is empty |
| Preview.AddressText | components/PreviewSection.tsx:67 | the address, or "-" when it is empty |
| Preview.ClientSignature | components/PreviewSection.tsx:218 | the client's sign name, or "Client Signature" when it is empty |
| Sample.SampleIsSynced | constants.ts:92-112 | the sample's base amount 65000 is the sum of its event costs 25000 and 40000 |
| Sample.SampleTotals | constants.ts:110-129 | the sample's totals: package 60000, GST 13500, grand total 88500, received 21240, due 67260, event total 65000 |
| Sample.SampleAmountsAreStale | constants.ts:116-120 | the stored amounts are 30/40/30 % of 70800 and not of 88500 |
| Sample.SampleValueEditRefreshesAmount | App.tsx:967-978 | re-entering 30 % on the first milestone gives 26550 and leaves the others |
| Sample.SampleSkillNames | constants.ts:4-12 | "s2" shows as Traditional Photographer; an unknown id shows as "Unknown Skill" |
| Sample.SampleTimeline | constants.ts:142-144 | the delivery timeline lists its three lines; the sample's undecided date shows the placeholder |

## Left out

- Browser I/O: reading proof files with `FileReader` (App.tsx:16-23), the upload handler, `window.print()` and the layout. None of these has behaviour to state.
- Ids, quotation numbers and timestamps come from `Date.now()`, `Math.random()` and `toISOString`. They are parameters of the methods (`newId`, `quoNumber`, `now`, `entryId`).
- The `window.confirm` prompts before deleting a quotation or removing an event. Only the confirmed branch is modelled.
- Currency and date formatting (`Intl.NumberFormat`, `toLocaleDateString`, `toFixed`): these are locale libraries.
- History.ChangeLines: JavaScript's number-to-text conversion is a parameter (`numberText`), not a definition.
- Floating-point rounding: amounts are exact reals. `parseFloat(x) || 0` is modelled as a parsed `JsNumber` passed in, coerced by `OrZero`.
- The remote language-model helper (`services/geminiService.ts`) is not part of this model.
- Shallow-copy aliasing. The handlers copy an array and then assign into the shared element objects (`newTeam[idx].count--`, `arr[idx].amount = …`). The model updates values, so a change never reaches the old array through a shared element. The template's default team is likewise copied by value.
- Stale saves. Several handlers call `saveQuotation()` right after `setData` (App.tsx:779, 799, 943, 999). In React that call still sees the previous buffer. The team builder saves after a timeout (App.tsx:856). In the model a save is a separate call, `Editor.QuotationEditor.SaveQuotation`, taken at whatever point the caller chooses.
- Effect scheduling. The base-amount effect runs after a render; the model runs `SyncBaseAmount` at the end of every handler that changes the event list, and after loading a buffer.
- Text.ToLower: `toLowerCase` is modelled for ASCII letters only. Other scripts are compared as typed.
- Plain text-field edits (client fields, event name, date, time range (App.tsx:822-824), venue, duration (App.tsx:833-835), notes, add-on service and description, milestone name and due date, milestone payment method (App.tsx:1006) and paid date (App.tsx:1014), terms, deliverables (App.tsx:1042), package name) and client selection are not separate methods. Each is a one-field update of the buffer that no property depends on.
- Editor.CreateSkill: in the template editor the source does nothing with the skill id beyond returning it; the model does the same, and the template editor itself is not part of this model.
- The quotation status is opaque text, because the status values in types.ts:16 and App.tsx:714-717 disagree. The milestone field `method` is named `paymentMethod`.
- Preview.TeamString: a missing (`undefined`) team is not representable; only the empty team is modelled.
- Sample.SampleQuotation: the creation and validity dates are computed from the clock in the source and are parameters. The long deliverables, bank-details and terms texts are left empty; no property of the sample depends on them.
- Master lists for clients and event templates, and their screens, are not modelled beyond the template record an event is created from.
