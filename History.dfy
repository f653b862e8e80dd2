/**
 * Saving the editor buffer into a quotation record: the record takes the
 * buffer as its data and, when one of three watched fields changed (client
 * name, base amount, number of add-ons), gains one history entry at the
 * front describing those changes, one per line.
 */
module History {
  import opened Types
  import Text

  /** The author written into every history entry made by a save. */
  const SaveAuthor: string := "Admin User"

  /** The arrow between the old and the new value in a change line. */
  const Arrow: string := " \U{2192} "

  /** The text reporting that the number of add-ons changed. */
  const AddOnsChanged: string := "Add-ons updated"

  /**
   * `line` reads `head`, then `before`, then `mid`, then `after`, then `tail`:
   * how a change line reports a field's old and new value.
   */
  predicate Reports(line: string, head: string, before: string, mid: string, after: string, tail: string)
  {
    var i := |head|;
    var j := i + |before|;
    var k := j + |mid|;
    var l := k + |after|;
    && |line| == l + |tail|
    && line[..i] == head
    && line[i..j] == before
    && line[j..k] == mid
    && line[k..l] == after
    && line[l..] == tail
  }

  /** The line for a changed client name: both names quoted, the arrow between them. */
  function NameLine(before: string, after: string): (line: string)
    ensures Reports(line, "Client Name: \"", before, "\"" + Arrow + "\"", after, "\"")
  {
    var line := "Client Name: \"" + before + "\"" + Arrow + "\"" + after + "\"";
    assert line == "Client Name: \"" + before + ("\"" + Arrow + "\"") + after + "\"";
    line
  }

  /** The line for a changed base amount: both amounts as text, the arrow between them. */
  function BaseLine(before: string, after: string): (line: string)
    ensures Reports(line, "Base Amount: ", before, Arrow, after, "")
  {
    var line := "Base Amount: " + before + Arrow + after;
    assert line == "Base Amount: " + before + Arrow + after + "";
    line
  }

  /**
   * The change lines of a save, in the order the editor checks the watched
   * fields: client name, base amount, add-on count, one line for each that
   * changed. `numberText` renders a number as JavaScript's string conversion does.
   */
  function ChangeLines(saved: QuotationData, current: QuotationData, numberText: real -> string): (lines: seq<string>)
    ensures |lines| == 0 <==>
      && saved.client.name == current.client.name
      && saved.financials.baseAmount == current.financials.baseAmount
      && |saved.addOns| == |current.addOns|
    ensures |lines| == (if saved.client.name != current.client.name then 1 else 0)
                     + (if saved.financials.baseAmount != current.financials.baseAmount then 1 else 0)
                     + (if |saved.addOns| != |current.addOns| then 1 else 0)
    ensures saved.client.name != current.client.name ==>
      Reports(lines[0], "Client Name: \"", saved.client.name, "\"" + Arrow + "\"", current.client.name, "\"")
    ensures saved.financials.baseAmount != current.financials.baseAmount ==>
      var b := if saved.client.name != current.client.name then 1 else 0;
      Reports(lines[b], "Base Amount: ", numberText(saved.financials.baseAmount), Arrow,
              numberText(current.financials.baseAmount), "")
    ensures |saved.addOns| != |current.addOns| ==> lines[|lines| - 1] == AddOnsChanged
  {
    (if saved.client.name != current.client.name
     then [NameLine(saved.client.name, current.client.name)]
     else [])
    + (if saved.financials.baseAmount != current.financials.baseAmount
       then [BaseLine(numberText(saved.financials.baseAmount), numberText(current.financials.baseAmount))]
       else [])
    + (if |saved.addOns| != |current.addOns| then [AddOnsChanged] else [])
  }

  /**
   * The record after a save of `current` at time `now`: same id and creation
   * time, the buffer as data, and a history entry with id `entryId` in front
   * exactly when some watched field changed.
   */
  function SavedRecord(q: QuotationRecord, current: QuotationData, now: string, entryId: string,
                       numberText: real -> string): (r: QuotationRecord)
    ensures r.id == q.id && r.createdAt == q.createdAt && r.updatedAt == now && r.data == current
    ensures |ChangeLines(q.data, current, numberText)| == 0 ==> r.history == q.history
    ensures |ChangeLines(q.data, current, numberText)| > 0 ==>
      && |r.history| == |q.history| + 1
      && r.history[1..] == q.history
      && r.history[0] == HistoryLog(entryId, now, SaveAuthor, Text.Join(ChangeLines(q.data, current, numberText), "\n"))
  {
    var changes := ChangeLines(q.data, current, numberText);
    var history :=
      if |changes| > 0 then [HistoryLog(entryId, now, SaveAuthor, Text.Join(changes, "\n"))] + q.history
      else q.history;
    q.(updatedAt := now, data := current, history := history)
  }

  /**
   * The entry's text splits back, line by line, into the detected changes
   * when neither the client names nor the rendered amounts contain a line break.
   */
  lemma EntryTextSplitsIntoChanges(saved: QuotationData, current: QuotationData, numberText: real -> string)
    requires '\n' !in saved.client.name && '\n' !in current.client.name
    requires '\n' !in numberText(saved.financials.baseAmount)
    requires '\n' !in numberText(current.financials.baseAmount)
    requires |ChangeLines(saved, current, numberText)| > 0
    ensures Text.Split(Text.Join(ChangeLines(saved, current, numberText), "\n"), '\n')
         == ChangeLines(saved, current, numberText)
  {
    var lines := ChangeLines(saved, current, numberText);
    forall i | 0 <= i < |lines| ensures '\n' !in lines[i] {
    }
    Text.SplitJoin(lines, '\n');
  }
}
