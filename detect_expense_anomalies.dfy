/** The expense anomaly flow (src/ai/flows/detect-expense-anomalies.ts): its input and
    output records, the transaction lines of its prompt, and the flow body, which answers
    an empty list itself and otherwise hands the input to the prompt once. The prompt is
    an oracle parameter. */
module DetectExpenseAnomalies {
  import opened Types
  import opened Strings

  datatype Severity = High | Medium | Low

  function SeverityValue(s: Severity): string {
    match s
    case High => "High"
    case Medium => "Medium"
    case Low => "Low"
  }

  /** The output schema's enum check on a raw severity string. */
  function ParseSeverity(s: string): (r: Option<Severity>)
    ensures r.Some? ==> SeverityValue(r.value) == s
  {
    if s == "High" then Some(High) else if s == "Medium" then Some(Medium) else if s == "Low" then Some(Low) else None
  }

  /** Severity is exactly one of High, Medium and Low. */
  lemma SeverityEnumeration(s: string, v: Severity)
    ensures ParseSeverity(s).Some? <==> s in {"High", "Medium", "Low"}
    ensures ParseSeverity(SeverityValue(v)) == Some(v)
  {
  }

  datatype Anomaly = Anomaly(transactionId: string, reason: string, severity: Severity)

  datatype AnomaliesInput = AnomaliesInput(transactions: seq<ExpenseTransaction>)

  datatype AnomaliesOutput = AnomaliesOutput(anomalies: seq<Anomaly>)

  /** The flow body. */
  function DetectExpenseAnomalies(input: AnomaliesInput, prompt: AnomaliesInput -> Outcome<AnomaliesOutput>): (run: FlowRun<AnomaliesInput, AnomaliesOutput>)
    ensures |input.transactions| == 0 ==> run.promptCalls == [] && run.result == Ok(AnomaliesOutput([]))
    ensures |input.transactions| > 0 ==> run.promptCalls == [input] && run.result == prompt(input)
  {
    if |input.transactions| == 0 then FlowRun(Ok(AnomaliesOutput([])), [])
    else FlowRun(prompt(input), [input])
  }

  /** One `{{#each transactions}}` line; `showNumber` renders the amount. */
  function TransactionLine(t: ExpenseTransaction, showNumber: real -> string): string {
    ("- ID: " + t.id)
    + (", Date: " + t.date + ", Amount: " + showNumber(t.amount) + ", Category: " + t.category
       + ", Vendor: \"" + t.vendor + "\", Description: \"" + t.description + "\"")
  }

  /** The transactions block: one line per transaction, each ending in a newline. */
  function TransactionsBlock(ts: seq<ExpenseTransaction>, showNumber: real -> string): string {
    if ts == [] then "" else TransactionLine(ts[0], showNumber) + "\n" + TransactionsBlock(ts[1..], showNumber)
  }

  /** The block of a list is the block of its first part followed by that of the rest,
      so every transaction contributes exactly its own line, in input order. */
  lemma {:induction false} TransactionsBlockAppend(a: seq<ExpenseTransaction>, b: seq<ExpenseTransaction>, showNumber: real -> string)
    ensures TransactionsBlock(a + b, showNumber) == TransactionsBlock(a, showNumber) + TransactionsBlock(b, showNumber)
  {
    if a == [] {
      assert a + b == b;
    } else {
      assert (a + b)[0] == a[0] && (a + b)[1..] == a[1..] + b;
      TransactionsBlockAppend(a[1..], b, showNumber);
    }
  }

  /** Each line opens with the transaction's id, and a one-transaction block is that line. */
  lemma TransactionLineShape(t: ExpenseTransaction, showNumber: real -> string)
    ensures StartsWith(TransactionLine(t, showNumber), "- ID: " + t.id)
    ensures TransactionsBlock([t], showNumber) == TransactionLine(t, showNumber) + "\n"
  {
    var prefix := "- ID: " + t.id;
    var line := TransactionLine(t, showNumber);
    assert line[..|prefix|] == prefix;
    assert [t][1..] == [];
  }
}
