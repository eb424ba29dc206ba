/**
 * `getSavingsTips`: build the advisory prompt from the transaction history,
 * send it with a response schema, and pick the result.
 *
 * The generative-text service is the parameter `service`; JSON parsing of
 * its text is the parameter `parse` (None when `JSON.parse` throws); the
 * conversion of a number to its decimal text, shared by template strings and
 * `JSON.stringify`, is the parameter `numStr`.
 */
module GeminiService {
  import opened Types
  import opened App
  import opened Analytics

  const ModelName: string := "gemini-3-flash-preview"
  const ResponseMimeType: string := "application/json"

  /** One property of the item object in the declared response schema. */
  datatype Property = Property(name: string, description: string, enumValues: seq<string>)

  /** `{ type: ARRAY, items: { type: OBJECT, properties, required } }`. */
  datatype ResponseSchema = ArrayOfObjects(properties: seq<Property>, required: seq<string>)

  datatype Request = Request(model: string, contents: string, responseMimeType: string, schema: ResponseSchema)

  /** What the service call settled to: an exception, or a response whose `text` may be absent. */
  datatype ServiceReply = CallFailed | Replied(text: Option<string>)

  /** The declared response schema. */
  function TipSchema(): (s: ResponseSchema)
    ensures s.required == ["title", "content", "impact"]
    ensures |s.properties| == 3
    ensures forall i :: 0 <= i < 3 ==> s.properties[i].name == s.required[i]
    ensures s.properties[0].enumValues == [] && s.properties[1].enumValues == []
    ensures forall v :: v in s.properties[2].enumValues <==> exists i: Impact :: ImpactName(i) == v
  {
    var s := ArrayOfObjects(
      [ Property("title", "Short title of the tip", []),
        Property("content", "Detailed actionable advice", []),
        Property("impact", "Expected financial impact", ["High", "Medium", "Low"]) ],
      ["title", "content", "impact"]);
    assert ImpactName(High) == "High" && ImpactName(Medium) == "Medium" && ImpactName(Low) == "Low";
    s
  }

  const FallbackTitle: string := "Maintain Consistency"
  const FallbackContent: string :=
    "You're doing great by tracking your spending. Keep it up to see long-term patterns."

  /** The single tip returned whenever the call or the parse throws. */
  function FallbackTip(): (t: SavingsTip)
    ensures t.title == FallbackTitle && t.content == FallbackContent
    ensures ImpactName(t.impact) == "Medium"
  {
    SavingsTip(FallbackTitle, FallbackContent, Medium)
  }

  /** `response.text || "[]"`. */
  function ResponseBody(text: Option<string>): (body: string)
    ensures body == "[]" <==> text == None || text == Some("") || text == Some("[]")
  {
    if text.Some? && text.value != "" then text.value else "[]"
  }

  /**
   * The try/catch: a thrown call or a thrown parse gives the fallback tip;
   * otherwise the parsed array is returned as it is.
   */
  function SelectTips(reply: ServiceReply, parse: string -> Option<seq<SavingsTip>>): (tips: seq<SavingsTip>)
    requires parse("[]") == Some([])
    ensures reply.CallFailed? ==> tips == [FallbackTip()]
    ensures reply.Replied? && (reply.text == None || reply.text == Some("")) ==> tips == []
    ensures reply.Replied? && reply.text.Some? && reply.text.value != "" ==>
      tips == (if parse(reply.text.value).Some? then parse(reply.text.value).value else [FallbackTip()])
  {
    match reply
    case CallFailed => [FallbackTip()]
    case Replied(text) =>
      match parse(ResponseBody(text))
      case None => [FallbackTip()]
      case Some(parsed) => parsed
  }

  /**
   * The result is empty exactly when the service answered and its text,
   * or "[]" in its place, parsed to the empty array: a failure never yields
   * the empty list.
   */
  lemma EmptyTipsIff(reply: ServiceReply, parse: string -> Option<seq<SavingsTip>>)
    requires parse("[]") == Some([])
    ensures SelectTips(reply, parse) == [] <==> reply.Replied? && parse(ResponseBody(reply.text)) == Some([])
  {
  }

  /** A successful parse of N tips returns exactly those N tips, unfiltered. */
  lemma ParsedTipsVerbatim(text: string, parse: string -> Option<seq<SavingsTip>>, parsed: seq<SavingsTip>)
    requires parse("[]") == Some([])
    requires text != "" && parse(text) == Some(parsed)
    ensures SelectTips(Replied(Some(text)), parse) == parsed
  {
  }

  function Min(a: int, b: int): int
  {
    if a < b then a else b
  }

  /** `transactions.slice(0, 5)`: the five newest, newest first. */
  function RecentEntries(txs: seq<Transaction>): (r: seq<Transaction>)
    ensures |r| == Min(5, |txs|)
    ensures forall i :: 0 <= i < |r| ==> r[i] == txs[i]
  {
    txs[..Min(5, |txs|)]
  }

  /** `${t.type}: ${t.description} (${currencySymbol}${t.amount} - ${t.category})`. */
  function RenderEntry(t: Transaction, symbol: string, numStr: real -> string): (r: string)
    ensures TypeName(t.kind) + ": " + t.description <= r
    ensures |r| > 0 && r[|r| - 1] == ')'
  {
    TypeName(t.kind) + ": " + t.description + " (" + symbol + numStr(t.amount) + " - " + CategoryName(t.category) + ")"
  }

  function RenderAll(s: seq<Transaction>, symbol: string, numStr: real -> string): (r: seq<string>)
    ensures |r| == |s|
    ensures forall i :: 0 <= i < |s| ==> r[i] == RenderEntry(s[i], symbol, numStr)
  {
    if s == [] then [] else [RenderEntry(s[0], symbol, numStr)] + RenderAll(s[1..], symbol, numStr)
  }

  /** `parts.join(sep)`: nothing for no parts, otherwise it starts with the first part. */
  function Join(parts: seq<string>, sep: string): (r: string)
    ensures |parts| == 0 ==> r == ""
    ensures |parts| > 0 ==> parts[0] <= r
  {
    if |parts| == 0 then ""
    else if |parts| == 1 then parts[0]
    else parts[0] + sep + Join(parts[1..], sep)
  }

  /** Joining two non-empty runs puts one separator between their joins. */
  lemma {:induction false} JoinAppend(a: seq<string>, b: seq<string>, sep: string)
    requires |a| > 0 && |b| > 0
    ensures Join(a + b, sep) == Join(a, sep) + sep + Join(b, sep)
  {
    if |a| > 1 {
      assert (a + b)[1..] == a[1..] + b;
      JoinAppend(a[1..], b, sep);
    } else {
      assert (a + b)[1..] == b;
    }
  }

  /** The MOST RECENT ACTIVITY line: empty for no transactions, else led by the newest. */
  function RecentLine(txs: seq<Transaction>, symbol: string, numStr: real -> string): (r: string)
    ensures txs == [] ==> r == ""
    ensures txs != [] ==> RenderEntry(txs[0], symbol, numStr) <= r
  {
    Join(RenderAll(RecentEntries(txs), symbol, numStr), "; ")
  }

  /**
   * A newly added transaction leads the recent line and, once there are five
   * or more, pushes the oldest of the five out.
   */
  lemma RecentAfterAdd(t: Transaction, s: seq<Transaction>)
    ensures RecentEntries([t] + s) == [t] + RecentEntries(s)[..Min(4, |s|)]
  {
  }

  /** The recent line of a new list: the new entry, then up to four older ones. */
  lemma RecentLineAfterAdd(t: Transaction, s: seq<Transaction>, symbol: string, numStr: real -> string)
    ensures RecentLine([t] + s, symbol, numStr) ==
      if s == [] then RenderEntry(t, symbol, numStr)
      else RenderEntry(t, symbol, numStr) + "; " + RecentLine(s[..Min(4, |s|)], symbol, numStr)
  {
    RecentAfterAdd(t, s);
    var older := s[..Min(4, |s|)];
    assert RecentEntries(older) == older;
    assert RecentEntries([t] + s) == [t] + older;
    if s != [] {
      assert RenderAll([t] + older, symbol, numStr) == [RenderEntry(t, symbol, numStr)] + RenderAll(older, symbol, numStr);
      assert |older| > 0;
      JoinAppend([RenderEntry(t, symbol, numStr)], RenderAll(older, symbol, numStr), "; ");
      assert Join([RenderEntry(t, symbol, numStr)], "; ") == RenderEntry(t, symbol, numStr);
      assert RecentLine(older, symbol, numStr) == Join(RenderAll(older, symbol, numStr), "; ");
    } else {
      assert RenderAll([t], symbol, numStr) == [RenderEntry(t, symbol, numStr)];
    }
  }

  /** `JSON.stringify(expenseData)`: `{"Food":50,...}` in key order. */
  function ExpenseJson(d: Totals, numStr: real -> string): (r: string)
    ensures |r| >= 2 && r[0] == '{' && r[|r| - 1] == '}'
    ensures d == [] ==> r == "{}"
  {
    "{" + Join(JsonMembers(d, numStr), ",") + "}"
  }

  /** One `"name":value` member per dictionary entry, in entry order. */
  function JsonMembers(d: Totals, numStr: real -> string): (r: seq<string>)
    ensures |r| == |d|
    ensures forall i :: 0 <= i < |d| ==> r[i] == "\"" + CategoryName(d[i].category) + "\":" + numStr(d[i].total)
  {
    if d == [] then []
    else ["\"" + CategoryName(d[0].category) + "\":" + numStr(d[0].total)] + JsonMembers(d[1..], numStr)
  }

  /** The fixed text of the prompt template, between its placeholders. */
  const PromptOpening: string := "\n    As a professional financial advisor, analyze this financial state:\n    Active Currency: "
  const IncomeLabel: string := "\n    Total Monthly Income: "
  const ExpensesLabel: string := "\n    Cumulative Expenses by Category: "
  const RecentLabel: string := "\n    \n    MOST RECENT ACTIVITY: "
  const PromptClosing: string :=
    "\n    \n    Provide 3 specific, actionable, and personalized savings tips. \n"
    + "    Crucially, if the recent activity shows a high expense or a new trend, acknowledge it and suggest how to optimize it.\n"
    + "    The goal is to help the user save more money this month.\n  "

  /**
   * The prompt template, filled in: it opens by naming the active currency
   * and ends with the fixed request for three tips.
   */
  function Prompt(symbol: string, income: string, expenses: string, recent: string): (r: string)
    ensures PromptOpening + symbol <= r
    ensures |PromptClosing| <= |r| && r[|r| - |PromptClosing|..] == PromptClosing
  {
    PromptOpening + symbol + IncomeLabel + symbol + income + ExpensesLabel + expenses
    + RecentLabel + recent + PromptClosing
  }

  /**
   * The request `getSavingsTips` sends: the model, the prompt reporting the
   * summary's total income, the Analytics expense breakdown of the same
   * transactions and the recent line, the JSON response type, and the
   * declared schema.
   */
  function RequestFor(txs: seq<Transaction>, symbol: string, numStr: real -> string): (r: Request)
    ensures r.model == ModelName && r.responseMimeType == ResponseMimeType
    ensures r.contents ==
      Prompt(symbol, numStr(Summary(txs).totalIncome), ExpenseJson(ExpensesByCategory(txs), numStr), RecentLine(txs, symbol, numStr))
    ensures r.schema == TipSchema()
  {
    Request(
      ModelName,
      Prompt(symbol, numStr(TypeTotal(txs, INCOME)), ExpenseJson(ExpensesByCategory(txs), numStr), RecentLine(txs, symbol, numStr)),
      ResponseMimeType,
      TipSchema())
  }

  /** The tips `getSavingsTips` resolves to, given what the service replies. */
  function TipsFor(txs: seq<Transaction>, symbol: string, numStr: real -> string,
                   service: Request -> ServiceReply, parse: string -> Option<seq<SavingsTip>>): (tips: seq<SavingsTip>)
    requires parse("[]") == Some([])
    ensures service(RequestFor(txs, symbol, numStr)).CallFailed? ==> tips == [FallbackTip()]
  {
    SelectTips(service(RequestFor(txs, symbol, numStr)), parse)
  }

  /** `getSavingsTips`, one step at a time. */
  method GetSavingsTips(txs: seq<Transaction>, symbol: string, numStr: real -> string,
                        service: Request -> ServiceReply, parse: string -> Option<seq<SavingsTip>>)
    returns (tips: seq<SavingsTip>)
    requires parse("[]") == Some([])
    ensures tips == TipsFor(txs, symbol, numStr, service, parse)
    ensures service(RequestFor(txs, symbol, numStr)).CallFailed? ==> tips == [FallbackTip()]
  {
    var expenseData := BuildExpenseData(txs);
    var income := TypeTotal(txs, INCOME);
    var recent := RecentLine(txs, symbol, numStr);
    var prompt := Prompt(symbol, numStr(income), ExpenseJson(expenseData, numStr), recent);
    var reply := service(Request(ModelName, prompt, ResponseMimeType, TipSchema()));
    tips := SelectTips(reply, parse);
  }
}
