/**
 * The gateway to the intelligence provider (services/geminiService.ts).
 *
 * The API key is a parameter: the empty string stands for an absent key, which switches both
 * gateways to their fixed mock answers. The provider call is a parameter too, a total function
 * from the data the request carries (the food text, or the serialised journal) to what the call
 * produced; the fixed instruction text around that data is not modelled. `JSON.parse` with its
 * unchecked cast is the parameter `parse`.
 */
module GeminiService {
  import opened Base
  import opened AppTypes
  import opened JsText

  // ---------------------------------------------------------------------------
  // analyzeFoodInput

  /** What `generateContent` produced for an analysis request: it threw, or resolved with `response.text`. */
  datatype AnalysisResponse = AnalysisThrew | AnalysisText(text: Option<string>)

  /** The one error every failure of the live analysis path is rethrown as. */
  const AnalysisFailure: string := "分析失败，请稍后再试"

  /** The fixed meal plan returned when no API key is configured. */
  const MockAnalysis: MealAnalysis := MealAnalysis(
    [ FoodItem("番茄炒蛋", 250.0, Some("番茄 150g, 鸡蛋 100g (约2个)")),
      FoodItem("米饭", 150.0, Some("熟米饭 150g")),
      FoodItem("清炒时蔬", 100.0, Some("青菜 100g, 蒜末 5g")) ],
    75.0,
    "API Mock: 只吃番茄炒蛋有点单调哦，我帮你加了一份清炒时蔬，这样膳食纤维更充足！")

  /** The live call succeeds when the response has non-empty text that parses. */
  predicate LiveAnalysisSucceeds(response: AnalysisResponse, parse: string -> Option<MealAnalysis>) {
    response.AnalysisText? && Truthy(response.text) && parse(response.text.value).Some?
  }

  /**
   * `analyzeFoodInput(input)`. Without a key it resolves with the mock for every input; with a key
   * it resolves with the parsed response, and every failure (the call throwing, an empty text, the
   * parse throwing) becomes the single analysis error, never the mock.
   */
  function AnalyzeFoodInput(
    apiKey: string,
    input: string,
    provider: string -> AnalysisResponse,
    parse: string -> Option<MealAnalysis>): (r: Outcome<MealAnalysis>)
    ensures apiKey == "" ==> r == Ok(MockAnalysis)
    ensures r.Err? ==> apiKey != "" && r.error == AnalysisFailure
    ensures apiKey != "" ==> (r.Ok? <==> LiveAnalysisSucceeds(provider(input), parse))
    ensures apiKey != "" && r.Ok? ==> Some(r.value) == parse(provider(input).text.value)
    ensures apiKey != "" && provider(input).AnalysisText? && !Truthy(provider(input).text) ==> r == Err(AnalysisFailure)
  {
    if apiKey == "" then
      Ok(MockAnalysis)
    else
      match provider(input)
      case AnalysisThrew => Err(AnalysisFailure)
      case AnalysisText(text) =>
        if !Truthy(text) then Err(AnalysisFailure)  // "No response from AI", caught and rethrown
        else
          match parse(text.value)
          case None => Err(AnalysisFailure)
          case Some(plan) => Ok(plan)
  }

  /** The mock plan: three dishes and a load of 75, whatever the input. */
  lemma MockAnalysisShape(input: string, provider: string -> AnalysisResponse, parse: string -> Option<MealAnalysis>)
    ensures AnalyzeFoodInput("", input, provider, parse).Ok?
    ensures var plan := AnalyzeFoodInput("", input, provider, parse).value;
      && |plan.items| == 3
      && plan.items[0].name == "番茄炒蛋" && plan.items[0].weightGrams == 250.0
      && plan.items[1].name == "米饭" && plan.items[1].weightGrams == 150.0
      && plan.items[2].name == "清炒时蔬" && plan.items[2].weightGrams == 100.0
      && plan.stomachLoadPercentage == 75.0
  {
  }

  // ---------------------------------------------------------------------------
  // generateWeeklyReport

  /** What `generateContent` produced for a report request. */
  datatype ReportResponse = ReportThrew | ReportText(text: Option<string>)

  const ReportEmptyFallback: string := "生成报告失败"
  const ReportApology: string := "抱歉，生成报告时出了点小差错，请稍后再试。"
  const UnrecordedFood: string := "未记录"
  const DateLabel: string := "日期: "
  const FoodLabel: string := ", 食物: "
  const FeelingLabel: string := ", 感受: "

  const MockReportHead: string := "本周胃感简报\n\n本周共记录了 "
  const MockReportTail: string :=
    " 次用餐感受。\n\n分析发现：当你晚餐摄入大量淀粉类食物（如米饭）时，容易感到“撑到了”。而吃蔬菜和白肉时，身体反馈多为“刚好”。\n\n建议：晚餐尝试减少一口主食，增加蔬菜比例。✨"

  /** The templated report of the no-key path; it embeds the number of entries. */
  function MockReport(count: nat): (r: string)
    ensures |r| > |MockReportHead| + |NatToString(count)|
    ensures r[..|MockReportHead|] == MockReportHead
    ensures r[|r| - 1] == '✨'
    ensures r[|MockReportHead|..|MockReportHead| + |NatToString(count)|] == NatToString(count)
  {
    var r := MockReportHead + NatToString(count) + MockReportTail;
    assert r[|MockReportHead|..|MockReportHead| + |NatToString(count)|] == NatToString(count);
    r
  }

  /** The count embedded in the mock report reads back as the number of entries. */
  lemma MockReportCount(count: nat)
    ensures var r := MockReport(count);
      var digits := r[|MockReportHead|..|MockReportHead| + |NatToString(count)|];
      AllDigits(digits) && ParseDecimal(digits) == count
  {
    ParseNatToString(count);
  }

  /** Neither the date nor the food note of the entry holds a newline. */
  predicate NewlineFree(e: JournalEntry) {
    '\n' !in e.date && (e.foodNote.Some? ==> '\n' !in e.foodNote.value)
  }

  /**
   * One serialised line: date, food note (or the unrecorded marker when falsy) and feeling. It
   * holds no newline when the date and the food note hold none.
   */
  function LogLine(e: JournalEntry): (r: string)
    ensures NewlineFree(e) ==> '\n' !in r
  {
    var food := OrElse(e.foodNote, UnrecordedFood);
    assert '\n' !in e.feeling.Value();
    DateLabel + e.date + FoodLabel + food + FeelingLabel + e.feeling.Value()
  }

  /** The line starts with the date label and the date, and ends with the feeling's value. */
  lemma LogLineLayout(e: JournalEntry)
    ensures var r := LogLine(e);
      && |DateLabel + e.date| <= |r| && r[..|DateLabel + e.date|] == DateLabel + e.date
      && |e.feeling.Value()| <= |r| && r[|r| - |e.feeling.Value()|..] == e.feeling.Value()
  {
    var head := DateLabel + e.date;
    var tail := e.feeling.Value();
    var r := LogLine(e);
    assert r == head + (FoodLabel + OrElse(e.foodNote, UnrecordedFood) + FeelingLabel) + tail;
    assert r[..|head|] == head;
    assert r[|r| - |tail|..] == tail;
  }

  function LogLines(logs: seq<JournalEntry>): (r: seq<string>)
    ensures |r| == |logs|
    ensures forall i :: 0 <= i < |logs| ==> r[i] == LogLine(logs[i])
  {
    if logs == [] then [] else [LogLine(logs[0])] + LogLines(logs[1..])
  }

  /** `logsText`: the lines of the entries, in list order, joined by newlines. */
  function LogsText(logs: seq<JournalEntry>): (r: string)
    ensures logs == [] ==> r == ""
    ensures |logs| == 1 ==> r == LogLine(logs[0])
  {
    Join(LogLines(logs), "\n")
  }

  /**
   * The serialisation is line-oriented: splitting it at newlines gives back exactly one line per
   * entry, in list order, as long as no date or food note itself contains a newline.
   */
  lemma LogsTextLines(logs: seq<JournalEntry>)
    requires |logs| >= 1
    requires forall i :: 0 <= i < |logs| ==> NewlineFree(logs[i])
    ensures Split(LogsText(logs), '\n') == LogLines(logs)
  {
    LinesHaveNoNewline(logs);
    SplitJoinNewline(LogLines(logs));
  }

  /** No line holds a newline. */
  predicate NoLineBreaks(lines: seq<string>) {
    forall i :: 0 <= i < |lines| ==> '\n' !in lines[i]
  }

  /** Splitting newline-joined lines at newlines gives them back. */
  lemma SplitJoinNewline(lines: seq<string>)
    requires |lines| >= 1
    requires NoLineBreaks(lines)
    ensures Split(Join(lines, "\n"), '\n') == lines
  {
    SplitJoin(lines, '\n');
    assert "\n" == ['\n'];
  }

  /** Entries whose dates and food notes hold no newline serialise to lines that hold none. */
  lemma LinesHaveNoNewline(logs: seq<JournalEntry>)
    requires forall i :: 0 <= i < |logs| ==> NewlineFree(logs[i])
    ensures NoLineBreaks(LogLines(logs))
  {
    forall i | 0 <= i < |logs|
      ensures '\n' !in LogLines(logs)[i]
    {
      assert LogLines(logs)[i] == LogLine(logs[i]);
    }
  }

  /**
   * `generateWeeklyReport(logs)`. It never rejects: without a key it yields the template, and with a
   * key it yields the provider's non-empty text, the empty-response placeholder, or the apology when
   * the call threw. The result is never empty.
   */
  function GenerateWeeklyReport(apiKey: string, logs: seq<JournalEntry>, provider: string -> ReportResponse): (r: string)
    ensures r != ""
    ensures apiKey == "" ==> r == MockReport(|logs|)
    ensures apiKey != "" ==>
      r == ReportApology || r == ReportEmptyFallback || provider(LogsText(logs)) == ReportText(Some(r))
    ensures apiKey != "" && provider(LogsText(logs)).ReportThrew? ==> r == ReportApology
    ensures apiKey != "" && provider(LogsText(logs)).ReportText? && Truthy(provider(LogsText(logs)).text) ==>
      Some(r) == provider(LogsText(logs)).text
    ensures apiKey != "" && provider(LogsText(logs)).ReportText? && !Truthy(provider(LogsText(logs)).text) ==>
      r == ReportEmptyFallback
  {
    if apiKey == "" then
      MockReport(|logs|)
    else
      match provider(LogsText(logs))
      case ReportThrew => ReportApology
      case ReportText(text) => OrElse(text, ReportEmptyFallback)
  }
}
