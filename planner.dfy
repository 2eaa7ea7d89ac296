/**
 * The meal planner screen (components/Planner.tsx): the analyse / back / record-feeling handlers
 * over the four state cells `input`, `loading`, `result` and `view`, and the pure view values
 * derived from the result (fill level, overload flag, colour band, food summary, emoji index).
 */
module PlannerScreen {
  import opened Base
  import opened AppTypes
  import opened JsText
  import GeminiService

  datatype PlannerView = InputView | ResultView

  /** The colour band of the stomach drawing. */
  datatype ColorState = Pink | Yellow | Green

  const OverloadPercent: real := 85.0

  const BusyPercent: real := 60.0

  const FullPercent: real := 100.0

  const SummarySeparator: string := " + "

  const ItemEmojis: seq<string> := ["🥬", "🥩", "🍚", "🥚", "🍅"]

  // ---------------------------------------------------------------------------
  // The food summary handed to the journal

  function ItemNames(items: seq<FoodItem>): (r: seq<string>)
    ensures |r| == |items|
    ensures forall i :: 0 <= i < |items| ==> r[i] == items[i].name
  {
    if items == [] then [] else [items[0].name] + ItemNames(items[1..])
  }

  /** `result.items.map(item => item.name).join(' + ')`: nothing for no items, the bare name for one. */
  function FoodSummary(items: seq<FoodItem>): (r: string)
    ensures items == [] ==> r == ""
    ensures |items| == 1 ==> r == items[0].name
  {
    Join(ItemNames(items), SummarySeparator)
  }

  /** One more item adds its name after one more separator. */
  lemma FoodSummaryAppend(items: seq<FoodItem>, item: FoodItem)
    requires |items| >= 1
    ensures FoodSummary(items + [item]) == FoodSummary(items) + SummarySeparator + item.name
  {
    assert ItemNames(items + [item]) == ItemNames(items) + [item.name];
    JoinAppend(ItemNames(items), item.name, SummarySeparator);
  }

  /**
   * The summary is empty (and so falsy for the journal) exactly when there are no items, or a
   * single item with an empty name: two or more items always leave a separator behind.
   */
  lemma FoodSummaryEmpty(items: seq<FoodItem>)
    ensures FoodSummary(items) == "" <==> |items| == 0 || (|items| == 1 && items[0].name == "")
  {
    if |items| >= 1 {
      JoinLength(ItemNames(items), SummarySeparator);
      if |items| == 1 {
        assert TotalLength(ItemNames(items)) == |items[0].name| by {
          assert ItemNames(items)[1..] == [];
        }
      }
    }
  }

  // ---------------------------------------------------------------------------
  // Values derived from the result

  /** `fillLevel`: the load percentage capped at 100, or 0 with no result. */
  function FillLevel(result: Option<MealAnalysis>): (r: real)
    ensures r <= FullPercent
    ensures result.None? ==> r == 0.0
    ensures result.Some? ==> r <= result.value.stomachLoadPercentage
    ensures result.Some? ==> (r == result.value.stomachLoadPercentage || r == FullPercent)
    ensures result.Some? && result.value.stomachLoadPercentage <= FullPercent ==> r == result.value.stomachLoadPercentage
  {
    match result
    case None => 0.0
    case Some(analysis) => Min(analysis.stomachLoadPercentage, FullPercent)
  }

  /** `getColorState`: three disjoint, exhaustive bands of the level. */
  function GetColorState(level: real): (c: ColorState)
    ensures c == Pink <==> level > OverloadPercent
    ensures c == Yellow <==> BusyPercent < level <= OverloadPercent
    ensures c == Green <==> level <= BusyPercent
  {
    if level > OverloadPercent then Pink
    else if level > BusyPercent then Yellow
    else Green
  }

  /**
   * `isOverload`: a result whose raw load is above 85 percent. The overload mouth and the pink
   * colour agree: the flag is computed on the raw load, the colour on the capped level, and
   * capping at 100 keeps a load above 85 above 85.
   */
  function IsOverload(result: Option<MealAnalysis>): (b: bool)
    ensures b ==> result.Some?
    ensures b <==> GetColorState(FillLevel(result)) == Pink
  {
    result.Some? && result.value.stomachLoadPercentage > OverloadPercent
  }

  /** `item.name.length % 5` always picks one of the five emojis. */
  function EmojiIndex(name: string): (r: nat)
    ensures r < |ItemEmojis|
    ensures (|name| - r) % |ItemEmojis| == 0
  {
    |name| % 5
  }

  // ---------------------------------------------------------------------------
  // The screen's state

  class Planner {
    var input: string
    var loading: bool
    var result: Option<MealAnalysis>
    var view: PlannerView

    constructor ()
      ensures input == "" && !loading && result.None? && view == InputView
    {
      input := "";
      loading := false;
      result := None;
      view := InputView;
    }

    /** The text area's change handler. */
    method SetInput(text: string)
      modifies this
      ensures input == text
      ensures loading == old(loading) && result == old(result) && view == old(view)
    {
      input := text;
    }

    /**
     * `handleAnalyze` up to its `await`, from the analyse button, which is disabled while loading
     * or with empty input: nothing happens for blank input; otherwise loading starts and the
     * previous result is cleared. The result says whether the analysis is requested.
     */
    method StartAnalyze() returns (requested: bool)
      requires !loading && input != ""
      modifies this
      ensures requested <==> !IsBlank(input)
      ensures input == old(input) && view == old(view)
      ensures !requested ==> loading == old(loading) && result == old(result)
      ensures requested ==> loading && result.None?
    {
      if Trim(input) == "" {
        TrimEmptyIffBlank(input);
        return false;
      }
      TrimEmptyIffBlank(input);
      loading := true;
      result := None;
      requested := true;
    }

    /** `handleAnalyze` after its `await`: success stores the result and shows it; loading ends either way. */
    method CompleteAnalyze(outcome: Outcome<MealAnalysis>)
      modifies this
      ensures !loading && input == old(input)
      ensures outcome.Ok? ==> result == Some(outcome.value) && view == ResultView
      ensures outcome.Err? ==> result == old(result) && view == old(view)
    {
      if outcome.Ok? {
        result := Some(outcome.value);
        view := ResultView;
      }
      loading := false;
    }

    /**
     * The whole `handleAnalyze` against the gateway: a failed analysis leaves the view as it was
     * and no result at all, a successful one shows exactly the gateway's analysis of the input.
     */
    method HandleAnalyze(apiKey: string, provider: string -> GeminiService.AnalysisResponse,
                         parse: string -> Option<MealAnalysis>) returns (requested: bool)
      requires !loading && input != ""
      modifies this
      ensures requested <==> !IsBlank(old(input))
      ensures input == old(input)
      ensures !requested ==> loading == old(loading) && result == old(result) && view == old(view)
      ensures requested ==> !loading
      ensures requested ==>
        var outcome := GeminiService.AnalyzeFoodInput(apiKey, input, provider, parse);
        (outcome.Ok? ==> result == Some(outcome.value) && view == ResultView)
        && (outcome.Err? ==> result.None? && view == old(view))
    {
      requested := StartAnalyze();
      if requested {
        var outcome := GeminiService.AnalyzeFoodInput(apiKey, input, provider, parse);
        CompleteAnalyze(outcome);
      }
    }

    /** `handleBack`: the empty input view with no result. */
    method HandleBack()
      modifies this
      ensures view == InputView && input == "" && result.None?
      ensures loading == old(loading)
    {
      view := InputView;
      input := "";
      result := None;
    }

    /**
     * `handleRecordFeeling`: hand the food summary over when there is a result, and always go to
     * the journal tab.
     */
    method HandleRecordFeeling() returns (recorded: Option<string>, target: AppTab)
      ensures result.Some? ==> recorded == Some(FoodSummary(result.value.items))
      ensures result.None? ==> recorded.None?
      ensures target == JournalTab
    {
      recorded := None;
      if result.Some? {
        recorded := Some(FoodSummary(result.value.items));
      }
      target := JournalTab;
    }
  }
}
