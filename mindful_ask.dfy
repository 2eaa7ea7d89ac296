/**
 * The mindfulness quiz (the `MindfulAsk` component of components/Emergency.tsx): a fixed
 * catalogue of questions, a re-draw of the shown question that never repeats the current one,
 * and the routing of three answer actions onto two outcome views.
 *
 * `Math.random()` is an oracle: the finite list of values it returns, each in [0, 1).
 */
module MindfulAsk {

  datatype AnswerAction = Eat | Distract | Water

  datatype AskView = QuestionView | DistractView | EatView

  datatype AnswerOption = AnswerOption(text: string, action: AnswerAction)

  datatype Question = Question(text: string, options: seq<AnswerOption>)

  const Questions: seq<Question> := [
    Question("是真的饿了吗？还是因为嘴巴寂寞？",
      [AnswerOption("肚子咕咕叫，真饿了", Eat), AnswerOption("单纯嘴馋，想嚼东西", Distract)]),
    Question("是不是刚看到美味的食物广告？",
      [AnswerOption("是的，被诱惑了", Distract), AnswerOption("没有，就是想吃", Eat)]),
    Question("现在是不是感到有点无聊？",
      [AnswerOption("有点无所事事", Distract), AnswerOption("很忙，但饿了", Eat)]),
    Question("是不是觉得口渴了？",
      [AnswerOption("好像有点渴", Water), AnswerOption("不渴，就是饿", Eat)])
  ]

  /** A value `Math.random()` can return. */
  predicate IsRandomDraw(d: real) {
    0.0 <= d < 1.0
  }

  /** `Math.floor(Math.random() * QUESTIONS.length)`: a draw in [0, 1) picks a valid catalogue index. */
  function DrawIndex(draw: real): (r: int)
    ensures IsRandomDraw(draw) ==> 0 <= r < |Questions|
  {
    (draw * (|Questions| as real)).Floor
  }

  /**
   * The index `refreshQuestion` settles on: the index of the first draw that differs from the
   * current one. With random draws, one of which differs, it is a valid catalogue index and never
   * the current one. (Without such a draw the source's loop never ends; the value is then moot.)
   */
  function FirstNewIndex(current: int, draws: seq<real>): (r: int)
    ensures (forall k :: 0 <= k < |draws| ==> IsRandomDraw(draws[k]))
      && (exists k :: 0 <= k < |draws| && DrawIndex(draws[k]) != current)
      ==> 0 <= r < |Questions| && r != current
  {
    if draws == [] then current
    else if DrawIndex(draws[0]) != current then DrawIndex(draws[0])
    else
      assert forall k :: 1 <= k < |draws| ==> draws[k] == draws[1..][k - 1];
      FirstNewIndex(current, draws[1..])
  }

  /**
   * The `do … while` of `refreshQuestion`: draw until the index differs from the current one.
   * It returns `FirstNewIndex` of the draws, after consuming exactly the draws up to and
   * including that first differing one.
   */
  method PickQuestion(current: int, draws: seq<real>) returns (index: nat, used: nat)
    requires forall k :: 0 <= k < |draws| ==> IsRandomDraw(draws[k])
    requires exists k :: 0 <= k < |draws| && DrawIndex(draws[k]) != current
    ensures index == FirstNewIndex(current, draws)
    ensures 0 < used <= |draws|
    ensures index == DrawIndex(draws[used - 1])
    ensures forall k :: 0 <= k < used - 1 ==> DrawIndex(draws[k]) == current
  {
    var newIndex := DrawIndex(draws[0]);
    used := 1;
    while newIndex == current
      invariant 0 < used <= |draws|
      invariant newIndex == DrawIndex(draws[used - 1])
      invariant forall k :: 0 <= k < used - 1 ==> DrawIndex(draws[k]) == current
      invariant FirstNewIndex(current, draws) == FirstNewIndex(current, draws[used - 1..])
      decreases |draws| - used
    {
      assert draws[used - 1..][1..] == draws[used..];
      newIndex := DrawIndex(draws[used]);
      used := used + 1;
    }
    index := newIndex;
  }

  /** `handleAnswer`: 'distract' and 'water' lead to the distraction view, 'eat' to the eating view. */
  function Classify(action: AnswerAction): (v: AskView)
    ensures v != QuestionView
    ensures v == EatView <==> action == Eat
    ensures v == DistractView <==> action == Distract || action == Water
  {
    match action
    case Distract => DistractView
    case Water => DistractView
    case Eat => EatView
  }

  /**
   * The completion buttons of a view: the distraction view offers three activities (a song, warm
   * water, sunshine), the eating view one (go and plan the meal), the question view none.
   */
  function ActivityButtons(v: AskView): (n: nat)
    ensures n == 0 <==> v == QuestionView
  {
    match v
    case QuestionView => 0
    case DistractView => 3
    case EatView => 1
  }

  /** Every question offers two answers, one leading to each outcome view. */
  lemma EveryQuestionReachesBothViews()
    ensures |Questions| == 4
    ensures forall q :: 0 <= q < |Questions| ==>
      |Questions[q].options| == 2
      && (exists o :: 0 <= o < 2 && Classify(Questions[q].options[o].action) == EatView)
      && (exists o :: 0 <= o < 2 && Classify(Questions[q].options[o].action) == DistractView)
  {
    forall q | 0 <= q < |Questions|
      ensures |Questions[q].options| == 2
      ensures exists o :: 0 <= o < 2 && Classify(Questions[q].options[o].action) == EatView
      ensures exists o :: 0 <= o < 2 && Classify(Questions[q].options[o].action) == DistractView
    {
      var opts := Questions[q].options;
      if q == 0 {
        assert Classify(opts[0].action) == EatView && Classify(opts[1].action) == DistractView;
      } else {
        assert Classify(opts[1].action) == EatView && Classify(opts[0].action) == DistractView;
      }
    }
  }

  /** No two questions of the catalogue read the same, so a different index shows a different question. */
  lemma QuestionTextsDistinct()
    ensures forall i, j :: 0 <= i < |Questions| && 0 <= j < |Questions| && i != j ==> Questions[i].text != Questions[j].text
  {
  }

  /** The dialog's state: the shown question and the view. */
  class AskDialog {
    var currentIndex: nat
    var view: AskView

    predicate Valid()
      reads this
    {
      currentIndex < |Questions|
    }

    constructor ()
      ensures currentIndex == 0 && view == QuestionView && Valid()
    {
      currentIndex := 0;
      view := QuestionView;
    }

    /** `currentQ`: the catalogue entry at the current index. */
    function CurrentQuestion(): (q: Question)
      reads this
      requires Valid()
      ensures q in Questions && |q.options| == 2
    {
      Questions[currentIndex]
    }

    /** `refreshQuestion`: back to the question view, showing a different question. */
    method RefreshQuestion(draws: seq<real>)
      requires forall k :: 0 <= k < |draws| ==> IsRandomDraw(draws[k])
      requires exists k :: 0 <= k < |draws| && DrawIndex(draws[k]) != currentIndex
      modifies this
      ensures view == QuestionView && Valid()
      ensures currentIndex == FirstNewIndex(old(currentIndex), draws)
      ensures currentIndex != old(currentIndex)
      ensures old(currentIndex) < |Questions| ==> CurrentQuestion().text != Questions[old(currentIndex)].text
      ensures ActivityButtons(view) == 0
    {
      view := QuestionView;
      var index, _ := PickQuestion(currentIndex, draws);
      QuestionTextsDistinct();
      currentIndex := index;
    }

    /** `handleAnswer(action)`. */
    method HandleAnswer(action: AnswerAction)
      modifies this
      ensures view == Classify(action) && currentIndex == old(currentIndex)
    {
      if action == Distract || action == Water {
        view := DistractView;
      } else {
        view := EatView;
      }
    }

    /**
     * Activity button `k` of the shown view; the result says whether it exists, and so whether
     * the completion callback is invoked.
     */
    method ChooseActivity(k: nat) returns (finishInvoked: bool)
      ensures finishInvoked <==> k < ActivityButtons(view)
      ensures finishInvoked ==> view != QuestionView
    {
      match view {
        case QuestionView => finishInvoked := false;
        case DistractView => finishInvoked := k < 3;
        case EatView => finishInvoked := k == 0;
      }
    }

    /** Answering any option and then taking the outcome view's first activity completes the flow. */
    method AnswerAndAct(action: AnswerAction) returns (finishInvoked: bool)
      modifies this
      ensures finishInvoked
      ensures view == Classify(action) && currentIndex == old(currentIndex)
    {
      HandleAnswer(action);
      finishInvoked := ChooseActivity(0);
    }
  }
}
