/**
 * The bubble-popping game (the `BubbleGame` component of components/Emergency.tsx).
 *
 * Positions, sizes and animation delays are random floats with no behavioural role and are not
 * modelled; a bubble keeps its id, its popped flag and its colour class. The completion
 * callback scheduled 500 ms after the last pop is counted in `scheduledFinishes`.
 */
module BubbleGame {

  const BubbleCount: nat := 12

  const Palette: seq<string> := ["bg-pastel-blue", "bg-pastel-pink", "bg-pastel-yellow", "bg-pastel-green"]

  datatype Bubble = Bubble(id: int, popped: bool, color: string)

  predicate IdsAreIndices(bs: seq<Bubble>) {
    forall i :: 0 <= i < |bs| ==> bs[i].id == i
  }

  predicate AllPopped(bs: seq<Bubble>) {
    forall i :: 0 <= i < |bs| ==> bs[i].popped
  }

  /** The field generated on mount: twelve unpopped bubbles numbered 0..11, colours cycling through the palette. */
  function Generate(): (bs: seq<Bubble>)
    ensures |bs| == BubbleCount && IdsAreIndices(bs)
    ensures forall i :: 0 <= i < |bs| ==> !bs[i].popped && bs[i].color == Palette[i % |Palette|]
  {
    seq(BubbleCount, i requires 0 <= i < BubbleCount => Bubble(i, false, Palette[i % 4]))
  }

  /** `prev.map(b => b.id === id ? {...b, popped: true} : b)`. */
  function PopById(bs: seq<Bubble>, id: int): (r: seq<Bubble>)
    ensures |r| == |bs|
    ensures forall i :: 0 <= i < |bs| ==>
      r[i].id == bs[i].id && r[i].color == bs[i].color && (r[i].popped <==> bs[i].popped || bs[i].id == id)
  {
    seq(|bs|, i requires 0 <= i < |bs| => if bs[i].id == id then bs[i].(popped := true) else bs[i])
  }

  /** Popping twice is popping once. */
  lemma PopIdempotent(bs: seq<Bubble>, id: int)
    ensures PopById(PopById(bs, id), id) == PopById(bs, id)
  {
    var once := PopById(bs, id);
    var twice := PopById(once, id);
    forall i | 0 <= i < |bs|
      ensures twice[i] == once[i]
    {
    }
  }

  /** Popping an id whose bubbles are all popped already changes nothing. */
  lemma PopPoppedUnchanged(bs: seq<Bubble>, id: int)
    requires forall i :: 0 <= i < |bs| && bs[i].id == id ==> bs[i].popped
    ensures PopById(bs, id) == bs
  {
    var r := PopById(bs, id);
    forall i | 0 <= i < |bs|
      ensures r[i] == bs[i]
    {
    }
  }

  /** The game's state: the field and the number of completion callbacks scheduled so far. */
  datatype Game = Game(bubbles: seq<Bubble>, scheduledFinishes: nat)

  function Started(): Game {
    Game(Generate(), 0)
  }

  /** `pop(id)` as written: update the field, and schedule completion when every bubble is now popped. */
  function AfterPop(g: Game, id: int): (r: Game)
    ensures r.bubbles == PopById(g.bubbles, id)
    ensures r.scheduledFinishes == g.scheduledFinishes + (if AllPopped(r.bubbles) then 1 else 0)
  {
    var next := PopById(g.bubbles, id);
    Game(next, g.scheduledFinishes + if AllPopped(next) then 1 else 0)
  }

  /** A click on the `k`-th button: a popped bubble's button is disabled, so only an unpopped one pops. */
  function AfterClick(g: Game, k: nat): (r: Game)
    ensures |r.bubbles| == |g.bubbles|
    ensures forall i :: 0 <= i < |g.bubbles| && g.bubbles[i].popped ==> r.bubbles[i].popped
    ensures g.scheduledFinishes <= r.scheduledFinishes <= g.scheduledFinishes + 1
    ensures k >= |g.bubbles| || g.bubbles[k].popped ==> r == g
  {
    if k < |g.bubbles| && !g.bubbles[k].popped then AfterPop(g, g.bubbles[k].id) else g
  }

  /** A sequence of clicks: no bubble is ever un-popped and the scheduled count never goes down. */
  function AfterClicks(g: Game, ks: seq<nat>): (r: Game)
    ensures |r.bubbles| == |g.bubbles|
    ensures forall i :: 0 <= i < |g.bubbles| && g.bubbles[i].popped ==> r.bubbles[i].popped
    ensures g.scheduledFinishes <= r.scheduledFinishes
    decreases |ks|
  {
    if ks == [] then g else AfterClicks(AfterClick(g, ks[0]), ks[1..])
  }

  /** Completion has been scheduled once exactly when the field is all popped, and never otherwise. */
  predicate Scheduling(g: Game) {
    IdsAreIndices(g.bubbles) && g.scheduledFinishes == (if AllPopped(g.bubbles) then 1 else 0)
  }

  /** A click pops exactly the clicked bubble and keeps the scheduling invariant. */
  lemma ClickPops(g: Game, k: nat)
    requires Scheduling(g)
    ensures var r := AfterClick(g, k);
      && Scheduling(r)
      && |r.bubbles| == |g.bubbles|
      && forall i :: 0 <= i < |g.bubbles| ==> (r.bubbles[i].popped <==> g.bubbles[i].popped || i == k)
  {
    if k < |g.bubbles| && !g.bubbles[k].popped {
      assert !AllPopped(g.bubbles);
    }
  }

  /** After any clicks on a fresh field, bubble `i` is popped exactly when `i` was clicked. */
  lemma {:induction false} ClicksPop(g: Game, ks: seq<nat>)
    requires Scheduling(g)
    ensures var r := AfterClicks(g, ks);
      && Scheduling(r)
      && |r.bubbles| == |g.bubbles|
      && forall i :: 0 <= i < |g.bubbles| ==> (r.bubbles[i].popped <==> g.bubbles[i].popped || i in ks)
    decreases |ks|
  {
    if ks != [] {
      ClickPops(g, ks[0]);
      ClicksPop(AfterClick(g, ks[0]), ks[1..]);
      assert forall i :: i in ks <==> i == ks[0] || i in ks[1..];
    }
  }

  /**
   * Whatever is clicked, completion is scheduled at most once; it is scheduled exactly when every
   * one of the twelve bubbles has been clicked.
   */
  lemma CompletionOnce(ks: seq<nat>)
    ensures AfterClicks(Started(), ks).scheduledFinishes <= 1
    ensures AfterClicks(Started(), ks).scheduledFinishes == 1 <==> forall i :: 0 <= i < BubbleCount ==> i in ks
  {
    var g := Started();
    assert !g.bubbles[0].popped;
    ClicksPop(g, ks);
    var r := AfterClicks(g, ks);
    if forall i :: 0 <= i < BubbleCount ==> i in ks {
      assert AllPopped(r.bubbles);
    }
    if r.scheduledFinishes == 1 {
      forall i | 0 <= i < BubbleCount
        ensures i in ks
      {
        assert r.bubbles[i].popped;
      }
    }
  }

  /** The component's bubble state, replaced by each pop. */
  class BubbleField {
    var bubbles: seq<Bubble>
    var scheduledFinishes: nat

    function State(): Game
      reads this
    {
      Game(bubbles, scheduledFinishes)
    }

    constructor ()
      ensures State() == Started()
    {
      bubbles := Generate();
      scheduledFinishes := 0;
    }

    /** The `pop(id)` handler. */
    method Pop(id: int)
      modifies this
      ensures State() == AfterPop(old(State()), id)
    {
      var next := PopById(bubbles, id);
      bubbles := next;
      if AllPopped(next) {
        scheduledFinishes := scheduledFinishes + 1;
      }
    }

    /** A click on the `k`-th rendered button; disabled once its bubble is popped. */
    method Click(k: nat)
      modifies this
      ensures State() == AfterClick(old(State()), k)
    {
      if k < |bubbles| && !bubbles[k].popped {
        Pop(bubbles[k].id);
      }
    }
  }
}
