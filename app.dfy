/**
 * The application shell (App.tsx): the current tab, the one pending food summary handed from the
 * planner to the journal, and the dispatch from tab to screen.
 */
module AppShell {
  import opened Base
  import opened AppTypes
  import opened JsText
  import JournalScreen
  import PlannerScreen

  /** The screen rendered, with the props that carry state. */
  datatype Screen = PlannerShown | JournalShown(pendingFood: Option<string>) | EmergencyShown

  /**
   * `renderContent`: the journal and calm-down tabs show their screens (the journal receives the
   * pending food); every other tab value falls back to the planner.
   */
  function RenderContent(tabId: string, pendingFood: Option<string>): (s: Screen)
    ensures s == JournalShown(pendingFood) <==> tabId == JournalTab.Id()
    ensures s == EmergencyShown <==> tabId == EmergencyTab.Id()
    ensures s == PlannerShown <==> tabId != JournalTab.Id() && tabId != EmergencyTab.Id()
  {
    if tabId == PlannerTab.Id() then PlannerShown
    else if tabId == JournalTab.Id() then JournalShown(pendingFood)
    else if tabId == EmergencyTab.Id() then EmergencyShown
    else PlannerShown
  }

  /** Each tab is shown as its own screen. */
  lemma EveryTabHasItsScreen(tab: AppTab, pendingFood: Option<string>)
    ensures tab == PlannerTab <==> RenderContent(tab.Id(), pendingFood) == PlannerShown
    ensures tab == JournalTab <==> RenderContent(tab.Id(), pendingFood) == JournalShown(pendingFood)
    ensures tab == EmergencyTab <==> RenderContent(tab.Id(), pendingFood) == EmergencyShown
  {
  }

  class App {
    var currentTab: AppTab
    var pendingFood: Option<string>

    function Content(): Screen
      reads this
    {
      RenderContent(currentTab.Id(), pendingFood)
    }

    constructor ()
      ensures currentTab == PlannerTab && pendingFood.None?
      ensures Content() == PlannerShown
    {
      currentTab := PlannerTab;
      pendingFood := None;
    }

    /** `handleRecordFood`: the new summary replaces any pending one. */
    method HandleRecordFood(food: string)
      modifies this
      ensures pendingFood == Some(food) && currentTab == old(currentTab)
    {
      pendingFood := Some(food);
    }

    /** The journal's clear callback. */
    method ClearPendingFood()
      modifies this
      ensures pendingFood.None? && currentTab == old(currentTab)
    {
      pendingFood := None;
    }

    /** `setCurrentTab`, from the planner's navigation callback or the tab bar. */
    method SetTab(tab: AppTab)
      modifies this
      ensures currentTab == tab && pendingFood == old(pendingFood)
    {
      currentTab := tab;
    }

    /**
     * The planner's record-feeling button wired to the shell: the summary of the shown result, if
     * any, becomes the pending food, and the journal is shown with it.
     */
    method RecordFromPlanner(planner: PlannerScreen.Planner)
      modifies this
      ensures currentTab == JournalTab
      ensures planner.result.Some? ==> pendingFood == Some(PlannerScreen.FoodSummary(planner.result.value.items))
      ensures planner.result.None? ==> pendingFood == old(pendingFood)
      ensures Content() == JournalShown(pendingFood)
    {
      var recorded, target := planner.HandleRecordFeeling();
      if recorded.Some? {
        HandleRecordFood(recorded.value);
      }
      SetTab(target);
    }

    /**
     * A quick-log button on the shown journal (the buttons are hidden during the confirmation): the entry takes the pending food when it is truthy,
     * and exactly then the pending food is cleared; an empty pending string stays pending.
     */
    method LogFeeling(journal: JournalScreen.Journal, feeling: StomachFeeling, id: string, date: string, now: int)
      requires !journal.showConfirmation
      modifies this, journal
      ensures journal.logs == [JournalScreen.NewEntry(feeling, id, date, now, old(pendingFood))] + old(journal.logs)
      ensures journal.storage == old(journal.storage)[JournalScreen.StorageKey := journal.logs] && journal.Synced()
      ensures journal.showConfirmation
      ensures journal.pendingConfirmationTimeouts == old(journal.pendingConfirmationTimeouts) + 1
      ensures journal.showReport == old(journal.showReport) && journal.reportLoading == old(journal.reportLoading)
      ensures journal.reportContent == old(journal.reportContent)
      ensures Truthy(old(pendingFood)) ==> pendingFood.None? && journal.logs[0].foodNote == old(pendingFood)
      ensures !Truthy(old(pendingFood)) ==>
        pendingFood == old(pendingFood) && journal.logs[0].foodNote == Some(JournalScreen.NoFoodSentinel)
      ensures currentTab == old(currentTab)
    {
      var clearInvoked := journal.HandleLog(feeling, id, date, now, pendingFood, true);
      if clearInvoked {
        ClearPendingFood();
      }
    }
  }
}
