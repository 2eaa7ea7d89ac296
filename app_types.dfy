/** The records and enumerations shared by the screens and the service (types.ts). */
module AppTypes {
  import opened Base

  /** How the stomach felt after a meal. */
  datatype StomachFeeling = Great | Full | Stuffed {
    /** The enumeration's string value, which is what template literals print. */
    function Value(): string {
      match this
      case Great => "GREAT"
      case Full => "FULL"
      case Stuffed => "STUFFED"
    }
  }

  datatype FoodItem = FoodItem(name: string, weightGrams: real, ingredientsBreakdown: Option<string>)

  /** The structured meal plan; `stomachLoadPercentage` is a JavaScript number (0 to 100 and beyond). */
  datatype MealAnalysis = MealAnalysis(items: seq<FoodItem>, stomachLoadPercentage: real, advice: string)

  /** One journal record; `date` is the ISO calendar date and `timestamp` milliseconds since the epoch. */
  datatype JournalEntry = JournalEntry(
    id: string,
    date: string,
    timestamp: int,
    feeling: StomachFeeling,
    foodNote: Option<string>,
    note: Option<string>)

  /** The three tabs of the application. */
  datatype AppTab = PlannerTab | JournalTab | EmergencyTab {
    /** The enumeration's string value. */
    function Id(): string {
      match this
      case PlannerTab => "planner"
      case JournalTab => "journal"
      case EmergencyTab => "emergency"
    }
  }
}
