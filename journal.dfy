/**
 * The journal screen's store (components/Journal.tsx): the list of feeling entries, newest
 * first, its persisted copy, the quick-log handler, the report overlay state and the per-feeling
 * chart counts.
 *
 * The browser's key-value storage is the field `storage`, a map from key to the stored list
 * (serialisation is taken to round-trip). The clock, the random id and the ISO date are
 * parameters of the handler.
 */
module JournalScreen {
  import opened Base
  import opened AppTypes
  import opened JsText
  import GeminiService

  const StorageKey: string := "weiwei_logs"

  /** The food note of an entry logged with no pending food. */
  const NoFoodSentinel: string := "未记录食物"

  /** The report text shown when the report promise rejects. */
  const ReportFailedText: string := "生成报告失败，请稍后再试。"

  const DayMs: int := 86400000

  // ---------------------------------------------------------------------------
  // Counting

  /** `logs.filter(l => l.feeling === f).length`. */
  function CountOf(logs: seq<JournalEntry>, f: StomachFeeling): (r: nat)
    ensures r <= |logs|
  {
    if logs == [] then 0
    else (if logs[0].feeling == f then 1 else 0) + CountOf(logs[1..], f)
  }

  /** A count is 0 exactly when no entry has the feeling, and the whole length exactly when all do. */
  lemma {:induction false} CountExtremes(logs: seq<JournalEntry>, f: StomachFeeling)
    ensures CountOf(logs, f) == 0 <==> forall i :: 0 <= i < |logs| ==> logs[i].feeling != f
    ensures CountOf(logs, f) == |logs| <==> forall i :: 0 <= i < |logs| ==> logs[i].feeling == f
  {
    if logs != [] {
      CountExtremes(logs[1..], f);
      assert forall i :: 1 <= i < |logs| ==> logs[i] == logs[1..][i - 1];
    }
  }

  /** The feelings of the entries, in list order. */
  function Feelings(logs: seq<JournalEntry>): (r: seq<StomachFeeling>)
    ensures |r| == |logs|
    ensures forall i :: 0 <= i < |logs| ==> r[i] == logs[i].feeling
  {
    if logs == [] then [] else [logs[0].feeling] + Feelings(logs[1..])
  }

  /** A bucket count is the multiplicity of its feeling among the entries' feelings. */
  lemma {:induction false} CountIsMultiplicity(logs: seq<JournalEntry>, f: StomachFeeling)
    ensures CountOf(logs, f) == multiset(Feelings(logs))[f]
  {
    if logs != [] {
      CountIsMultiplicity(logs[1..], f);
      assert Feelings(logs) == [logs[0].feeling] + Feelings(logs[1..]);
    }
  }

  /** Counting distributes over concatenation. */
  lemma {:induction false} CountConcat(a: seq<JournalEntry>, b: seq<JournalEntry>, f: StomachFeeling)
    ensures CountOf(a + b, f) == CountOf(a, f) + CountOf(b, f)
  {
    if a != [] {
      assert (a + b)[1..] == a[1..] + b;
      CountConcat(a[1..], b, f);
    } else {
      assert a + b == b;
    }
  }

  /** One bar of the chart. */
  datatype ChartBar = ChartBar(name: string, value: nat, color: string)

  /** `chartData`: one bar per feeling, in the order Great, Full, Stuffed, each under its label. */
  function ChartData(logs: seq<JournalEntry>): (r: seq<ChartBar>)
    ensures |r| == 3
    ensures r[0].name == "刚好" && r[1].name == "有点撑" && r[2].name == "撑到了"
    ensures r[0].color == "#AEC6CF" && r[1].color == "#FDFD96" && r[2].color == "#FFD1DC"
    ensures r[0].value == CountOf(logs, Great) && r[1].value == CountOf(logs, Full) && r[2].value == CountOf(logs, Stuffed)
  {
    [ ChartBar("刚好", CountOf(logs, Great), "#AEC6CF"),
      ChartBar("有点撑", CountOf(logs, Full), "#FDFD96"),
      ChartBar("撑到了", CountOf(logs, Stuffed), "#FFD1DC") ]
  }

  /** Every entry falls in exactly one bar, so the three bars add up to the number of entries. */
  lemma {:induction false} ChartTotal(logs: seq<JournalEntry>)
    ensures var bars := ChartData(logs); bars[0].value + bars[1].value + bars[2].value == |logs|
  {
    if logs != [] {
      ChartTotal(logs[1..]);
    }
  }

  // ---------------------------------------------------------------------------
  // Seed and new entries

  /** The illustrative six entries written on first load; timestamps are relative to `now`. */
  function SeedEntries(now: int): (r: seq<JournalEntry>)
    ensures |r| == 6
    ensures CountOf(r, Great) == 2 && CountOf(r, Full) == 2 && CountOf(r, Stuffed) == 2
    ensures forall i :: 0 <= i < |r| ==> r[i].foodNote.Some? && r[i].note.None?
  {
    var r := [
      JournalEntry("1", "2023-10-24", now - DayMs * 3, Great, Some("蔬菜沙拉+鸡胸肉"), None),
      JournalEntry("2", "2023-10-25", now - DayMs * 2, Full, Some("牛肉面（大碗）"), None),
      JournalEntry("3", "2023-10-25", now - DayMs * 2 + 1000, Great, Some("苹果一个"), None),
      JournalEntry("4", "2023-10-26", now - DayMs, Stuffed, Some("红烧肉+两碗米饭"), None),
      JournalEntry("5", "2023-10-26", now - 43200000, Stuffed, Some("火锅+米饭 150g"), None),
      JournalEntry("6", "2023-10-27", now, Full, Some("三明治"), None)
    ];
    assert r[5..][1..] == [];
    assert r[4..][1..] == r[5..] && r[3..][1..] == r[4..] && r[2..][1..] == r[3..];
    assert r[1..][1..] == r[2..];
    assert forall f :: CountOf(r[5..], f) == (if f == Full then 1 else 0);
    assert forall f :: CountOf(r[4..], f) == (if f == Great then 0 else 1);
    assert forall f :: CountOf(r[3..], f) == (if f == Great then 0 else if f == Full then 1 else 2);
    assert forall f :: CountOf(r[2..], f) == (if f == Great then 1 else if f == Full then 1 else 2);
    assert forall f :: CountOf(r[1..], f) == (if f == Great then 1 else 2);
    r
  }

  /** The entry `handleLog` creates: the given feeling, and the pending food when truthy, else the sentinel. */
  function NewEntry(feeling: StomachFeeling, id: string, date: string, now: int, pendingFood: Option<string>): (e: JournalEntry)
    ensures e.feeling == feeling && e.id == id && e.date == date && e.timestamp == now && e.note.None?
    ensures e.foodNote.Some? && e.foodNote.value != ""
    ensures Truthy(pendingFood) ==> e.foodNote == pendingFood
    ensures !Truthy(pendingFood) ==> e.foodNote == Some(NoFoodSentinel)
  {
    JournalEntry(id, date, now, feeling, Some(OrElse(pendingFood, NoFoodSentinel)), None)
  }

  /** Logging one entry adds one to its own bar and leaves the other two as they were. */
  lemma LogAddsToOneBar(e: JournalEntry, logs: seq<JournalEntry>, f: StomachFeeling)
    ensures CountOf([e] + logs, f) == CountOf(logs, f) + (if e.feeling == f then 1 else 0)
  {
    assert ([e] + logs)[1..] == logs;
  }

  // ---------------------------------------------------------------------------
  // The screen's state

  class Journal {
    var logs: seq<JournalEntry>
    /** The browser's key-value storage, as far as this screen uses it. */
    var storage: map<string, seq<JournalEntry>>
    var showConfirmation: bool
    /** Confirmation-hiding timeouts scheduled and not yet fired. */
    var pendingConfirmationTimeouts: nat
    var showReport: bool
    var reportLoading: bool
    var reportContent: string

    /**
     * The confirmation is shown exactly while its one hide timeout is pending: the log buttons are
     * replaced by the confirmation, so no second log can schedule a second hide.
     */
    predicate OneHidePending()
      reads this
    {
      pendingConfirmationTimeouts == (if showConfirmation then 1 else 0)
    }

    /** The persisted copy equals the in-memory list. */
    predicate Synced()
      reads this
    {
      StorageKey in storage && storage[StorageKey] == logs
    }

    /** The first render: empty list, nothing shown, storage as found. */
    constructor (initialStorage: map<string, seq<JournalEntry>>)
      ensures logs == [] && storage == initialStorage
      ensures !showConfirmation && pendingConfirmationTimeouts == 0
      ensures !showReport && !reportLoading && reportContent == ""
      ensures OneHidePending()
    {
      logs := [];
      storage := initialStorage;
      showConfirmation := false;
      pendingConfirmationTimeouts := 0;
      showReport := false;
      reportLoading := false;
      reportContent := "";
    }

    /** The mount effect: adopt the stored list, or seed six entries and persist them at once. */
    method Load(now: int)
      modifies this
      ensures Synced()
      ensures StorageKey in old(storage) ==> logs == old(storage)[StorageKey] && storage == old(storage)
      ensures StorageKey !in old(storage) ==> logs == SeedEntries(now) && storage == old(storage)[StorageKey := SeedEntries(now)]
      ensures showConfirmation == old(showConfirmation) && pendingConfirmationTimeouts == old(pendingConfirmationTimeouts)
      ensures showReport == old(showReport) && reportLoading == old(reportLoading) && reportContent == old(reportContent)
    {
      if StorageKey in storage {
        logs := storage[StorageKey];
      } else {
        var seed := SeedEntries(now);
        logs := seed;
        storage := storage[StorageKey := seed];
      }
    }

    /**
     * `handleLog(feeling)`, reachable only while the log buttons are shown (not during the
     * confirmation): prepend the new entry, rewrite the persisted copy, show the confirmation
     * and schedule its hiding. The result says whether the pending-food clear callback is invoked.
     */
    method HandleLog(feeling: StomachFeeling, id: string, date: string, now: int,
                     pendingFood: Option<string>, hasClearCallback: bool) returns (clearInvoked: bool)
      requires !showConfirmation
      modifies this
      ensures logs == [NewEntry(feeling, id, date, now, pendingFood)] + old(logs)
      ensures |logs| == |old(logs)| + 1 && logs[0].feeling == feeling && logs[1..] == old(logs)
      ensures storage == old(storage)[StorageKey := logs] && Synced()
      ensures clearInvoked <==> Truthy(pendingFood) && hasClearCallback
      ensures showConfirmation && pendingConfirmationTimeouts == old(pendingConfirmationTimeouts) + 1
      ensures old(OneHidePending()) ==> OneHidePending()
      ensures showReport == old(showReport) && reportLoading == old(reportLoading) && reportContent == old(reportContent)
    {
      var entry := NewEntry(feeling, id, date, now, pendingFood);
      var updated := [entry] + logs;
      logs := updated;
      storage := storage[StorageKey := updated];
      clearInvoked := Truthy(pendingFood) && hasClearCallback;
      showConfirmation := true;
      pendingConfirmationTimeouts := pendingConfirmationTimeouts + 1;
    }

    /** A confirmation-hiding timeout fires (2000 ms after a log). */
    method ConfirmationTimeout()
      modifies this
      ensures old(pendingConfirmationTimeouts) > 0 ==>
        !showConfirmation && pendingConfirmationTimeouts == old(pendingConfirmationTimeouts) - 1
      ensures old(pendingConfirmationTimeouts) == 0 ==>
        showConfirmation == old(showConfirmation) && pendingConfirmationTimeouts == 0
      ensures old(OneHidePending()) ==> OneHidePending()
      ensures logs == old(logs) && storage == old(storage)
      ensures showReport == old(showReport) && reportLoading == old(reportLoading) && reportContent == old(reportContent)
    {
      if pendingConfirmationTimeouts > 0 {
        showConfirmation := false;
        pendingConfirmationTimeouts := pendingConfirmationTimeouts - 1;
      }
    }

    /** `handleGenerateReport` up to its `await`: the overlay opens, loading, with no content. */
    method StartReport()
      modifies this
      ensures showReport && reportLoading && reportContent == ""
      ensures logs == old(logs) && storage == old(storage)
      ensures showConfirmation == old(showConfirmation) && pendingConfirmationTimeouts == old(pendingConfirmationTimeouts)
    {
      showReport := true;
      reportLoading := true;
      reportContent := "";
    }

    /** `handleGenerateReport` after its `await`: the report or the failure text, and loading ends. */
    method FinishReport(report: Outcome<string>)
      modifies this
      ensures report.Ok? ==> reportContent == report.value
      ensures report.Err? ==> reportContent == ReportFailedText
      ensures !reportLoading && showReport == old(showReport)
      ensures logs == old(logs) && storage == old(storage)
      ensures showConfirmation == old(showConfirmation) && pendingConfirmationTimeouts == old(pendingConfirmationTimeouts)
    {
      match report {
        case Ok(text) => reportContent := text;
        case Err(_) => reportContent := ReportFailedText;
      }
      reportLoading := false;
    }

    /**
     * The whole `handleGenerateReport` against the gateway: the report function never rejects, so
     * the overlay ends up showing its (never empty) text, and the failure text is never chosen.
     */
    method GenerateReport(apiKey: string, provider: string -> GeminiService.ReportResponse)
      modifies this
      ensures showReport && !reportLoading
      ensures reportContent == GeminiService.GenerateWeeklyReport(apiKey, logs, provider) && reportContent != ""
      ensures logs == old(logs) && storage == old(storage)
      ensures showConfirmation == old(showConfirmation) && pendingConfirmationTimeouts == old(pendingConfirmationTimeouts)
    {
      StartReport();
      var report := GeminiService.GenerateWeeklyReport(apiKey, logs, provider);
      FinishReport(Ok(report));
    }

    /** The overlay's close buttons. */
    method CloseReport()
      modifies this
      ensures !showReport && reportLoading == old(reportLoading) && reportContent == old(reportContent)
      ensures logs == old(logs) && storage == old(storage)
      ensures showConfirmation == old(showConfirmation) && pendingConfirmationTimeouts == old(pendingConfirmationTimeouts)
    {
      showReport := false;
    }
  }
}
