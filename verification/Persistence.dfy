/**
 * The saved file as data: `save_data` writes the five session fields, and
 * `load_data` reads them back with a default for each missing key, then
 * applies the daily reset of the session count. Reading and writing the
 * file itself is not modelled; the current date is a parameter.
 */
module Persistence {
  import opened Wrappers
  import opened Lists
  import opened AppState

  /** The decoded file: each of the five keys may be missing. */
  datatype Document = Document(
    sessions: Option<int>,
    tasks: Option<seq<Task>>,
    notes: Option<string>,
    links: Option<seq<Link>>,
    lastDate: Option<string>)

  /** Every key is present. */
  predicate Complete(d: Document) {
    d.sessions.Some? && d.tasks.Some? && d.notes.Some? && d.links.Some? && d.lastDate.Some?
  }

  /** `save_data`: the document holding the five session fields of `a`. */
  function Save(a: App): (d: Document)
    ensures Complete(d)
    ensures d.sessions == Some(a.sessions) && d.tasks == Some(a.tasks) && d.notes == Some(a.notes)
    ensures d.links == Some(a.links) && d.lastDate == Some(a.lastDate)
  {
    Document(Some(a.sessions), Some(a.tasks), Some(a.notes), Some(a.links), Some(a.lastDate))
  }

  /** Saving forgets exactly the timer fields: two states save alike iff their session records agree. */
  lemma SaveForgetsOnlyTimer(a: App, b: App)
    ensures Save(a) == Save(b) <==> SameRecord(a, b)
  {
  }

  /**
   * `load_data`. `file` is `None` when the file is absent or cannot be read
   * or decoded; the state is then kept as it is. Otherwise each field is
   * taken from the document or defaulted, the session count is dropped to 0
   * unless the stored date is `today`, the date becomes `today`, and the
   * countdown is refilled.
   */
  function Load(a: App, file: Option<Document>, today: string): (r: App)
    ensures file.None? ==> r == a
    ensures file.Some? ==> r.lastDate == today
    ensures file.Some? ==> r.running == a.running && r.initial == a.initial && r.mode == a.mode && r.seconds == a.initial
    ensures file.Some? && file.value.lastDate.GetOr("") != today ==> r.sessions == 0
    ensures file.Some? && file.value.lastDate.GetOr("") == today ==> r.sessions == file.value.sessions.GetOr(0)
    ensures file.Some? ==> r.tasks == file.value.tasks.GetOr([])
    ensures file.Some? ==> r.notes == file.value.notes.GetOr(DefaultNotes)
    ensures file.Some? ==> r.links == file.value.links.GetOr([])
  {
    match file
    case None => a
    case Some(d) =>
      var stored := d.lastDate.GetOr("");
      var sessions := if stored != today then 0 else d.sessions.GetOr(0);
      a.(sessions := sessions, tasks := d.tasks.GetOr([]), notes := d.notes.GetOr(DefaultNotes),
         links := d.links.GetOr([]), lastDate := today, seconds := a.initial)
  }

  /** Start-up: the `__init__` defaults, then `load_data`. */
  function Startup(file: Option<Document>, today: string): (r: App)
    ensures 0 <= r.seconds == r.initial == 25 * 60 && !r.running && r.mode == FocusMode
    ensures file.None? ==> r == Initial
  {
    Load(Initial, file, today)
  }

  /** Loading on the same day what was saved gives back every saved field. */
  lemma LoadSaveRoundTrip(a: App, b: App)
    ensures SameRecord(Load(b, Some(Save(a)), a.lastDate), a)
  {
  }

  /** Loading on another day what was saved keeps everything but the count, which restarts at 0. */
  lemma LoadSaveNewDay(a: App, b: App, today: string)
    requires a.lastDate != today
    ensures var r := Load(b, Some(Save(a)), today);
      r.sessions == 0 && r.lastDate == today && r.tasks == a.tasks && r.notes == a.notes && r.links == a.links
  {
  }

  /**
   * Loading the same file twice on one day is loading it once; and a save
   * right after a successful load writes a record that reloads to the same state.
   */
  lemma LoadIdempotent(a: App, file: Option<Document>, today: string)
    ensures Load(Load(a, file, today), file, today) == Load(a, file, today)
    ensures file.Some? ==> Load(Load(a, file, today), Some(Save(Load(a, file, today))), today) == Load(a, file, today)
  {
  }

  /** An empty document loads as the start-up defaults, dated today. */
  lemma LoadEmptyDocument(a: App, today: string)
    ensures var r := Load(a, Some(Document(None, None, None, None, None)), today);
      r.sessions == 0 && r.tasks == [] && r.notes == DefaultNotes && r.links == [] && r.lastDate == today
  {
  }

  /** The daily reset on a concrete record of five sessions dated 2024-01-01. */
  lemma DailyResetExample(a: App)
    ensures var d := Document(Some(5), Some([]), Some(DefaultNotes), Some([]), Some("2024-01-01"));
      Load(a, Some(d), "2024-01-02").sessions == 0 && Load(a, Some(d), "2024-01-01").sessions == 5
  {
  }

  /**
   * Without a file, the first run's state is dated `""`. Whatever count that
   * run saves is therefore reset by a restart on the same day.
   */
  lemma FirstRunCountLostOnRestart(today: string, count: int)
    requires today != ""
    ensures Startup(Some(Save(Startup(None, today).(sessions := count))), today).sessions == 0
  {
  }
}
