/**
 * The data fields of one `ZenFocusApp` window, without its widgets: the
 * countdown (`timer_running`, `timer_seconds`, `initial_time`, `timer_mode`)
 * and the session record (`sessions_completed`, `tasks`, `notes_content`,
 * `links`, `last_date`).
 */
module AppState {
  import opened Lists

  const DefaultNotes: string := "Use this space to clear your mind..."

  /** The only mode whose expiry counts as a completed session. */
  const FocusMode: string := "Focus"

  datatype App = App(
    running: bool,
    seconds: int,
    initial: int,
    mode: string,
    sessions: int,
    tasks: seq<Task>,
    notes: string,
    links: seq<Link>,
    lastDate: string)

  /** The state `__init__` sets up before loading the saved file. */
  const Initial: App := App(false, 25 * 60, 25 * 60, FocusMode, 0, [], DefaultNotes, [], "")

  /** The persisted fields of `a` and `b` agree. */
  predicate SameRecord(a: App, b: App) {
    && a.sessions == b.sessions
    && a.tasks == b.tasks
    && a.notes == b.notes
    && a.links == b.links
    && a.lastDate == b.lastDate
  }
}
