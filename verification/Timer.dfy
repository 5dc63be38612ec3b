/**
 * The countdown: the one-second tick `timer_countdown`, `toggle_timer`,
 * `reset_timer` and `set_mode`, as pure steps on the app state. The
 * rescheduling through `after(1000, ...)` is replaced by applying `Tick`
 * once per elapsed second.
 */
module Timer {
  import opened AppState

  /** Remaining seconds stay between zero and the mode's full length. */
  predicate Inv(a: App) {
    0 <= a.seconds <= a.initial
  }

  lemma InitialInv()
    ensures Inv(Initial)
  {
  }

  /** What the expiry branch leaves behind: stopped, refilled, Focus counted. */
  function Expired(a: App): (r: App)
    ensures !r.running && r.seconds == r.initial == a.initial && r.mode == a.mode
    ensures r.sessions == if a.mode == FocusMode then a.sessions + 1 else a.sessions
    ensures r.tasks == a.tasks && r.notes == a.notes && r.links == a.links && r.lastDate == a.lastDate
  {
    Reset(a.(running := false, sessions := if a.mode == FocusMode then a.sessions + 1 else a.sessions))
  }

  /**
   * `timer_countdown`: while running with time left, one second goes. At zero
   * the countdown expires, whether or not it is still running; any other
   * state (paused with time left, or a negative count) is left alone.
   */
  function Tick(a: App): (r: App)
    ensures a.running && a.seconds > 0 ==> r == a.(seconds := a.seconds - 1)
    ensures !a.running && a.seconds > 0 ==> r == a
    ensures a.seconds == 0 ==> r == Expired(a)
    ensures a.seconds < 0 ==> r == a
    ensures r.sessions == if a.seconds == 0 && a.mode == FocusMode then a.sessions + 1 else a.sessions
    ensures r.tasks == a.tasks && r.notes == a.notes && r.links == a.links && r.lastDate == a.lastDate
    ensures r.mode == a.mode && r.initial == a.initial
    ensures Inv(a) ==> Inv(r)
  {
    if a.running && a.seconds > 0 then a.(seconds := a.seconds - 1)
    else if a.seconds == 0 then Expired(a)
    else a
  }

  /** `toggle_timer`: from paused, start and tick at once; from running, only pause. */
  function Toggle(a: App): (r: App)
    ensures a.running ==> r == a.(running := false)
    ensures !a.running ==> r == Tick(a.(running := true))
    ensures !a.running && a.seconds > 0 ==> r.running && r.seconds == a.seconds - 1
    ensures r.sessions == if !a.running && a.seconds == 0 && a.mode == FocusMode then a.sessions + 1 else a.sessions
    ensures r.tasks == a.tasks && r.notes == a.notes && r.links == a.links && r.lastDate == a.lastDate
    ensures Inv(a) ==> Inv(r)
  {
    if !a.running then Tick(a.(running := true)) else a.(running := false)
  }

  /** `reset_timer`: stop and refill to the mode's full length. */
  function Reset(a: App): (r: App)
    ensures !r.running && r.seconds == a.initial
    ensures r.initial == a.initial && r.mode == a.mode && SameRecord(a, r)
    ensures a.initial >= 0 ==> Inv(r)
  {
    a.(running := false, seconds := a.initial)
  }

  /** `set_mode(mode, minutes)`: switch mode and length, then reset. */
  function SetMode(a: App, mode: string, minutes: int): (r: App)
    ensures r.mode == mode && r.initial == minutes * 60
    ensures !r.running && r.seconds == r.initial
    ensures SameRecord(a, r)
    ensures minutes >= 0 ==> Inv(r)
  {
    Reset(a.(mode := mode, initial := minutes * 60))
  }

  /** The mode buttons of the timer view, with their lengths in minutes. */
  const Presets: seq<(string, int)> := [(FocusMode, 25), ("Short Break", 5), ("Long Break", 15)]

  lemma PresetsKeepInv(a: App, i: nat)
    requires i < |Presets|
    ensures Inv(SetMode(a, Presets[i].0, Presets[i].1))
  {
  }

  /** Resetting twice is resetting once; right after `set_mode`, a reset changes nothing. */
  lemma ResetIdempotent(a: App, mode: string, minutes: int)
    ensures Reset(Reset(a)) == Reset(a)
    ensures Reset(SetMode(a, mode, minutes)) == SetMode(a, mode, minutes)
  {
  }

  /** `reset_timer` is `set_mode` with the current mode and length. */
  lemma ResetIsSetModeToSame(a: App, minutes: int)
    requires a.initial == minutes * 60
    ensures SetMode(a, a.mode, minutes) == Reset(a)
  {
  }

  /** `n` consecutive ticks. */
  function Ticks(a: App, n: nat): App
    decreases n
  {
    if n == 0 then a else Ticks(Tick(a), n - 1)
  }

  /** While running, each of `n <= seconds` ticks takes exactly one second off and touches nothing else. */
  lemma {:induction false} RunningCountdown(a: App, n: nat)
    requires a.running && n <= a.seconds
    ensures Ticks(a, n) == a.(seconds := a.seconds - n)
    decreases n
  {
    if n > 0 {
      RunningCountdown(a.(seconds := a.seconds - 1), n - 1);
    }
  }

  /** Paused with time left, any number of ticks leaves the state as it was. */
  lemma {:induction false} PausedStaysPut(a: App, n: nat)
    requires !a.running && a.seconds > 0
    ensures Ticks(a, n) == a
    decreases n
  {
    if n > 0 {
      PausedStaysPut(a, n - 1);
    }
  }

  /**
   * A running countdown with `s` seconds left expires on tick `s + 1`: it
   * reaches zero still marked running, and the following tick stops it,
   * refills it and counts one session if the mode is Focus.
   */
  lemma {:induction false} SessionRunsToExpiry(a: App)
    requires a.running && a.seconds >= 0
    ensures Ticks(a, a.seconds).running && Ticks(a, a.seconds).seconds == 0
    ensures Ticks(a, a.seconds + 1) == Expired(a)
    decreases a.seconds
  {
    RunningCountdown(a, a.seconds);
    if a.seconds > 0 {
      SessionRunsToExpiry(a.(seconds := a.seconds - 1));
    }
  }

  /** The user and clock events that drive the countdown. */
  datatype Event = TickEvent | ToggleEvent | ResetEvent | ModeEvent(mode: string, minutes: int)

  function Step(a: App, e: Event): App {
    match e
    case TickEvent => Tick(a)
    case ToggleEvent => Toggle(a)
    case ResetEvent => Reset(a)
    case ModeEvent(mode, minutes) => SetMode(a, mode, minutes)
  }

  predicate ValidEvents(es: seq<Event>) {
    forall i :: 0 <= i < |es| && es[i].ModeEvent? ==> es[i].minutes >= 0
  }

  /**
   * The state after a sequence of events. From the initial 25-minute state,
   * any sequence whose mode changes use non-negative lengths keeps `Inv`,
   * and the session count never goes down.
   */
  function Run(a: App, es: seq<Event>): (r: App)
    ensures Inv(a) && ValidEvents(es) ==> Inv(r)
    ensures a.sessions <= r.sessions
    ensures r.tasks == a.tasks && r.notes == a.notes && r.links == a.links && r.lastDate == a.lastDate
    decreases |es|
  {
    if |es| == 0 then a
    else
      assert ValidEvents(es) ==> ValidEvents(es[1..]) by {
        if ValidEvents(es) {
          forall i | 0 <= i < |es[1..]| && es[1..][i].ModeEvent?
            ensures es[1..][i].minutes >= 0
          {
            assert es[1..][i] == es[i + 1];
          }
        }
      }
      Run(Step(a, es[0]), es[1..])
  }

  lemma ReachableInv(es: seq<Event>)
    requires ValidEvents(es)
    ensures Inv(Run(Initial, es))
  {
    InitialInv();
  }
}
