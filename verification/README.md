# ZenFocus core, modelled in Dafny

ZenFocus is a single-window desktop productivity app (one `ZenFocusApp`
class). It has a countdown focus timer with Focus / Short Break / Long Break
modes, a to-do checklist, a notes pad and a bookmark list. The session
counter, tasks, notes, links and the date of the last daily reset are kept in
one JSON file. This project models the data logic of that class with its
widgets taken out. Each handler becomes a pure function over an immutable
state record, and the properties it promises are proved.

Modules, one per concern of the class:

- `Wrappers`: `Option` (a missing key) and `Result` (an input the source refuses).
- `TimeFormat`: `format_time` (`divmod` into a zero-padded `MM:SS` label), plus an independent reader of such labels.
- `Lists`: the task list and the bookmark list: `Task` and `Link`, and `add_task`, `remove_task`, `toggle_task`, `add_link` (with URL normalisation) and `remove_link` as operations on sequences.
- `AppState`: the app's data fields as one record `App`, and the `__init__` defaults.
- `Timer`: the one-second tick `timer_countdown`, `toggle_timer`, `reset_timer` and `set_mode`. Also the invariant `0 <= seconds <= initial`, multi-tick lemmas, and runs of arbitrary event sequences.
- `Persistence`: the saved document with optional keys, `save_data` as a projection, and `load_data` with defaults and the daily reset.

The model follows the code, including behaviour a reader might not expect:

- After the last running second, the tick leaves `running` true with 0 seconds left. The next tick expires the countdown. So "not running whenever the count is 0" does not hold for that one second (`SessionRunsToExpiry` states this).
- The expiry branch of the tick does not check `running`. A tick that arrives at 0 seconds after a pause still expires the countdown and counts the session.
- `remove_task` and `toggle_task` ignore an index that is out of range. They raise no error.
- `toggle_task` stores the check box's value. It does not negate the flag.
- `remove_link` has no bounds check. Python's `del` wraps a negative index and raises `IndexError` for an index out of range. The model returns a `Failure` for that error.
- When the file is missing or cannot be read, `load_data` changes nothing. The date stays `""` and no daily reset happens. As a result, the sessions counted on a first run with no file are saved with the date `""`, and a restart on the same day resets them to 0 (`FirstRunCountLostOnRestart`).
- `set_mode` accepts any number of minutes. The invariant is proved only for minutes `>= 0`.

## Model

| member | source | states |
|---|---|---|
| `TimeFormat.Decimal` | Zenfocus.py:153 | Python's `str(n)` of a non-negative integer: digits only, no leading zero from 1 on, reading back as `n`; one character exactly for `n < 10`, two for `10 <= n < 100`, at least three from 100 on |
| `TimeFormat.Pad2` | Zenfocus.py:153 | the `02d` format: the result reads back as `m`; it has at least two characters, exactly two for `0..99`, digits only for non-negative values, no leading zero from 10 on, and for negative values a `-` followed by digits only, the first of them non-zero |
| `TimeFormat.FormatTime` | Zenfocus.py:151-153 | the label has a `:` three characters from the end; the part before it reads back as `n / 60` and the two digits after it as `n % 60`, which is below 60; for `n >= 0` the label is 5 characters exactly when `n < 6000`; from 600 seconds on it has no leading zero, and a negative label is `-` followed by minute digits, the first of them non-zero |
| `TimeFormat.FormatTimeRoundTrip` | Zenfocus.py:151-153 | reading a formatted label back gives the original number of seconds, for every integer |
| `TimeFormat.FormatTimeInjective` | Zenfocus.py:151-153 | two different second counts never produce the same label |
| `TimeFormat.FormatTimeDefault` | Zenfocus.py:38 | the initial 25-minute countdown is shown as `25:00` |
| `Lists.RemoveAt` | Zenfocus.py:253 | deleting position `i` keeps the elements before `i` in place and shifts the ones after it down by one; the multiset loses exactly that element |
| `Lists.AddTask` | Zenfocus.py:244-249 | empty text leaves the list unchanged; otherwise `{text, completed: false}` is appended and the earlier tasks are untouched |
| `Lists.RemoveTask` | Zenfocus.py:251-255 | an index outside `0 .. len-1` leaves the list unchanged; otherwise only that task is removed and the rest keep their order |
| `Lists.SetTaskCompleted` | Zenfocus.py:257-260 | the length is kept and only the task at the index changes: its flag becomes the given value and its text stays; an out-of-range index changes nothing |
| `Lists.RemoveTaskUndoesAddTask` | Zenfocus.py:244-255 | removing the task at the old length right after adding it restores the list |
| `Lists.SetTaskCompletedUndo` | Zenfocus.py:257-260 | writing back the old flag restores the list |
| `Lists.SetTaskCompletedSame` | Zenfocus.py:257-260 | storing the flag a task already has changes nothing |
| `Lists.NormaliseUrl` | Zenfocus.py:309 | the result always starts with `http` or `ftp` and ends with the original URL; it is the URL itself exactly when that already starts with `http` or `ftp`, otherwise `https://` plus the URL |
| `Lists.NormaliseUrlIdempotent` | Zenfocus.py:309 | normalising an already normalised URL changes nothing |
| `Lists.AddLink` | Zenfocus.py:305-314 | refused exactly when the name or the URL is empty; on success the link is appended with its name and normalised URL and earlier links are untouched |
| `Lists.RemoveLink` | Zenfocus.py:316-319 | succeeds exactly for `-len <= index < len`; a non-negative index removes that link, a negative one removes the link counted from the end |
| `Lists.RemoveLinkUndoesAddLink` | Zenfocus.py:305-319 | removing the link at the old length, or at `-1`, right after adding it restores the list |
| `Lists.AddLinkExamples` | Zenfocus.py:305-310 | `example.com` is stored as `https://example.com`; `http://x` is stored unchanged |
| `Timer.InitialInv` | Zenfocus.py:37-39 | the start-up countdown satisfies `0 <= seconds <= initial` |
| `Timer.Expired` | Zenfocus.py:164-176 | expiry stops the timer, refills it to the full length, and adds one session exactly in Focus mode; the tasks, notes, links and date are untouched |
| `Timer.Tick` | Zenfocus.py:159-176 | running with time left: one second less and nothing else changes; paused with time left, or below zero: no change; at zero: expiry. The count goes up by 1 exactly at zero in Focus mode. Preserves the invariant |
| `Timer.Toggle` | Zenfocus.py:178-185 | from running it only clears `running`; from paused it sets `running` and ticks once, so with time left it runs one second lower; the count changes only by an immediate expiry in Focus mode. Preserves the invariant |
| `Timer.Reset` | Zenfocus.py:187-192 | stops the timer and refills it; mode, length and the session record are unchanged; the invariant holds whenever the length is non-negative |
| `Timer.SetMode` | Zenfocus.py:194-198 | sets the mode and a length of `minutes * 60`, fills the count to that length, stops the timer and keeps the session record; the invariant holds for `minutes >= 0` |
| `Timer.PresetsKeepInv` | Zenfocus.py:237-240 | each of the three mode buttons (25, 5, 15 minutes) leaves the timer in the invariant |
| `Timer.ResetIdempotent` | Zenfocus.py:187-198 | a second reset changes nothing, and a reset right after `set_mode` changes nothing |
| `Timer.ResetIsSetModeToSame` | Zenfocus.py:187-198 | `set_mode` with the current mode and length gives the same state as `reset_timer` |
| `Timer.RunningCountdown` | Zenfocus.py:159-163 | while running, `n` ticks with `n <= seconds` leave exactly `seconds - n` and change nothing else |
| `Timer.PausedStaysPut` | Zenfocus.py:159-164 | while paused with time left, any number of ticks changes nothing |
| `Timer.SessionRunsToExpiry` | Zenfocus.py:159-176 | a running countdown with `s` seconds left reaches 0 still running after `s` ticks, and tick `s + 1` expires it |
| `Timer.Run` | Zenfocus.py:159-198 | any sequence of ticks, toggles, resets and mode changes with non-negative minutes keeps the invariant; it never lowers the session count and never touches tasks, notes, links or the date |
| `Timer.ReachableInv` | Zenfocus.py:37-39 | every state reachable from the start-up countdown by such a sequence satisfies the invariant |
| `Persistence.Save` | Zenfocus.py:91-97 | the saved document has all five keys, holding the state's session count, tasks, notes, links and date |
| `Persistence.SaveForgetsOnlyTimer` | Zenfocus.py:91-97 | two states save to the same document exactly when their five session fields agree, so saving drops only the timer fields |
| `Persistence.Load` | Zenfocus.py:62-83 | an unreadable file changes nothing. Otherwise: each missing key defaults to 0, `[]`, the placeholder notes, `[]` or `""`; the count drops to 0 unless the stored date is today; the date becomes today; the count is refilled to the full length and the other timer fields are kept |
| `Persistence.Startup` | Zenfocus.py:35-48 | after start-up the timer is a stopped, full 25-minute Focus countdown; without a readable file the state is the `__init__` defaults |
| `Persistence.LoadSaveRoundTrip` | Zenfocus.py:69-97 | loading, on the day it was saved, what `save_data` wrote gives back the same five fields |
| `Persistence.LoadSaveNewDay` | Zenfocus.py:75-79 | loading a saved record on a different day keeps tasks, notes and links, sets the count to 0 and dates the record today |
| `Persistence.LoadIdempotent` | Zenfocus.py:62-97 | loading the same file twice on one day equals loading it once; saving right after a successful load writes a record that reloads to the same state |
| `Persistence.LoadEmptyDocument` | Zenfocus.py:69-73 | a document with no keys loads the defaults, dated today |
| `Persistence.FirstRunCountLostOnRestart` | Zenfocus.py:45-48 | after a first run with no file, a count saved on a non-empty date `today` reloads as 0 on that same day, because the run was dated `""` |
| `Persistence.DailyResetExample` | Zenfocus.py:75-79 | five sessions dated 2024-01-01 load as 0 on 2024-01-02 and as 5 on 2024-01-01 |

## Left out

- All widget construction, view switching (`change_view`, `clear_main_area`), labels, button texts and colours. These are presentation only.
- The self-rescheduling `after(1000, ...)` callback. The tick is a step function applied once per second. Interleavings of stale callbacks that a quick pause and resume can create belong to the scheduler, not to the state logic.
- Opening, reading and writing the JSON file, `os.path.exists`, the JSON encoding, and the `print` of exceptions. A missing or unreadable file is modelled as `None`.
- `Persistence.Load`: a key whose JSON value has the wrong type is not modelled. Python would store such a value unchecked. The document's fields are typed.
- The `save_data` call after each mutation and after a Focus expiry is file I/O. The document it writes is `Save` of the state at that moment.
- Capturing the notes from the text box (`save_data` while the Notes view is shown), and `on_closing`. These read widgets.
- `date.today()`, which is passed in as the `today` string.
- `messagebox` pop-ups and `webbrowser.open_new_tab`. These are foreign UI calls; a refused `add_link` is reported as a `Failure`.
- The progress-bar fraction `timer_seconds / initial_time`, which is floating point.
