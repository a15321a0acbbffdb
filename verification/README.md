# Productive Pomodoro — a Dafny model of its component logic

This project models the logic inside the React components of Productive
Pomodoro, a browser Pomodoro timer with two task lists:

- **the dashboard timer** (`Timer`, `Dashboard`): a 25-minute work phase and a
  5-minute break phase. A one-second tick counts down and completes a phase.
  The Start/Pause, Reset and Skip buttons act on the timer. The display is `MM:SS`.
- **the two task lists** (`Tasks`, `Dashboard`): work tasks and break
  activities, each with add, toggle and delete. Each operation builds a new list.
- **the sign-in and registration forms** (`Forms`, `AuthModal`, `Login`): the
  field-update handler, the ordered checks, the error line, the loading flag,
  and the three views of the modal.
- **the settings panel** (`Settings`): the render guard and the clamp of the
  duration inputs.
- **the templates sidebar** (`Templates`): the split into work and break
  sections, the preview line and the task-count caption.
- **the theme** (`Theme`): the initial theme and the toggle.

`Text`, `Seqs` and `Options` hold the JavaScript built-ins these rely on:
`trim`, `toString`, `padStart`, `join`, `.length` in UTF-16 code units, and
`filter`.

The state that the dashboard, the sign-in and registration modal and the
login page keep in `useState` hooks is a Dafny `class` each
(`Dashboard.DashboardState`, `AuthModal.AuthModalState`, `Login.LoginPage`).
Each of their handlers is a method, and its `ensures` clause gives the new
state as a function of the old one. The theme provider keeps a single hook,
`theme`, whose initial value is `Theme.InitialTheme` and whose one handler is
`Theme.ToggleTheme`, a function from the old theme to the new one. Those functions (`Timer.Tick`, `Tasks.AddTask`, …)
carry the properties, and lemmas relate several calls: idempotence,
involution, round trips, and runs of many ticks.

Decisions where the code left a choice:

- **Phase completion.** When a phase ends, the interval's state updater first
  queues `setTimeLeft(5 * 60)` or `setTimeLeft(25 * 60)`, then returns
  `time - 1` (src/components/Dashboard.js:38, 42, 50). The value that ends up
  in `timeLeft` depends on how React orders the queued update against the
  updater's own result, and that is not visible in the component. The model
  takes the new phase's full duration. With that choice `timeLeft` stays
  within [1, phase length] at all times (`Timer.Valid`). A completion then
  leaves the clock exactly where Skip would (`Timer.CompletionIsSkip`).
- **Ticks, not timestamps.** The component decrements once per interval
  callback and keeps no wall-clock anchor, so time here is a count of
  `Tick` calls. The durations are the constants of the dashboard (25 and
  5 minutes); the settings panel's durations are not wired into this timer.
- **Ids are not unique.** The seed lists reuse ids 1 and 2, and new ids come
  from the clock. So toggle and delete act on every task carrying the id.
  Nothing sorts, edits or moves tasks.
- **Features these components do not have.** The dashboard has no
  timestamp-anchored countdown, no configurable durations, no re-sorting of
  tasks by completion, no editing, no drag-and-drop, no persistence and no
  loading or merging of templates, so the model has none either.

## Model

| member | source | states |
|---|---|---|
| `Timer.Duration` | src/components/Dashboard.js:69 | a phase lasts 300 seconds exactly when it is a break, 1500 otherwise |
| `Timer.InitialValid` | src/components/Dashboard.js:7-10 | the timer mounts with 1500 seconds, stopped, in the work phase, with no sessions, and satisfies the clock invariant |
| `Timer.Tick` | src/components/Dashboard.js:32-53 | with more than one second left a tick takes one second off and changes nothing else. Otherwise the timer stops, the phase flips, and a session is added only when work ended. The new phase starts full and one alert names the phase that ended. Ticks keep the invariant and never lower the session count |
| `Timer.Toggle` | src/components/Dashboard.js:63-65 | Start/Pause flips the running flag and nothing else |
| `Timer.ToggleTwice` | src/components/Dashboard.js:63-65 | pressing Start/Pause twice restores the clock |
| `Timer.Reset` | src/components/Dashboard.js:67-70 | Reset stops the timer and refills the current phase, keeping phase and sessions |
| `Timer.ResetIdempotent` | src/components/Dashboard.js:67-70 | Reset twice equals Reset once |
| `Timer.Skip` | src/components/Dashboard.js:72-82 | Skip stops the timer and flips the phase to its full length. Sessions grow by one exactly when a work phase is skipped |
| `Timer.CompletionIsSkip` | src/components/Dashboard.js:33-43 | a tick that ends a phase leaves the clock where Skip would |
| `Timer.Run` | src/components/Dashboard.js:29-60 | the repeating interval: nothing happens once the timer is stopped; `n` seconds raise at most one alert, and after an alert the timer is stopped; a valid clock stays valid and sessions never decrease |
| `Timer.RunCountsDown` | src/components/Dashboard.js:31-54 | while a running phase has more than `n` seconds left, `n` ticks take off exactly `n` seconds and raise no alert |
| `Timer.RunCompletesPhase` | src/components/Dashboard.js:29-60 | a running phase with `t` seconds left ends on tick `t` with exactly one alert. Later ticks change nothing, because the interval is gone once the timer stops |
| `Timer.FirstWorkSession` | src/components/Dashboard.js:7-60 | Start and then 1500 ticks give a stopped, full break phase with one session and one work-complete alert |
| `Timer.FormatTime` | src/components/Dashboard.js:85-91 | the display is the field of the whole minutes, a colon third from the end, and the two-character field of the remaining seconds; it is exactly five characters (`MM:SS`) below 6000 seconds |
| `Timer.Field` | src/components/Dashboard.js:88-90 | a padded field is at least two characters, and exactly two below 100 |
| `Timer.FieldValue` | src/components/Dashboard.js:88-90 | a padded field is all digits and reads back as its number |
| `Timer.FormatTimeMinutes` | src/components/Dashboard.js:86-88 | the minutes field of the display reads back as `seconds / 60` |
| `Timer.FormatTimeSeconds` | src/components/Dashboard.js:87-90 | the seconds field of the display reads back as `seconds % 60`, which is below 60, so a display never shows 60 or more seconds |
| `Timer.FormatTimeRoundTrip` | src/components/Dashboard.js:85-91 | reading the display back (minutes times 60 plus seconds) gives the seconds it was made from |
| `Text.NatToString` | src/components/Dashboard.js:88-90 | `toString` of a non-negative integer is a non-empty run of digits with no leading zero. It is one digit below 10 and two digits below 100 |
| `Text.ParseNatToString` | src/components/Dashboard.js:88-90 | reading a printed number back gives the number |
| `Text.PadStart` | src/components/Dashboard.js:88-90 | `padStart` keeps the string as its suffix and fills the front with the pad character up to the width |
| `Text.ParsePadded` | src/components/Dashboard.js:88-90 | zero-padding a digit string does not change its value |
| `Text.Trim` | src/components/Dashboard.js:96 | `trim` is the slice of the input that starts at its first non-whitespace character, with only whitespace before and after it; it neither starts nor ends with whitespace, and is empty exactly when the input is all whitespace |
| `Text.SkipForward` | src/components/Dashboard.js:96 | the forward scan of `trim` stops at the first character that is not whitespace, or at the end, and passes only whitespace |
| `Text.SkipBackward` | src/components/Dashboard.js:96 | the backward scan of `trim` stops after the last character that is not whitespace, never before its lower bound, and passes only whitespace |
| `Text.TrimIdempotent` | src/components/Dashboard.js:96 | trimming twice equals trimming once |
| `Tasks.AddTask` | src/components/Dashboard.js:94-118 | input that trims to nothing leaves the list unchanged. Otherwise exactly one incomplete task with the trimmed text and the given id is appended, and the earlier tasks are unchanged |
| `Tasks.ToggleTask` | src/components/Dashboard.js:120-134 | the list keeps its length, ids and texts. The completion flag is negated on exactly the tasks with the given id |
| `Tasks.ToggleTwice` | src/components/Dashboard.js:120-134 | toggling the same id twice restores the list |
| `Tasks.ToggleAbsent` | src/components/Dashboard.js:120-134 | toggling an id no task carries changes nothing |
| `Tasks.DeleteTask` | src/components/Dashboard.js:136-142 | no task with the id remains. Every other task remains, in its old relative order, and the list shrinks by the number of tasks with the id |
| `Tasks.DeleteAbsent` | src/components/Dashboard.js:136-142 | deleting an id no task carries changes nothing |
| `Seqs.Filter` | src/components/Dashboard.js:137 | `filter` returns the subsequence of exactly the elements that pass, in order |
| `Dashboard.DashboardState.constructor` | src/components/Dashboard.js:7-24 | mounting gives the initial clock, the seed lists, empty text boxes and no alerts |
| `Dashboard.DashboardState.Tick` | src/components/Dashboard.js:29-60 | an interval firing, possible only while running, moves the clock as `Timer.Tick` says and records its alert. Nothing else changes |
| `Dashboard.DashboardState.ToggleTimer` | src/components/Dashboard.js:63-65 | the clock becomes `Timer.Toggle` of the old clock, and nothing else changes |
| `Dashboard.DashboardState.ResetTimer` | src/components/Dashboard.js:67-70 | the clock becomes `Timer.Reset` of the old clock, and nothing else changes |
| `Dashboard.DashboardState.SkipTimer` | src/components/Dashboard.js:72-82 | the clock becomes `Timer.Skip` of the old clock, no alert is raised, and nothing else changes |
| `Dashboard.DashboardState.SetDraft` | src/components/Dashboard.js:189-190 | typing sets the text box of one list. The other text box, both lists and the timer are unchanged |
| `Dashboard.DashboardState.AddTask` | src/components/Dashboard.js:94-118 | the targeted list becomes `Tasks.AddTask` of its old value and its text box is cleared when a task was added. The other list, the other text box and the timer are unchanged |
| `Dashboard.DashboardState.ToggleTask` | src/components/Dashboard.js:120-134 | the targeted list becomes `Tasks.ToggleTask` of its old value, and everything else is unchanged |
| `Dashboard.DashboardState.DeleteTask` | src/components/Dashboard.js:136-142 | the targeted list becomes `Tasks.DeleteTask` of its old value, and everything else is unchanged |
| `Forms.LoginError` | src/components/AuthModal.js:31-35 | sign-in may proceed exactly when email and password are both non-empty. Otherwise the error is "Please fill in all fields" (the same check as src/components/Login.js:29-33) |
| `Forms.RegisterCheck` | src/components/AuthModal.js:54-75 | the missing-field error comes exactly when a field is empty, so it wins over every other error. The mismatch error comes exactly when all fields are filled and the passwords differ. The too-short error comes exactly when they are filled and match but the password has under 6 UTF-16 units. Registration proceeds exactly when all three checks pass |
| `Forms.MessagesDistinct` | src/components/AuthModal.js:60-72 | the three registration messages are different |
| `Text.Utf16Units` | src/components/AuthModal.js:71 | a code point takes two UTF-16 units exactly when it is above U+FFFF, one otherwise |
| `Text.Utf16Length` | src/components/AuthModal.js:71 | `.length` counts one or two units per code point: it equals the number of code points exactly when none is above U+FFFF, is twice that only when all are, and is zero only for the empty string |
| `Text.Utf16LengthOne` | src/components/AuthModal.js:71 | one code point is as long as its own encoding, so with the append lemma every string's length is the sum of its code points' units |
| `Text.Utf16LengthAppend` | src/components/AuthModal.js:71 | `.length` of a concatenation is the sum of the two lengths |
| `AuthModal.Next` | src/components/AuthModal.js:98-283 | a button acts only in the view that renders it, and always leaves that view |
| `AuthModal.ButtonTo` | src/components/AuthModal.js:98-283 | each view has exactly one button to each other view: landing to sign-in and register, sign-in and register to each other, and both back to landing |
| `AuthModal.FormData.With` | src/components/AuthModal.js:19-22 | updating a field sets that field and keeps every other field |
| `AuthModal.AuthModalState.constructor` | src/components/AuthModal.js:6-14 | the modal opens on the landing view with an empty form, not loading, with no error |
| `AuthModal.AuthModalState.Press` | src/components/AuthModal.js:98-283 | clicking a rendered button switches to its target view and changes nothing else |
| `AuthModal.AuthModalState.HandleChange` | src/components/AuthModal.js:17-24 | only the named field changes, and the error line ends empty |
| `AuthModal.AuthModalState.HandleLogin` | src/components/AuthModal.js:26-47 | with a field empty, the fill-in error shows and nothing is navigated. Otherwise the modal navigates to `/dashboard` and closes. Both ways end not loading, with the form and view unchanged |
| `AuthModal.AuthModalState.HandleRegister` | src/components/AuthModal.js:49-87 | the first failing check's message shows and nothing is navigated. If every check passes, the modal navigates to `/dashboard` and closes. Both ways end not loading |
| `Login.LoginPage.constructor` | src/components/Login.js:5-10 | the page starts with empty fields, not loading, with no error |
| `Login.LoginPage.HandleChange` | src/components/Login.js:13-21 | only the named field changes, and the error line ends empty |
| `Login.LoginPage.HandleSubmit` | src/components/Login.js:23-50 | the error line is reset. With a field empty the fill-in error shows and nothing is navigated. Otherwise the page navigates to `/dashboard`. Both ways end not loading |
| `Settings.Render` | src/components/SettingsPanel.js:19-21 | the panel renders nothing exactly when settings are closed or the timer runs. Otherwise it shows the two durations |
| `Settings.OrOne` | src/components/SettingsPanel.js:38 | the fallback to 1 turns `NaN` and 0 into 1 and keeps every other number |
| `Settings.ClampMinutes` | src/components/SettingsPanel.js:36-39 | the result lies in [1, max]. In-range values are kept, values above become max, and values below 1, `NaN` and 0 become 1 |
| `Settings.WorkMinutes` | src/components/SettingsPanel.js:35-41 | the work duration is always in [1, 60], and an in-range value is kept |
| `Settings.BreakMinutes` | src/components/SettingsPanel.js:56-61 | the break duration is always in [1, 30], and an in-range value is kept |
| `Settings.ClampStable` | src/components/SettingsPanel.js:36-39 | clamping a clamped value keeps it |
| `Templates.Section` | src/components/TemplatesSidebar.js:12-13 | each section is exactly the templates whose type is its kind ("work" or "break"), in their original order, and its length is the number of such templates |
| `Templates.SectionsPartition` | src/components/TemplatesSidebar.js:12-13 | the two sections share no template, and together they hold at most all templates |
| `Text.Join` | src/components/TemplatesSidebar.js:16-20 | `join` of no parts is empty; otherwise it starts with the first part, ends with the last, and its length is the parts' total plus one separator between each two |
| `Text.JoinPair` | src/components/TemplatesSidebar.js:17-20 | joining two parts gives the first, the separator, then the second |
| `Templates.FormatPreview` | src/components/TemplatesSidebar.js:15-22 | no tasks give "Empty list". One or two give their texts joined by ", ". More give the first two joined by ", ", then " +", the number of the rest, then " more" |
| `Templates.PreviewCountsHidden` | src/components/TemplatesSidebar.js:18-21 | a long preview ends with the number of hidden tasks and " more", and that number reads back as the count minus two |
| `Templates.TaskCountLabel` | src/components/TemplatesSidebar.js:77-80 | the caption is the count followed by " task", with "s" exactly when the count is not 1 |
| `Theme.InitialTheme` | src/contexts/ThemeContext.js:7-14 | a non-empty stored theme is used as it is. Without storage or a stored value the theme is "dark". The result is never empty |
| `Theme.ToggleTheme` | src/contexts/ThemeContext.js:23-25 | "dark" becomes "light", and anything else becomes "dark", including unknown strings. The result always differs from the input |
| `Theme.ToggleTwice` | src/contexts/ThemeContext.js:23-25 | toggling twice restores "dark" or "light", and takes an unknown theme to "light" |

## Left out

- Interval scheduling (`setInterval`, `clearInterval`, effect cleanup, src/components/Dashboard.js:29-60): a tick is an explicit call. `Dashboard.DashboardState.Tick` requires a running timer because the interval only exists then.
- The `alert` dialog (src/components/Dashboard.js:45-49): its text is appended to `alerts`. React StrictMode's double invocation of updaters, which would raise the alert twice, is not modelled.
- React's update queue: every handler applies its updates at once. The completion ambiguity is described above.
- `Date.now()` ids: the id is a parameter. JavaScript number precision is not modelled; ids and counters are unbounded integers.
- `parseInt` (src/components/SettingsPanel.js:38, 58): its result is an input (`None` for `NaN`). Its own parsing rules and floating-point results for huge inputs are not modelled.
- `Timer.FormatTime`: defined on non-negative seconds only, since `timeLeft` never goes below 1 in this model. The JavaScript output for negative numbers (`-1:-1`) is not modelled.
- The simulated request in the sign-in and registration handlers: `await`, the 1000 ms delay and `console.log` are dropped. The loading flag is not observable while the request waits. The `catch` branches ("Login failed…", "Registration failed…") cannot run, because the simulated request never rejects.
- `navigate` and the `onClose` prop: they are recorded as effects, not performed. The overlay and close button that call `onClose` directly (src/components/AuthModal.js:289-293) are not modelled.
- Theme side effects: the `data-theme` attribute, the `localStorage` write (src/contexts/ThemeContext.js:18-21) and the error `useTheme` throws outside a provider.
- The sound selectors, preview buttons and Done button of the settings panel (src/components/SettingsPanel.js:69-121): they only forward values to callbacks in props. The sound hook src/hooks/useSounds.js is not part of this model (Web Audio, timers, floating point).
- The sidebar's load, merge and delete buttons and its open/close toggle: they only call callbacks in props.
- Presentation and routing: JSX markup, src/App.js, src/components/Landing.js, src/components/DashboardHeader.js, src/components/ThemeToggle.js and the links of src/components/Login.js.
