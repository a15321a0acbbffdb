/**
 * The timer settings panel (src/components/SettingsPanel.js): whether it
 * renders, and the duration a number input produces. `parseInt` of the input
 * is taken as given: `None` stands for `NaN`.
 */
module Settings {
  import opened Options

  const MaxWorkMinutes: int := 60
  const MaxBreakMinutes: int := 30

  /** What a rendered panel shows in its two duration inputs. */
  datatype Panel = Panel(workDuration: int, breakDuration: int)

  /** The panel renders only when settings are open and the timer is stopped. */
  function Render(showSettings: bool, isActive: bool, workDuration: int, breakDuration: int): (r: Option<Panel>)
    ensures r == None <==> !showSettings || isActive
    ensures r != None ==> r.value == Panel(workDuration, breakDuration)
  {
    if !showSettings || isActive then None else Some(Panel(workDuration, breakDuration))
  }

  /** `parsed || 1`: `NaN` and `0` are falsy and give 1; every other number is kept. */
  function OrOne(parsed: Option<int>): (r: int)
    ensures r != 0
    ensures parsed == None || parsed == Some(0) ==> r == 1
    ensures parsed.Some? && parsed.value != 0 ==> r == parsed.value
  {
    match parsed
    case None => 1
    case Some(v) => if v == 0 then 1 else v
  }

  /**
   * `Math.max(1, Math.min(max, parsed || 1))`: always within [1, max]; a value
   * already in range is kept, one above becomes `max`, one below becomes 1,
   * and `NaN` or 0 becomes 1.
   */
  function ClampMinutes(parsed: Option<int>, max: int): (r: int)
    requires 1 <= max
    ensures 1 <= r <= max
    ensures parsed.Some? && 1 <= parsed.value <= max ==> r == parsed.value
    ensures parsed.Some? && parsed.value > max ==> r == max
    ensures parsed.Some? && parsed.value < 1 ==> r == 1
    ensures parsed == None || parsed == Some(0) ==> r == 1
  {
    var v := OrOne(parsed);
    var capped := if max < v then max else v;
    if 1 < capped then capped else 1
  }

  /** The work-duration input's change handler: minutes in [1, 60]. */
  function WorkMinutes(parsed: Option<int>): (r: int)
    ensures 1 <= r <= MaxWorkMinutes
    ensures parsed.Some? && 1 <= parsed.value <= MaxWorkMinutes ==> r == parsed.value
  {
    ClampMinutes(parsed, MaxWorkMinutes)
  }

  /** The break-duration input's change handler: minutes in [1, 30]. */
  function BreakMinutes(parsed: Option<int>): (r: int)
    ensures 1 <= r <= MaxBreakMinutes
    ensures parsed.Some? && 1 <= parsed.value <= MaxBreakMinutes ==> r == parsed.value
  {
    ClampMinutes(parsed, MaxBreakMinutes)
  }

  /** Clamping is idempotent: feeding a clamped value back in keeps it. */
  lemma ClampStable(parsed: Option<int>, max: int)
    requires 1 <= max
    ensures ClampMinutes(Some(ClampMinutes(parsed, max)), max) == ClampMinutes(parsed, max)
  {
  }
}
