/**
 * The state the dashboard component keeps (src/components/Dashboard.js) and
 * the handlers that update it. Each field is one `useState` hook; each method
 * is one handler, and says what the new state is in terms of the old through
 * the functions of the `Timer` and `Tasks` modules. The completion alert is
 * recorded in `alerts` instead of being shown.
 */
module Dashboard {
  import opened Timer
  import opened Tasks

  /** Which of the two task lists a handler acts on. */
  datatype ListKind = WorkList | BreakList

  class DashboardState {
    var timeLeft: int
    var isActive: bool
    var isBreak: bool
    var sessions: nat
    /** The alerts raised so far, oldest first. */
    var alerts: seq<string>

    var workTasks: seq<Task>
    var breakTasks: seq<Task>
    /** The text boxes of the two add forms. */
    var newWorkTask: string
    var newBreakTask: string

    /** The timer part of the state. */
    function Clock(): Timer.Clock
      reads this
    {
      Timer.Clock(timeLeft, isActive, isBreak, sessions)
    }

    function List(kind: ListKind): seq<Task>
      reads this
    {
      if kind == WorkList then workTasks else breakTasks
    }

    function Draft(kind: ListKind): string
      reads this
    {
      if kind == WorkList then newWorkTask else newBreakTask
    }

    ghost predicate Valid()
      reads this
    {
      Timer.Valid(Clock())
    }

    /** The timer display, `MM:SS`. */
    function Display(): string
      reads this
      requires Valid()
    {
      FormatTime(timeLeft)
    }

    /** Mounting the component: the initial clock, the seed lists, empty text boxes, no alerts. */
    constructor ()
      ensures Valid()
      ensures Clock() == Initial && alerts == []
      ensures workTasks == SeedWorkTasks && breakTasks == SeedBreakTasks
      ensures newWorkTask == "" && newBreakTask == ""
    {
      timeLeft, isActive, isBreak, sessions := WorkSeconds, false, false, 0;
      alerts := [];
      workTasks, breakTasks := SeedWorkTasks, SeedBreakTasks;
      newWorkTask, newBreakTask := "", "";
    }

    /**
     * One firing of the one-second interval, which exists only while the timer
     * runs. The clock moves as `Timer.Tick` says and its alert, if any, is
     * recorded; the task lists are not touched.
     */
    method Tick()
      requires Valid() && isActive
      modifies this
      ensures Valid()
      ensures Clock() == Timer.Tick(old(Clock())).clock
      ensures alerts == old(alerts) + (match Timer.Tick(old(Clock())).alert
                                       case None => []
                                       case Some(a) => [a.Message()])
      ensures workTasks == old(workTasks) && breakTasks == old(breakTasks)
      ensures newWorkTask == old(newWorkTask) && newBreakTask == old(newBreakTask)
    {
      if timeLeft <= 1 {
        isActive := false;
        var ended := if isBreak then BreakOver else WorkComplete;
        if isBreak {
          isBreak := false;
          timeLeft := WorkSeconds;
        } else {
          sessions := sessions + 1;
          isBreak := true;
          timeLeft := BreakSeconds;
        }
        alerts := alerts + [ended.Message()];
      } else {
        timeLeft := timeLeft - 1;
      }
    }

    /** The Start/Pause button. */
    method ToggleTimer()
      requires Valid()
      modifies this
      ensures Valid()
      ensures Clock() == Toggle(old(Clock())) && alerts == old(alerts)
      ensures workTasks == old(workTasks) && breakTasks == old(breakTasks)
      ensures newWorkTask == old(newWorkTask) && newBreakTask == old(newBreakTask)
    {
      isActive := !isActive;
    }

    /** The Reset button. */
    method ResetTimer()
      requires Valid()
      modifies this
      ensures Valid()
      ensures Clock() == Reset(old(Clock())) && alerts == old(alerts)
      ensures workTasks == old(workTasks) && breakTasks == old(breakTasks)
      ensures newWorkTask == old(newWorkTask) && newBreakTask == old(newBreakTask)
    {
      isActive := false;
      timeLeft := if isBreak then BreakSeconds else WorkSeconds;
    }

    /** The Skip button: like a completed phase, but without an alert. */
    method SkipTimer()
      requires Valid()
      modifies this
      ensures Valid()
      ensures Clock() == Skip(old(Clock())) && alerts == old(alerts)
      ensures workTasks == old(workTasks) && breakTasks == old(breakTasks)
      ensures newWorkTask == old(newWorkTask) && newBreakTask == old(newBreakTask)
    {
      isActive := false;
      if isBreak {
        isBreak := false;
        timeLeft := WorkSeconds;
      } else {
        sessions := sessions + 1;
        isBreak := true;
        timeLeft := BreakSeconds;
      }
    }

    /** Typing into the add form of one list. */
    method SetDraft(kind: ListKind, value: string)
      modifies this
      ensures Draft(kind) == value
      ensures kind == WorkList ==> newBreakTask == old(newBreakTask)
      ensures kind == BreakList ==> newWorkTask == old(newWorkTask)
      ensures workTasks == old(workTasks) && breakTasks == old(breakTasks)
      ensures Clock() == old(Clock()) && alerts == old(alerts)
    {
      if kind == WorkList {
        newWorkTask := value;
      } else {
        newBreakTask := value;
      }
    }

    /**
     * Submitting the add form of one list, the new task getting id `id`. The
     * targeted list becomes `AddTask` of its old value and the text box is
     * cleared when a task was added; the other list, its text box and the
     * timer are untouched.
     */
    method AddTask(kind: ListKind, id: int)
      modifies this
      ensures List(kind) == Tasks.AddTask(old(List(kind)), old(Draft(kind)), id)
      ensures Draft(kind) == if Text.Trim(old(Draft(kind))) == [] then old(Draft(kind)) else ""
      ensures kind == WorkList ==> breakTasks == old(breakTasks) && newBreakTask == old(newBreakTask)
      ensures kind == BreakList ==> workTasks == old(workTasks) && newWorkTask == old(newWorkTask)
      ensures Clock() == old(Clock()) && alerts == old(alerts)
    {
      var draft := Draft(kind);
      var added := Tasks.AddTask(List(kind), draft, id);
      var cleared := if Text.Trim(draft) == [] then draft else "";
      if kind == WorkList {
        workTasks, newWorkTask := added, cleared;
      } else {
        breakTasks, newBreakTask := added, cleared;
      }
    }

    /** Clicking the checkbox of task `id` in one list; the other list is untouched. */
    method ToggleTask(kind: ListKind, id: int)
      modifies this
      ensures List(kind) == Tasks.ToggleTask(old(List(kind)), id)
      ensures kind == WorkList ==> breakTasks == old(breakTasks)
      ensures kind == BreakList ==> workTasks == old(workTasks)
      ensures newWorkTask == old(newWorkTask) && newBreakTask == old(newBreakTask)
      ensures Clock() == old(Clock()) && alerts == old(alerts)
    {
      if kind == WorkList {
        workTasks := Tasks.ToggleTask(workTasks, id);
      } else {
        breakTasks := Tasks.ToggleTask(breakTasks, id);
      }
    }

    /** Clicking the delete button of task `id` in one list; the other list is untouched. */
    method DeleteTask(kind: ListKind, id: int)
      modifies this
      ensures List(kind) == Tasks.DeleteTask(old(List(kind)), id)
      ensures kind == WorkList ==> breakTasks == old(breakTasks)
      ensures kind == BreakList ==> workTasks == old(workTasks)
      ensures newWorkTask == old(newWorkTask) && newBreakTask == old(newBreakTask)
      ensures Clock() == old(Clock()) && alerts == old(alerts)
    {
      if kind == WorkList {
        workTasks := Tasks.DeleteTask(workTasks, id);
      } else {
        breakTasks := Tasks.DeleteTask(breakTasks, id);
      }
    }
  }
}
