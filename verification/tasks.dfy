/**
 * The work and break task lists of the dashboard (src/components/Dashboard.js).
 * Every operation builds a new list from the old one, as the component does
 * with spread, `map` and `filter`. Ids are whatever the caller supplies
 * (`Date.now()` in the component, small literals in the seed lists), so
 * nothing here assumes they are unique: toggling and deleting act on every
 * task carrying the id.
 */
module Tasks {
  import opened Text
  import opened Seqs

  datatype Task = Task(id: int, text: string, completed: bool)

  /** The seed work list; its ids also occur in the seed break list. */
  const SeedWorkTasks: seq<Task> := [
    Task(1, "Complete project documentation", false),
    Task(2, "Review pull requests", false)
  ]

  /** The seed break list. */
  const SeedBreakTasks: seq<Task> := [
    Task(1, "Do 10 push-ups", false),
    Task(2, "Drink water", false),
    Task(3, "Take deep breaths", false)
  ]

  /**
   * Submitting the add form with `input` in the text box. Input that trims to
   * nothing leaves the list alone; otherwise one incomplete task carrying the
   * trimmed text is appended behind the unchanged earlier tasks.
   */
  function AddTask(tasks: seq<Task>, input: string, id: int): (r: seq<Task>)
    ensures Trim(input) == [] ==> r == tasks
    ensures Trim(input) != [] ==>
      && |r| == |tasks| + 1
      && r[..|tasks|] == tasks
      && r[|tasks|] == Task(id, Trim(input), false)
      && !IsWhitespace(r[|tasks|].text[0])
      && !IsWhitespace(r[|tasks|].text[|r[|tasks|].text| - 1])
  {
    var text := Trim(input);
    if text != [] then tasks + [Task(id, text, false)] else tasks
  }

  /** The task with `completed` flipped when it carries `id`, unchanged otherwise. */
  function Flip(t: Task, id: int): Task {
    if t.id == id then t.(completed := !t.completed) else t
  }

  /**
   * Clicking the checkbox of task `id`: same length, ids and texts, and the
   * completion flag negated on exactly the tasks that carry `id`.
   */
  function ToggleTask(tasks: seq<Task>, id: int): (r: seq<Task>)
    ensures |r| == |tasks|
    ensures forall i :: 0 <= i < |r| ==>
      && r[i].id == tasks[i].id
      && r[i].text == tasks[i].text
      && (r[i].completed <==> (if tasks[i].id == id then !tasks[i].completed else tasks[i].completed))
  {
    if tasks == [] then [] else [Flip(tasks[0], id)] + ToggleTask(tasks[1..], id)
  }

  /** Toggling the same id twice restores the list. */
  lemma {:induction false} ToggleTwice(tasks: seq<Task>, id: int)
    ensures ToggleTask(ToggleTask(tasks, id), id) == tasks
  {
    if tasks != [] {
      ToggleTwice(tasks[1..], id);
      assert ToggleTask(tasks, id)[1..] == ToggleTask(tasks[1..], id);
    }
  }

  /** Toggling an id no task carries changes nothing. */
  lemma {:induction false} ToggleAbsent(tasks: seq<Task>, id: int)
    requires forall i :: 0 <= i < |tasks| ==> tasks[i].id != id
    ensures ToggleTask(tasks, id) == tasks
  {
    if tasks != [] {
      ToggleAbsent(tasks[1..], id);
    }
  }

  /**
   * Clicking the delete button of task `id`: every task carrying `id` goes,
   * every other one stays, in its old relative order.
   */
  function DeleteTask(tasks: seq<Task>, id: int): (r: seq<Task>)
    ensures forall i :: 0 <= i < |r| ==> r[i].id != id
    ensures forall t :: t in tasks && t.id != id ==> t in r
    ensures IsSubsequence(r, tasks)
    ensures |r| == |tasks| - Count((t: Task) => t.id == id, tasks)
  {
    DeleteCount(tasks, id);
    Filter((t: Task) => t.id != id, tasks)
  }

  /** The tasks that survive a delete and the ones it removes add up to the list. */
  lemma {:induction false} DeleteCount(tasks: seq<Task>, id: int)
    ensures Count((t: Task) => t.id != id, tasks) == |tasks| - Count((t: Task) => t.id == id, tasks)
  {
    if tasks != [] {
      DeleteCount(tasks[1..], id);
    }
  }

  /** Deleting an id no task carries changes nothing. */
  lemma DeleteAbsent(tasks: seq<Task>, id: int)
    requires forall i :: 0 <= i < |tasks| ==> tasks[i].id != id
    ensures DeleteTask(tasks, id) == tasks
  {
    FilterAll((t: Task) => t.id != id, tasks);
  }
}
