/**
 * The saved-templates sidebar (src/components/TemplatesSidebar.js): how it
 * splits the templates into the work and break sections, the one-line preview
 * of a template's tasks, and the task-count caption.
 */
module Templates {
  import opened Text
  import opened Seqs
  import opened Tasks

  /** A saved list; `kind` is the template's `type` string, "work" or "break". */
  datatype Template = Template(id: int, name: string, kind: string, tasks: seq<Task>)

  /**
   * One section of the sidebar: `templates.filter((t) => t.type === kind)`,
   * with `kind` "work" for the work section and "break" for the break section.
   */
  function Section(templates: seq<Template>, kind: string): (r: seq<Template>)
    ensures forall i :: 0 <= i < |r| ==> r[i].kind == kind
    ensures forall t :: t in templates && t.kind == kind ==> t in r
    ensures IsSubsequence(r, templates)
    ensures |r| == Count((t: Template) => t.kind == kind, templates)
  {
    Filter((t: Template) => t.kind == kind, templates)
  }

  /**
   * No template shows in both sections, and together they show at most every
   * template (fewer when some type is neither "work" nor "break").
   */
  lemma SectionsPartition(templates: seq<Template>)
    ensures forall t :: t in Section(templates, "work") ==> t !in Section(templates, "break")
    ensures |Section(templates, "work")| + |Section(templates, "break")| <= |templates|
  {
    CountExclusive((t: Template) => t.kind == "work", (t: Template) => t.kind == "break", templates);
    forall t | t in Section(templates, "work") ensures t !in Section(templates, "break") {
      assert t.kind == "work";
    }
  }

  /** The texts of the tasks, in order: `tasks.map((t) => t.text)`. */
  function Texts(tasks: seq<Task>): (r: seq<string>)
    ensures |r| == |tasks|
    ensures forall i :: 0 <= i < |r| ==> r[i] == tasks[i].text
  {
    seq(|tasks|, i requires 0 <= i < |tasks| => tasks[i].text)
  }

  /**
   * `formatPreview(tasks)`: "Empty list" for no tasks, the texts joined by
   * ", " for one or two, and for more the first two joined by ", " followed by
   * " +", the number of the others, and " more".
   */
  function FormatPreview(tasks: seq<Task>): (r: string)
    ensures |tasks| == 0 ==> r == "Empty list"
    ensures |tasks| == 1 ==> r == tasks[0].text
    ensures |tasks| == 2 ==> r == tasks[0].text + ", " + tasks[1].text
    ensures |tasks| > 2 ==>
      r == tasks[0].text + ", " + tasks[1].text + " +" + NatToString(|tasks| - 2) + " more"
  {
    if |tasks| == 0 then "Empty list"
    else if |tasks| <= 2 then
      var texts := Texts(tasks);
      if |tasks| == 1 then
        assert texts == [tasks[0].text];
        Join(texts, ", ")
      else
        assert texts == [tasks[0].text, tasks[1].text];
        JoinPair(tasks[0].text, tasks[1].text, ", ");
        Join(texts, ", ")
    else
      var shown := Texts(tasks[..2]);
      assert shown == [tasks[0].text, tasks[1].text];
      JoinPair(tasks[0].text, tasks[1].text, ", ");
      Join(shown, ", ") + " +" + NatToString(|tasks| - 2) + " more"
  }

  /** The number in a long preview reads back as the number of tasks it leaves out. */
  lemma PreviewCountsHidden(tasks: seq<Task>)
    requires |tasks| > 2
    ensures var r := FormatPreview(tasks);
      var digits := NatToString(|tasks| - 2);
      && r[|r| - |digits| - 5..] == digits + " more"
      && ParseDecimal(digits) + 2 == |tasks|
  {
    var digits := NatToString(|tasks| - 2);
    var front := tasks[0].text + ", " + tasks[1].text + " +";
    assert FormatPreview(tasks) == front + (digits + " more");
    EndsWith(front, digits + " more");
    ParseNatToString(|tasks| - 2);
  }

  /** The last `|b|` characters of `a + b` are `b`. */
  lemma EndsWith(a: string, b: string)
    ensures (a + b)[|a + b| - |b|..] == b
  {
  }

  /** The caption under a template: the count, then "task", with an "s" unless the count is 1. */
  function TaskCountLabel(count: nat): (r: string)
    ensures var digits := NatToString(count);
      && |r| >= |digits| + 5
      && r[..|digits|] == digits
      && r[|digits|..] == (if count == 1 then " task" else " tasks")
  {
    NatToString(count) + " task" + (if count != 1 then "s" else "")
  }
}
