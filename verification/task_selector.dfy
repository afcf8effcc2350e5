/** The card picker of the timesheet form: the user's projects and open
    tasks as coloured cards, narrowed by a search box; picking a card fills
    the form's project and task. */
module TaskSelector {
  import opened Wrappers
  import opened Sums
  import Arith
  import Text

  /** A project card.  `color` is Odoo's colour index, 0 when unset. */
  datatype ProjectCard = ProjectCard(id: int, name: string, color: int)

  /** A task card; `project` is the task's project as an (id, name) pair,
      absent when the task has none. */
  datatype TaskCard = TaskCard(id: int, name: string, project: Option<(int, string)>, color: int)

  /** The picker's search text and selection; `form` is what it wrote into
      the form's project and task fields. */
  datatype Picker = Picker(query: string, selectedProject: Option<int>, selectedTask: Option<int>,
                           formProject: Option<(int, string)>, formTask: Option<(int, string)>)

  /** `name.toLowerCase().includes(query.toLowerCase())`. */
  predicate Mentions(name: string, query: string) {
    Text.Contains(Text.Lower(name), Text.Lower(query))
  }

  /** `filteredProjects`: with a query, the projects whose name mentions
      it in any case, in order; without one, all of them. */
  function FilteredProjects(ps: seq<ProjectCard>, query: string): (r: seq<ProjectCard>)
    ensures query == "" ==> r == ps
    ensures query != "" ==> forall p :: p in r <==> p in ps && Mentions(p.name, query)
    ensures query != "" ==> forall p :: multiset(r)[p] == if Mentions(p.name, query) then multiset(ps)[p] else 0
  {
    if Text.Lower(query) == "" then ps
    else
      FilterMultiset(ps, (p: ProjectCard) => Mentions(p.name, query));
      Filter(ps, (p: ProjectCard) => Mentions(p.name, query))
  }

  /** The list keeps the projects' order: a project added last is listed
      last when it mentions the query, and not at all otherwise. */
  lemma {:induction false} FilteredProjectsKeepOrder(ps: seq<ProjectCard>, query: string, extra: ProjectCard)
    ensures FilteredProjects(ps + [extra], query)
         == FilteredProjects(ps, query) + (if query == "" || Mentions(extra.name, query) then [extra] else [])
  {
    if query != "" {
      var m := (p: ProjectCard) => Mentions(p.name, query);
      FilterAppend(ps, [extra], m);
      assert Filter([extra], m) == if m(extra) then [extra] else [];
    }
  }

  /** A task matches when its own name or its project's name mentions the
      query. */
  predicate TaskMatches(t: TaskCard, query: string) {
    Mentions(t.name, query) || (t.project.Some? && Mentions(t.project.value.1, query))
  }

  /** `filteredTasks`: with a query, the tasks that match it, in order;
      without one, all of them. */
  function FilteredTasks(ts: seq<TaskCard>, query: string): (r: seq<TaskCard>)
    ensures query == "" ==> r == ts
    ensures query != "" ==> forall t :: t in r <==> t in ts && TaskMatches(t, query)
    ensures query != "" ==> forall t :: multiset(r)[t] == if TaskMatches(t, query) then multiset(ts)[t] else 0
  {
    if Text.Lower(query) == "" then ts
    else
      FilterMultiset(ts, (t: TaskCard) => TaskMatches(t, query));
      Filter(ts, (t: TaskCard) => TaskMatches(t, query))
  }

  /** The list keeps the tasks' order: a task added last is listed last
      when it matches the query, and not at all otherwise. */
  lemma {:induction false} FilteredTasksKeepOrder(ts: seq<TaskCard>, query: string, extra: TaskCard)
    ensures FilteredTasks(ts + [extra], query)
         == FilteredTasks(ts, query) + (if query == "" || TaskMatches(extra, query) then [extra] else [])
  {
    if query != "" {
      var m := (t: TaskCard) => TaskMatches(t, query);
      FilterAppend(ts, [extra], m);
      assert Filter([extra], m) == if m(extra) then [extra] else [];
    }
  }

  /** Searching for a project's name keeps the project's card and every
      task card of the project, whatever the tasks are called. */
  lemma {:induction false} SearchByProjectKeepsItsTasks(ps: seq<ProjectCard>, ts: seq<TaskCard>, p: ProjectCard)
    requires p in ps && p.name != ""
    ensures p in FilteredProjects(ps, p.name)
    ensures forall t :: t in ts && t.project == Some((p.id, p.name)) ==> t in FilteredTasks(ts, p.name)
  {
    Text.ContainsSelf(Text.Lower(p.name));
    Text.LowerIdempotent(p.name);
  }

  /** `selectProject`: the project is picked and the task cleared, in the
      picker and in the form. */
  function SelectProject(s: Picker, p: ProjectCard): (r: Picker)
    ensures r.selectedProject == Some(p.id) && r.selectedTask.None?
    ensures r.formProject == Some((p.id, p.name)) && r.formTask.None?
    ensures r.query == s.query
  {
    s.(selectedProject := Some(p.id), selectedTask := None, formProject := Some((p.id, p.name)), formTask := None)
  }

  /** `selectTask`: the task is picked together with its project (none when
      it has none), in the picker and in the form. */
  function SelectTask(s: Picker, t: TaskCard): (r: Picker)
    ensures r.selectedTask == Some(t.id) && r.formTask == Some((t.id, t.name))
    ensures r.formProject == t.project
    ensures t.project.Some? ==> r.selectedProject == Some(t.project.value.0)
    ensures t.project.None? ==> r.selectedProject.None?
    ensures r.query == s.query
  {
    s.(selectedTask := Some(t.id),
       selectedProject := if t.project.Some? then Some(t.project.value.0) else None,
       formTask := Some((t.id, t.name)), formProject := t.project)
  }

  /** `isProjectSelected`: the project is picked and no task is. */
  predicate IsProjectSelected(s: Picker, p: ProjectCard) {
    s.selectedProject == Some(p.id) && s.selectedTask.None?
  }

  /** `isTaskSelected`. */
  predicate IsTaskSelected(s: Picker, t: TaskCard) {
    s.selectedTask == Some(t.id)
  }

  /** At most one kind of card is highlighted: after picking a project,
      exactly the cards of that id are highlighted and no task; after
      picking a task, no project card is highlighted, even the task's own
      project. */
  lemma SelectionExclusive(s: Picker, p: ProjectCard, t: TaskCard, q: ProjectCard, u: TaskCard)
    ensures IsProjectSelected(SelectProject(s, p), q) <==> q.id == p.id
    ensures !IsTaskSelected(SelectProject(s, p), u)
    ensures !IsProjectSelected(SelectTask(s, t), q)
    ensures IsTaskSelected(SelectTask(s, t), u) <==> u.id == t.id
  {
  }

  /** Picking a task and then its project leaves the same project in the
      form with the task cleared. */
  lemma TaskThenProject(s: Picker, t: TaskCard, p: ProjectCard)
    requires t.project == Some((p.id, p.name))
    ensures SelectProject(SelectTask(s, t), p) == SelectTask(s, t).(selectedTask := None, formTask := None)
  {
  }

  /** The card colours, by colour index. */
  const Colors: seq<string> := ["#F06050", "#F4A460", "#F7CD1F", "#6CC1ED",
                                "#814968", "#EB7E7F", "#2C8397", "#475577",
                                "#D6145F", "#30C381", "#9365B8"]

  /** `getCardColor`: the palette entry of the colour index taken
      modulo 11 with JavaScript's `%`; a negative index falls off the
      palette (JavaScript reads `undefined`), here `None`. */
  function CardColor(color: int): (r: Option<string>)
    ensures color >= 0 ==> r == Some(Colors[color % |Colors|])
    ensures color < 0 && color % |Colors| != 0 ==> r.None?
  {
    var i := Arith.JsRem(color, |Colors|);
    if 0 <= i then Some(Colors[i]) else None
  }

  /** The palette repeats every 11 indices, so Odoo's colour 11 shares
      colour 0's card colour, and every index from 0 up has one. */
  lemma PaletteRepeats(color: nat)
    ensures CardColor(color + 11) == CardColor(color)
    ensures CardColor(11) == CardColor(0) == Some("#F06050")
    ensures CardColor(color).Some?
  {
    assert |Colors| == 11;
    assert (color + 11) % 11 == color % 11;
    assert Colors[0] == "#F06050";
  }
}
