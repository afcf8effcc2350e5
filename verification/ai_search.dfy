/** The natural-language search box of the timesheet form: the text typed,
    the hits the server returns with their confidence, the keyboard
    highlight, and the project and task a picked hit writes into the
    form.  The server's matching is not modelled: its reply is an input. */
module AiSearch {
  import opened Wrappers

  datatype Kind = TaskHit | ProjectHit | OtherHit

  /** A hit.  For a task hit, `projectId` is its project (0 when it has
      none) and `projectName` that project's name; `display` is the text
      shown for the hit. */
  datatype Hit = Hit(kind: Kind, id: int, name: string, projectId: int, projectName: string,
                     display: string, confidence: real)

  /** The box.  `pending` is whether a search is waiting for the typing to
      pause; `formProject` and `formTask` are the form's fields. */
  datatype Box = Box(
    query: string, results: seq<Hit>, selectedIndex: int, searched: bool, pending: bool,
    formProject: Option<(int, string)>, formTask: Option<(int, string)>)

  /** Queries shorter than this are never sent. */
  const MinQuery: nat := 2

  /** A single hit at least this confident is picked without asking. */
  const AutoPick: real := 0.85

  /** Hits at least this confident are shown as likely. */
  const Likely: real := 0.6

  /** The highlighted hit is one of the hits shown, or the first place
      when none is. */
  predicate Valid(b: Box) {
    if |b.results| == 0 then true else 0 <= b.selectedIndex < |b.results|
  }

  /** The box as the form opens it. */
  function Initial(project: Option<(int, string)>, task: Option<(int, string)>): (b: Box)
    ensures Valid(b) && b.query == "" && b.results == []
  {
    Box("", [], 0, false, false, project, task)
  }

  /** `onInputChange`: the text is taken, the last search forgotten, and a
      search scheduled when the text is long enough. */
  function InputChange(b: Box, text: string): (r: Box)
    ensures Valid(b) ==> Valid(r)
    ensures r.query == text && !r.searched
    ensures r.pending <==> |text| >= MinQuery
    ensures r == b.(query := text, searched := false, pending := r.pending)
  {
    b.(query := text, searched := false, pending := |text| >= MinQuery)
  }

  /** `selectResult`: a task hit fills the task and its project (cleared
      when it has none), a project hit fills the project and clears the
      task, any other hit leaves the form; the box then shows the hit's
      text and no hits. */
  function SelectResult(b: Box, h: Hit): (r: Box)
    ensures Valid(r) && r.results == [] && r.searched && r.query == h.display
    ensures h.kind == TaskHit ==>
      && r.formTask == Some((h.id, h.name))
      && r.formProject == (if h.projectId != 0 then Some((h.projectId, h.projectName)) else None)
    ensures h.kind == ProjectHit ==> r.formProject == Some((h.id, h.name)) && r.formTask.None?
    ensures h.kind == OtherHit ==> (r.formProject, r.formTask) == (b.formProject, b.formTask)
    ensures r.selectedIndex == b.selectedIndex && r.pending == b.pending
  {
    var c := b.(query := h.display, results := [], searched := true);
    match h.kind
    case TaskHit =>
      c.(formTask := Some((h.id, h.name)),
         formProject := if h.projectId != 0 then Some((h.projectId, h.projectName)) else None)
    case ProjectHit => c.(formProject := Some((h.id, h.name)), formTask := None)
    case OtherHit => c
  }

  /** `search`, given the server's hits (`None` when the call fails; a
      reply without hits is an empty list).  The old hits are cleared
      before the call, so a failure leaves none; a single confident hit is
      picked at once. */
  function Search(b: Box, reply: Option<seq<Hit>>): (r: Box)
    ensures Valid(b) ==> Valid(r)
    ensures |b.query| < MinQuery ==> r == b
    ensures |b.query| >= MinQuery && reply.None? ==> r == b.(results := [])
    ensures |b.query| >= MinQuery && reply.Some? && !(|reply.value| == 1 && reply.value[0].confidence >= AutoPick) ==>
      r == b.(results := reply.value, selectedIndex := 0, searched := true)
    ensures |b.query| >= MinQuery && reply.Some? && |reply.value| == 1 && reply.value[0].confidence >= AutoPick ==>
      r == SelectResult(b.(results := reply.value, selectedIndex := 0, searched := true), reply.value[0])
  {
    if |b.query| < MinQuery then b
    else
      match reply
      case None => b.(results := [])
      case Some(hits) =>
        var c := b.(results := hits, selectedIndex := 0, searched := true);
        if |hits| == 1 && hits[0].confidence >= AutoPick then SelectResult(c, hits[0]) else c
  }

  /** A search fills the form by itself exactly when it returns one hit
      and that hit is confident enough; otherwise the hits are listed with
      the first highlighted. */
  lemma AutoPickIff(b: Box, hits: seq<Hit>)
    requires |b.query| >= MinQuery
    ensures |hits| > 0 ==>
      (Search(b, Some(hits)).results == [] <==> |hits| == 1 && hits[0].confidence >= AutoPick)
    ensures |hits| == 1 && hits[0].confidence >= AutoPick ==>
      Search(b, Some(hits)).query == hits[0].display && Search(b, Some(hits)).searched
    ensures var r := Search(b, Some(hits));
      !(|hits| == 1 && hits[0].confidence >= AutoPick) ==> r.results == hits && r.selectedIndex == 0
  {
  }

  datatype Key = Enter | ArrowDown | ArrowUp | OtherKey

  /** `onKeyDown`: Enter picks the highlighted hit, or asks for a search
      when none is listed and the text is long enough (the second result);
      the arrows move the highlight within the list. */
  function KeyDown(b: Box, key: Key): (r: (Box, bool))
    requires Valid(b)
    ensures Valid(r.0)
    ensures r.1 <==> key == Enter && |b.results| == 0 && |b.query| >= MinQuery
    ensures key == Enter && |b.results| > 0 ==> r.0 == SelectResult(b, b.results[b.selectedIndex])
    ensures key == ArrowDown ==> r.0 == b.(selectedIndex := if b.selectedIndex < |b.results| - 1 then b.selectedIndex + 1 else b.selectedIndex)
    ensures key == ArrowUp ==> r.0 == b.(selectedIndex := if b.selectedIndex > 0 then b.selectedIndex - 1 else b.selectedIndex)
    ensures key == OtherKey || (key == Enter && |b.results| == 0) ==> r.0 == b
  {
    match key
    case Enter =>
      if |b.results| > 0 then (SelectResult(b, b.results[b.selectedIndex]), false)
      else (b, |b.query| >= MinQuery)
    case ArrowDown =>
      (if b.selectedIndex < |b.results| - 1 then b.(selectedIndex := b.selectedIndex + 1) else b, false)
    case ArrowUp =>
      (if b.selectedIndex > 0 then b.(selectedIndex := b.selectedIndex - 1) else b, false)
    case OtherKey => (b, false)
  }

  /** Down then up returns to the same hit away from the bottom of the
      list, and pressing down as often as there are hits highlights the
      last one. */
  lemma {:induction false} ArrowsInverse(b: Box)
    requires Valid(b) && 0 <= b.selectedIndex < |b.results| - 1
    ensures KeyDown(KeyDown(b, ArrowDown).0, ArrowUp).0 == b
  {
  }

  /** The box after the same key is pressed `n` times: with results on
      screen, each arrow moves the highlight one place until it reaches
      the end of the list, so `n` presses move it `n` places or to the
      end; any other key leaves the box alone. */
  function Presses(b: Box, key: Key, n: nat): (r: Box)
    requires Valid(b)
    ensures Valid(r)
    ensures |b.results| > 0 && key == ArrowDown ==>
      r == b.(selectedIndex := if b.selectedIndex + n < |b.results| then b.selectedIndex + n else |b.results| - 1)
    ensures |b.results| > 0 && key == ArrowUp ==>
      r == b.(selectedIndex := if b.selectedIndex >= n then b.selectedIndex - n else 0)
    ensures key == OtherKey ==> r == b
    decreases n
  {
    if n == 0 then b else Presses(KeyDown(b, key).0, key, n - 1)
  }

  lemma {:induction false} DownToLast(b: Box, n: nat)
    requires Valid(b) && |b.results| > 0
    requires n >= |b.results| - 1 - b.selectedIndex
    ensures Presses(b, ArrowDown, n).selectedIndex == |b.results| - 1
    ensures Presses(b, ArrowDown, n).results == b.results
    decreases n
  {
    if n > 0 {
      DownToLast(KeyDown(b, ArrowDown).0, n - 1);
    }
  }

  /** `getConfidenceClass`. */
  function ConfidenceClass(c: real): (r: string)
    ensures r == "text-success" <==> c >= AutoPick
    ensures r == "text-muted" <==> c < Likely
    ensures r == "text-warning" <==> Likely <= c < AutoPick
  {
    if c >= AutoPick then "text-success" else if c >= Likely then "text-warning" else "text-muted"
  }

  /** `getConfidenceIcon`. */
  function ConfidenceIcon(c: real): (r: string)
    ensures r == "fa-check-circle" <==> c >= AutoPick
    ensures r == "fa-circle-o" <==> c < Likely
    ensures r == "fa-question-circle" <==> Likely <= c < AutoPick
  {
    if c >= AutoPick then "fa-check-circle" else if c >= Likely then "fa-question-circle" else "fa-circle-o"
  }

  /** The colour and the icon always tell the same band, the bands are
      ordered by confidence, and a hit shown green is one a search would
      pick by itself when alone. */
  lemma {:induction false} ConfidenceBands(c: real, d: real, b: Box, h: Hit)
    requires c <= d
    ensures ConfidenceClass(c) == "text-success" <==> ConfidenceIcon(c) == "fa-check-circle"
    ensures ConfidenceClass(c) == "text-warning" <==> ConfidenceIcon(c) == "fa-question-circle"
    ensures ConfidenceClass(c) == "text-muted" <==> ConfidenceIcon(c) == "fa-circle-o"
    ensures ConfidenceClass(c) == "text-success" ==> ConfidenceClass(d) == "text-success"
    ensures ConfidenceClass(d) == "text-muted" ==> ConfidenceClass(c) == "text-muted"
    ensures |b.query| >= MinQuery && ConfidenceClass(h.confidence) == "text-success" ==>
      Search(b, Some([h])).results == []
  {
  }
}
