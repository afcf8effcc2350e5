/** The full-database export script: how a field value is written into a
    CSV cell, which models are queued for export and in what order, and the
    tally of the run.  The XML-RPC connection, the CSV files and the
    paging through records are not modelled. */
module ExportQueue {
  import opened Sums
  import Numerals
  import Text
  import opened RpcValues

  /** Python's `str()` of a float: a whole number keeps ".0". */
  function FloatText(x: real): (r: string)
    ensures |r| >= 1
  {
    if Numerals.IsWhole(x) then Numerals.IntText(x.Floor) + ".0" else Numerals.NumText(x)
  }

  /** Python's `repr()` of a list element. */
  function ScalarRepr(e: Scalar): string {
    match e
    case SInt(i) => Numerals.IntText(i)
    case SStr(s) => "'" + s + "'"
  }

  /** `sanitize_value`: unset values give an empty cell, bytes a fixed
      marker, anything else its `str()`. */
  function Sanitize(v: Value): (r: string)
    ensures Unset(v) ==> r == ""
    ensures v.VBytes? ==> r == "<binary data>"
    ensures v == VBool(true) ==> r == "True"
    ensures v.VInt? ==> r == Numerals.IntText(v.i)
    ensures v.VStr? ==> r == v.s
    ensures v.VList? ==> r == "[" + Text.Join(seq(|v.items|, k requires 0 <= k < |v.items| => ScalarRepr(v.items[k])), ", ") + "]"
  {
    match v
    case VNone => ""
    case VBool(b) => if b then "True" else ""
    case VInt(i) => Numerals.IntText(i)
    case VFloat(x) => FloatText(x)
    case VStr(s) => s
    case VBytes(_) => "<binary data>"
    case VList(items) => "[" + Text.Join(seq(|items|, k requires 0 <= k < |items| => ScalarRepr(items[k])), ", ") + "]"
  }

  /** A cell is empty exactly for an unset value or an empty string: a
      zero, an empty list or empty bytes still write something. */
  lemma SanitizeEmptyIff(v: Value)
    ensures Sanitize(v) == "" <==> v.VNone? || v == VBool(false) || v == VStr("")
  {
  }

  /** A many-to-one value is written as Python prints the pair. */
  lemma {:induction false} ManyToOneCell(id: int, name: string)
    ensures Sanitize(VList([SInt(id), SStr(name)])) == "[" + Numerals.IntText(id) + ", '" + name + "']"
  {
    var items := [SInt(id), SStr(name)];
    var parts := seq(|items|, k requires 0 <= k < |items| => ScalarRepr(items[k]));
    var a, b := Numerals.IntText(id), "'" + name + "'";
    assert parts[0] == a;
    assert parts[1] == b;
    assert parts[1..] == [b];
    assert Text.Join(parts, ", ") == a + ", " + b;
  }

  // ---------------------------------------------------------------------
  // The export queue
  // ---------------------------------------------------------------------

  /** The run's settings that decide the queue. */
  datatype Config = Config(priority: seq<string>, skip: set<string>, skipExisting: bool)

  /** A model may be exported: it is not skipped by name and, when earlier
      exports are skipped, it was not exported before. */
  predicate Eligible(c: Config, existing: set<string>, m: string) {
    m !in c.skip && (!c.skipExisting || m !in existing)
  }

  predicate NoDup(s: seq<string>) {
    forall i, j :: 0 <= i < j < |s| ==> s[i] != s[j]
  }

  /** The priority models that the database has and that may be
      exported, in the configured order. */
  function PriorityPart(ps: seq<string>, c: Config, names: seq<string>, existing: set<string>): (r: seq<string>)
    ensures forall m :: m in r <==> m in ps && m in names && Eligible(c, existing, m)
    ensures NoDup(ps) ==> NoDup(r)
    decreases |ps|
  {
    if |ps| == 0 then []
    else
      var rest := PriorityPart(ps[1..], c, names, existing);
      if ps[0] in names && Eligible(c, existing, ps[0]) then
        assert NoDup(ps) ==> ps[0] !in ps[1..];
        [ps[0]] + rest
      else rest
  }

  /** `run_export`'s queue: the priority models that the database has, in
      the configured order, then every other database model, each once
      (a model listed twice among the priorities is queued twice). */
  method BuildQueue(c: Config, names: seq<string>, existing: set<string>) returns (queue: seq<string>)
    ensures NoDup(c.priority) ==> NoDup(queue)
    ensures forall m :: m in queue <==> m in names && Eligible(c, existing, m)
    ensures var first := PriorityPart(c.priority, c, names, existing);
      |first| <= |queue| && queue[..|first|] == first
  {
    var first := PriorityPart(c.priority, c, names, existing);
    queue := first;
    var j := 0;
    while j < |names|
      invariant 0 <= j <= |names|
      invariant NoDup(c.priority) ==> NoDup(queue)
      invariant |first| <= |queue| && queue[..|first|] == first
      invariant forall m :: m in queue ==> m in names && Eligible(c, existing, m)
      invariant forall k :: 0 <= k < j && Eligible(c, existing, names[k]) ==> names[k] in queue
    {
      var m := names[j];
      if m !in queue && m !in c.skip {
        if !c.skipExisting || m !in existing {
          queue := queue + [m];
        }
      }
      j := j + 1;
    }
    forall m | m in names && Eligible(c, existing, m) ensures m in queue {
      var k :| 0 <= k < |names| && names[k] == m;
    }
  }

  /** What one model's export reported. */
  datatype Outcome = Outcome(model: string, success: bool, recordCount: int)

  predicate Succeeded(o: Outcome) { o.success }
  predicate Failed(o: Outcome) { !o.success }
  predicate SucceededEmpty(o: Outcome) { o.success && o.recordCount == 0 }

  /** The run's summary. */
  datatype Summary = Summary(success: nat, failed: nat, empty: nat, errors: seq<Outcome>)

  /** The summary after one more outcome. */
  function Add(s: Summary, o: Outcome): Summary {
    if o.success then s.(success := s.success + 1, empty := s.empty + (if o.recordCount == 0 then 1 else 0))
    else s.(failed := s.failed + 1, errors := s.errors + [o])
  }

  /** The summary of a prefix of the outcomes, built up in order. */
  function Tallied(xs: seq<Outcome>): Summary
    decreases |xs|
  {
    if |xs| == 0 then Summary(0, 0, 0, []) else Add(Tallied(xs[..|xs| - 1]), xs[|xs| - 1])
  }

  /** The running summary counts the successes, the empty successes and
      the failures, and lists the failures in order. */
  lemma {:induction false} TalliedCounts(xs: seq<Outcome>)
    ensures var s := Tallied(xs);
      && s.success + s.failed == |xs|
      && s.empty <= s.success
      && s.success == Count(xs, Succeeded)
      && s.empty == Count(xs, SucceededEmpty)
      && s.errors == Filter(xs, Failed) && |s.errors| == s.failed
    decreases |xs|
  {
    if |xs| > 0 {
      var pre, o := xs[..|xs| - 1], xs[|xs| - 1];
      assert xs == pre + [o];
      TalliedCounts(pre);
      TallyStep(pre, o);
    }
  }

  /** The tally of the export loop over the outcomes, in queue order. */
  method Tally(outcomes: seq<Outcome>) returns (s: Summary)
    ensures s.success + s.failed == |outcomes|
    ensures s.empty <= s.success
    ensures s.success == Count(outcomes, Succeeded)
    ensures s.empty == Count(outcomes, SucceededEmpty)
    ensures s.errors == Filter(outcomes, Failed) && |s.errors| == s.failed
  {
    var success, failed, empty, errors := 0, 0, 0, [];
    var i := 0;
    while i < |outcomes|
      invariant 0 <= i <= |outcomes|
      invariant Summary(success, failed, empty, errors) == Tallied(outcomes[..i])
    {
      var o := outcomes[i];
      assert outcomes[..i + 1][..i] == outcomes[..i];
      if o.success {
        success := success + 1;
        if o.recordCount == 0 {
          empty := empty + 1;
        }
      } else {
        failed := failed + 1;
        errors := errors + [o];
      }
      i := i + 1;
    }
    s := Summary(success, failed, empty, errors);
    assert outcomes[..|outcomes|] == outcomes;
    TalliedCounts(outcomes);
  }

  /** One more outcome moves each count by at most one. */
  lemma {:induction false} TallyStep(xs: seq<Outcome>, o: Outcome)
    ensures Count(xs + [o], Succeeded) == Count(xs, Succeeded) + (if o.success then 1 else 0)
    ensures Count(xs + [o], SucceededEmpty) == Count(xs, SucceededEmpty) + (if SucceededEmpty(o) then 1 else 0)
    ensures Filter(xs + [o], Failed) == Filter(xs, Failed) + (if o.success then [] else [o])
  {
    FilterAppend(xs, [o], Succeeded);
    FilterAppend(xs, [o], SucceededEmpty);
    FilterAppend(xs, [o], Failed);
    assert [o][1..] == [];
  }
}
