/** The sign tally screen of an opportunity: a counter per sign type with
    plus and minus buttons, the total, the add form that fills itself in
    from a sign type of the same name, the edit form, and the list of the
    opportunity's drawings. */
module SignTally {
  import opened Wrappers
  import opened Sums
  import Text

  // The error messages the operations raise.
  const NoSignId := "Please enter a Sign ID"

  /** A sign type as the screen reads it.  Text fields are "" when unset. */
  datatype Row = Row(
    id: int, opportunity: int, name: string, quantity: int, length: real, width: real,
    hasWindow: bool, material: string, mounting: string, notes: string)

  /** A document of the opportunity. */
  datatype Attachment = Attachment(id: int, name: string, mimetype: string)

  /** A document counts as a drawing when its type or its file name says
      PDF, in any case. */
  predicate IsPdf(a: Attachment) {
    a.mimetype == "application/pdf" || Text.EndsWith(Text.Lower(a.name), ".pdf")
  }

  /** `loadData`: the opportunity's documents that are drawings, in
      order. */
  function Drawings(atts: seq<Attachment>): (r: seq<Attachment>)
    ensures forall a :: a in r <==> a in atts && IsPdf(a)
    ensures forall a :: multiset(r)[a] == if IsPdf(a) then multiset(atts)[a] else 0
  {
    FilterMultiset(atts, IsPdf);
    Filter(atts, IsPdf)
  }

  /** The list keeps the documents' order: a document added last is listed
      last when it is a drawing, and not at all otherwise. */
  lemma {:induction false} DrawingsKeepOrder(atts: seq<Attachment>, extra: Attachment)
    ensures Drawings(atts + [extra]) == Drawings(atts) + (if IsPdf(extra) then [extra] else [])
  {
    FilterAppend(atts, [extra], IsPdf);
  }

  /** A file whose name ends in ".PDF" is listed whatever its recorded
      type. */
  lemma UpperCaseExtension(id: int, stem: string, mimetype: string)
    ensures IsPdf(Attachment(id, stem + ".PDF", mimetype))
  {
    var n := stem + ".PDF";
    var l := Text.Lower(n);
    assert l[|l| - 4..] == ".pdf" by {
      assert n[|n| - 4..] == ".PDF";
    }
  }

  // ---------------------------------------------------------------------
  // Counters
  // ---------------------------------------------------------------------

  /** `totalSigns`: the sum of the quantities. */
  function TotalSigns(rows: seq<Row>): (t: int)
    ensures (forall j :: 0 <= j < |rows| ==> rows[j].quantity >= 0) ==>
      t >= 0 && forall j :: 0 <= j < |rows| ==> rows[j].quantity <= t
  {
    var q := (r: Row) => r.quantity;
    if forall j :: 0 <= j < |rows| ==> rows[j].quantity >= 0 then
      SumIntBounds(rows, q);
      SumInt(rows, q)
    else SumInt(rows, q)
  }

  /** `incrementQuantity`: one more of the k-th sign type. */
  function Increment(rows: seq<Row>, k: nat): (r: seq<Row>)
    requires k < |rows|
    ensures |r| == |rows| && r[k] == rows[k].(quantity := rows[k].quantity + 1)
    ensures forall j :: 0 <= j < |rows| && j != k ==> r[j] == rows[j]
  {
    rows[k := rows[k].(quantity := rows[k].quantity + 1)]
  }

  /** `decrementQuantity`: one fewer of the k-th sign type, never below
      zero. */
  function Decrement(rows: seq<Row>, k: nat): (r: seq<Row>)
    requires k < |rows|
    ensures rows[k].quantity > 0 ==> |r| == |rows| && r[k] == rows[k].(quantity := rows[k].quantity - 1)
    ensures rows[k].quantity > 0 ==> forall j :: 0 <= j < |rows| && j != k ==> r[j] == rows[j]
    ensures rows[k].quantity <= 0 ==> r == rows
  {
    if rows[k].quantity > 0 then rows[k := rows[k].(quantity := rows[k].quantity - 1)] else rows
  }

  /** Minus undoes plus, and plus undoes minus when there was one to take
      away. */
  lemma CountersInverse(rows: seq<Row>, k: nat)
    requires k < |rows|
    ensures rows[k].quantity >= 0 ==> Decrement(Increment(rows, k), k) == rows
    ensures rows[k].quantity > 0 ==> Increment(Decrement(rows, k), k) == rows
  {
  }

  /** Changing one entry moves the sum by the change. */
  lemma {:induction false} SumIntUpdate(rows: seq<Row>, k: nat, q: int)
    requires k < |rows|
    ensures TotalSigns(rows[k := rows[k].(quantity := q)]) == TotalSigns(rows) - rows[k].quantity + q
  {
    var f := (r: Row) => r.quantity;
    var s := rows[k := rows[k].(quantity := q)];
    assert rows == rows[..k] + [rows[k]] + rows[k + 1..];
    assert s == rows[..k] + [s[k]] + rows[k + 1..];
    SumIntAppend(rows[..k] + [rows[k]], rows[k + 1..], f);
    SumIntAppend(rows[..k], [rows[k]], f);
    SumIntAppend(rows[..k] + [s[k]], rows[k + 1..], f);
    SumIntAppend(rows[..k], [s[k]], f);
  }

  /** The total follows the buttons: plus adds one sign, minus takes one
      away unless the count was already zero. */
  lemma {:induction false} TotalFollowsButtons(rows: seq<Row>, k: nat)
    requires k < |rows|
    ensures TotalSigns(Increment(rows, k)) == TotalSigns(rows) + 1
    ensures TotalSigns(Decrement(rows, k)) == TotalSigns(rows) - (if rows[k].quantity > 0 then 1 else 0)
  {
    SumIntUpdate(rows, k, rows[k].quantity + 1);
    if rows[k].quantity > 0 {
      SumIntUpdate(rows, k, rows[k].quantity - 1);
    }
  }

  // ---------------------------------------------------------------------
  // The add form
  // ---------------------------------------------------------------------

  /** The add form and whether it was filled in from an existing sign
      type. */
  datatype AddForm = AddForm(name: string, length: real, width: real, hasWindow: bool, notes: string,
                             autoFilled: bool)

  /** `openAddModal`. */
  const BlankForm: AddForm := AddForm("", 0.0, 0.0, false, "", false)

  /** The first sign type whose name equals `name`, ignoring case. */
  function SameName(rows: seq<Row>, name: string): (k: Option<nat>)
    ensures k.Some? ==> k.value < |rows| && Text.Lower(rows[k.value].name) == Text.Lower(name)
    ensures k.Some? ==> forall j :: 0 <= j < k.value ==> Text.Lower(rows[j].name) != Text.Lower(name)
    ensures k.None? <==> forall j :: 0 <= j < |rows| ==> Text.Lower(rows[j].name) != Text.Lower(name)
  {
    Sums.FindFirst(rows, (r: Row) => Text.Lower(r.name) == Text.Lower(name))
  }

  /** `onNewNameInput`: the name is taken as typed; when it is not blank,
      the size and window of a sign type of the same name are copied in,
      and the form remembers whether one was found.  A blank name leaves
      everything else as it was. */
  function NameInput(f: AddForm, rows: seq<Row>, name: string): (r: AddForm)
    ensures r.name == name && r.notes == f.notes
    ensures Text.IsBlank(name) ==> r == f.(name := name)
    ensures !Text.IsBlank(name) && SameName(rows, name).None? ==> r == f.(name := name, autoFilled := false)
    ensures !Text.IsBlank(name) && SameName(rows, name).Some? ==>
      var e := rows[SameName(rows, name).value];
      r == f.(name := name, length := e.length, width := e.width, hasWindow := e.hasWindow, autoFilled := true)
  {
    var g := f.(name := name);
    if Text.Strip(name) == "" then g
    else
      match SameName(rows, name)
      case None => g.(autoFilled := false)
      case Some(k) => g.(length := rows[k].length, width := rows[k].width, hasWindow := rows[k].hasWindow,
                         autoFilled := true)
  }

  /** Typing the name of a listed sign type in another case fills the form
      with that sign type's size. */
  lemma {:induction false} AutoFillIgnoresCase(rows: seq<Row>, k: nat, f: AddForm)
    requires k < |rows| && !Text.IsBlank(rows[k].name)
    requires forall j :: 0 <= j < |rows| && j != k ==> Text.Lower(rows[j].name) != Text.Lower(rows[k].name)
    ensures var r := NameInput(f, rows, Text.Lower(rows[k].name));
      r.autoFilled && r.length == rows[k].length && r.width == rows[k].width
  {
    var name := Text.Lower(rows[k].name);
    Text.LowerIdempotent(rows[k].name);
    assert !Text.IsBlank(name) by {
      var i :| 0 <= i < |rows[k].name| && !Text.IsSpace(rows[k].name[i]);
      assert !Text.IsSpace(name[i]);
    }
    assert SameName(rows, name).Some? by {
      assert Text.Lower(rows[k].name) == Text.Lower(name);
    }
  }

  /** `parseFloat(text) || 0` for the size fields: what was read, or 0 for
      text that is not a number.  The text itself is read by the browser. */
  function OrZero(parsed: Option<real>): (x: real)
    ensures parsed.Some? ==> x == parsed.value
    ensures parsed.None? ==> x == 0.0
  {
    parsed.GetOr(0.0)
  }

  /** `saveNewSignType`: refused when the name is blank; otherwise a sign
      type of this opportunity under the trimmed name, counted once. */
  function SaveNew(f: AddForm, opportunity: int, newId: int): (r: Result<Row>)
    ensures Text.IsBlank(f.name) <==> r.Err?
    ensures r.Err? ==> r.error == NoSignId
    ensures r.Ok? ==> r.value == Row(newId, opportunity, Text.Strip(f.name), 1, f.length, f.width,
                                     f.hasWindow, "", "", f.notes)
  {
    if Text.Strip(f.name) == "" then Err(NoSignId)
    else Ok(Row(newId, opportunity, Text.Strip(f.name), 1, f.length, f.width, f.hasWindow, "", "", f.notes))
  }

  /** A saved sign type has a name with no blank at either end and adds
      one sign to the total; saving the same form twice makes two. */
  lemma {:induction false} SaveNewCounts(f: AddForm, rows: seq<Row>, opportunity: int, newId: int)
    requires SaveNew(f, opportunity, newId).Ok?
    ensures var row := SaveNew(f, opportunity, newId).value;
      && row.name != "" && Text.Strip(row.name) == row.name
      && TotalSigns(rows + [row]) == TotalSigns(rows) + 1
  {
    var row := SaveNew(f, opportunity, newId).value;
    assert Text.Strip(row.name) == row.name by {
      Text.StripIdempotent(f.name);
    }
    AddOne(rows, row);
  }

  lemma {:induction false} AddOne(rows: seq<Row>, row: Row)
    requires row.quantity == 1
    ensures TotalSigns(rows + [row]) == TotalSigns(rows) + 1
  {
    var f := (r: Row) => r.quantity;
    SumIntAppend(rows, [row], f);
    assert SumInt([row], f) == 1 by {
      assert [row][1..] == [];
    }
  }

  // ---------------------------------------------------------------------
  // The edit form
  // ---------------------------------------------------------------------

  /** `saveEditSignType`: refused when the edited name is blank; otherwise
      the record takes the form's name (trimmed), size, window, material,
      mounting and notes, and keeps its count and opportunity. */
  function SaveEdit(stored: Row, edited: Row): (r: Result<Row>)
    ensures Text.IsBlank(edited.name) <==> r.Err?
    ensures r.Err? ==> r.error == NoSignId
    ensures r.Ok? ==> r.value.name == Text.Strip(edited.name)
    ensures r.Ok? ==> (r.value.length, r.value.width, r.value.hasWindow) == (edited.length, edited.width, edited.hasWindow)
    ensures r.Ok? ==> (r.value.material, r.value.mounting, r.value.notes) == (edited.material, edited.mounting, edited.notes)
    ensures r.Ok? ==> (r.value.id, r.value.opportunity, r.value.quantity) == (stored.id, stored.opportunity, stored.quantity)
  {
    if Text.Strip(edited.name) == "" then Err(NoSignId)
    else Ok(stored.(name := Text.Strip(edited.name), length := edited.length, width := edited.width,
                    hasWindow := edited.hasWindow, material := edited.material,
                    mounting := edited.mounting, notes := edited.notes))
  }

  /** Saving the form a second time changes nothing more, and saving an
      untouched form of a trimmed name changes nothing at all. */
  lemma {:induction false} SaveEditIdempotent(stored: Row, edited: Row)
    requires SaveEdit(stored, edited).Ok?
    ensures SaveEdit(SaveEdit(stored, edited).value, edited) == SaveEdit(stored, edited)
    ensures stored.name != "" && Text.Strip(stored.name) == stored.name ==> SaveEdit(stored, stored) == Ok(stored)
  {
  }

  /** `deleteSignType`: the sign type goes, the others stay in order. */
  function Delete(rows: seq<Row>, id: int): (r: seq<Row>)
    ensures forall x :: x in r <==> x in rows && x.id != id
    ensures forall x :: multiset(r)[x] == if x.id != id then multiset(rows)[x] else 0
  {
    FilterMultiset(rows, (x: Row) => x.id != id);
    Filter(rows, (x: Row) => x.id != id)
  }

  /** Deleting keeps the others in order: a row added last stays last
      unless it is the one deleted. */
  lemma {:induction false} DeleteKeepsOrder(rows: seq<Row>, id: int, extra: Row)
    ensures Delete(rows + [extra], id) == Delete(rows, id) + (if extra.id != id then [extra] else [])
  {
    FilterAppend(rows, [extra], (x: Row) => x.id != id);
  }

  /** Deleting a sign type takes its count off the total. */
  lemma {:induction false} DeleteTotal(rows: seq<Row>, k: nat)
    requires k < |rows|
    requires forall j :: 0 <= j < |rows| && j != k ==> rows[j].id != rows[k].id
    ensures TotalSigns(Delete(rows, rows[k].id)) == TotalSigns(rows) - rows[k].quantity
  {
    var id := rows[k].id;
    var a, b := rows[..k], rows[k + 1..];
    assert rows == a + [rows[k]] + b;
    assert Delete(rows, id) == a + b by {
      var p := (x: Row) => x.id != id;
      assert forall j :: 0 <= j < |a| ==> p(a[j]);
      assert forall j :: 0 <= j < |b| ==> p(b[j]) by {
        forall j | 0 <= j < |b| ensures p(b[j]) {
          assert b[j] == rows[k + 1 + j];
        }
      }
      DropOne(a, rows[k], b, p);
    }
    calc {
      TotalSigns(rows);
      { SumIntAppend(a + [rows[k]], b, (r: Row) => r.quantity); }
      TotalSigns(a + [rows[k]]) + TotalSigns(b);
      { SumIntAppend(a, [rows[k]], (r: Row) => r.quantity); }
      TotalSigns(a) + rows[k].quantity + TotalSigns(b);
      { SumIntAppend(a, b, (r: Row) => r.quantity); }
      TotalSigns(a + b) + rows[k].quantity;
    }
  }

  /** Filtering `a + [x] + b` with a test that only `x` fails leaves
      `a + b`. */
  lemma {:induction false} DropOne(a: seq<Row>, x: Row, b: seq<Row>, p: Row -> bool)
    requires forall j :: 0 <= j < |a| ==> p(a[j])
    requires forall j :: 0 <= j < |b| ==> p(b[j])
    requires !p(x)
    ensures Filter(a + [x] + b, p) == a + b
  {
    calc {
      Filter(a + [x] + b, p);
      { FilterAppend(a + [x], b, p); }
      Filter(a + [x], p) + Filter(b, p);
      { FilterAppend(a, [x], p); }
      Filter(a, p) + Filter([x], p) + Filter(b, p);
      { assert Filter([x], p) == []; }
      Filter(a, p) + Filter(b, p);
      { FilterAllKept(a, p); FilterAllKept(b, p); }
      a + b;
    }
  }

  lemma {:induction false} FilterAllKept(s: seq<Row>, p: Row -> bool)
    requires forall j :: 0 <= j < |s| ==> p(s[j])
    ensures Filter(s, p) == s
    decreases |s|
  {
    if |s| > 0 {
      FilterAllKept(s[1..], p);
      assert s == [s[0]] + s[1..];
    }
  }
}
