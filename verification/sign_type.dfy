/** Project-specific sign types (`ps.sign.type`): the dimension label, the
    extended price, the form's onchange defaults (template, standard
    size, category, subtype, ADA), the quick auto-price, confirmation and
    the one-name-per-opportunity constraint. */
module SignTypes {
  import opened Wrappers
  import opened Arith
  import opened Numerals
  import PanelFit
  import SignDimensions

  // The error messages the operations raise.
  const UniqueSignType := "unique_sign_type_per_project"

  datatype Illumination = NoIllumination | Internal | External | Edge | Halo | Channel

  datatype State = Draft | Confirmed | Ordered | Production | Complete | Canceled

  /** The fields of a sign type that its computes, onchanges and actions
      read or write.  `category` is the category's id. */
  datatype SignType = SignType(
    id: int, opportunity: int, name: string, category: Option<int>,
    length: real, width: real, depth: real, isRound: bool, diameter: real,
    isAda: bool, hasTactile: bool, hasBraille: bool,
    hasWindow: bool, isIlluminated: bool, illumination: Illumination,
    quantity: int, unitCost: real, unitPrice: real,
    state: State, confirmed: bool)

  /** A quick-add template (`ps.sign.type.template`). */
  datatype Template = Template(
    name: string, category: Option<int>, width: real, length: real,
    defaultUnitPrice: real, isAda: bool, useCount: int)

  datatype Category = Category(id: int, isAdaDefault: bool)

  datatype Subtype = Subtype(isAda: bool, hasWindowDefault: bool, isIlluminatedDefault: bool)

  // ---------------------------------------------------------------------
  // Dimension label
  // ---------------------------------------------------------------------

  /** The two characters the diameter label of a sign type starts with
      in the source: U+00C3 and U+02DC, which is what the UTF-8 bytes of
      U+00D8 become when read as Windows-1252. */
  const GarbledDiameterMark: string := "\U{00C3}\U{02DC} "

  /** The label as the source writes it. */
  function DimensionsDisplayAsWritten(t: SignType): (r: string)
    ensures t.isRound && t.diameter != 0.0 ==>
      r == GarbledDiameterMark + NumText(t.diameter) + "\""
    ensures !(t.isRound && t.diameter != 0.0) ==> r == DimensionsDisplay(t)
  {
    if t.isRound && t.diameter != 0.0 then GarbledDiameterMark + NumText(t.diameter) + "\""
    else DimensionsDisplay(t)
  }

  /** `_compute_dimensions_display` with the diameter mark the dimension
      table uses: a round sign shows exactly the standard dimension's
      diameter label; otherwise `L" x W"` when both sides are set, else
      nothing. */
  function DimensionsDisplay(t: SignType): (r: string)
    ensures t.isRound && t.diameter != 0.0 ==> r == SignDimensions.DiameterDisplay(t.diameter)
    ensures !(t.isRound && t.diameter != 0.0) && t.length != 0.0 && t.width != 0.0 ==>
      r == NumText(t.length) + "\" x " + NumText(t.width) + "\""
    ensures r == [] <==> !(t.isRound && t.diameter != 0.0) && (t.length == 0.0 || t.width == 0.0)
  {
    if t.isRound && t.diameter != 0.0 then SignDimensions.DiameterDisplay(t.diameter)
    else if t.length != 0.0 && t.width != 0.0 then
      NumText(t.length) + "\" x " + NumText(t.width) + "\""
    else ""
  }

  /** The source's label for a round sign never matches the dimension
      table's label for the same diameter: its first character is U+00C3
      where the table has U+00D8. */
  lemma GarbledRoundLabel(t: SignType)
    requires t.isRound && t.diameter != 0.0
    ensures DimensionsDisplayAsWritten(t)[0] == '\U{00C3}'
    ensures DimensionsDisplay(t)[0] == '\U{00D8}'
    ensures DimensionsDisplayAsWritten(t) != DimensionsDisplay(t)
  {
    var a := DimensionsDisplayAsWritten(t);
    var c := DimensionsDisplay(t);
    assert a[0] == GarbledDiameterMark[0];
    assert c[..2] == SignDimensions.DiameterMark;
    assert c[0] == SignDimensions.DiameterMark[0];
  }

  /** A 12-inch round sign: the source prints `Ã˜ 12"`, the intended
      label is `Ø 12"`. */
  lemma GarbledTwelveInch(t: SignType)
    requires t.isRound && t.diameter == 12.0
    ensures DimensionsDisplayAsWritten(t) == "\U{00C3}\U{02DC} 12\""
    ensures DimensionsDisplay(t) == "\U{00D8} 12\""
  {
    assert IsWhole(12.0) && (12.0).Floor == 12;
    assert NatText(12) == NatText(1) + [DigitChar(2)];
  }

  /** A whole-inch rectangular sign is labelled by its integers. */
  lemma WholeDisplay(t: SignType, l: int, w: int)
    requires !t.isRound && l != 0 && w != 0
    requires t.length == l as real && t.width == w as real
    ensures DimensionsDisplay(t) == IntText(l) + "\" x " + IntText(w) + "\""
  {
    assert t.length.Floor == l && t.width.Floor == w;
  }

  // ---------------------------------------------------------------------
  // Prices
  // ---------------------------------------------------------------------

  /** `_compute_extended_price`: unit price times quantity. */
  function ExtendedPrice(t: SignType): (r: real)
    ensures t.quantity == 0 || t.unitPrice == 0.0 ==> r == 0.0
    ensures t.quantity == 1 ==> r == t.unitPrice
  {
    t.unitPrice * t.quantity as real
  }

  /** Splitting an order into two quantities splits its extended price. */
  lemma {:induction false} ExtendedPriceAdditive(t: SignType, a: int, b: int)
    ensures ExtendedPrice(t.(quantity := a + b))
         == ExtendedPrice(t.(quantity := a)) + ExtendedPrice(t.(quantity := b))
  {
    assert (a + b) as real == a as real + b as real;
    assert t.unitPrice * (a as real + b as real) == t.unitPrice * a as real + t.unitPrice * b as real;
  }

  /** The constants of the quick auto-price, taken from the estimating
      engine's catalog defaults. */
  const PioniteCost: real := 211.30
  const AbsCost: real := 80.0
  const InkCost: real := 0.33
  const PaintCost: real := 0.60
  const TapeCost: real := 0.25
  const McLubeCost: real := 0.50
  const EmployeeWage: real := 10.0
  const MoldMinutes: real := 80.0
  const OverheadPercent: real := 15.0
  const Markup: real := 2.4
  const MoldsPerSheet: int := 17

  /** The intermediate figures of one auto-price run. */
  datatype Quote = Quote(
    perMold: int, qty: int, molds: int, sheets: real,
    materialPerUnit: real, laborPerUnit: real, overheadPerUnit: real,
    costPerUnit: real, price: real)

  /** Signs per mold for the auto-price: both orientations when both
      sides are positive, else 1. */
  function AutoPerMold(width: real, length: real): (n: int)
    ensures n >= 1
    ensures width > 0.0 && length > 0.0 ==>
      n == PanelFit.SignsPerMold(width, length, PanelFit.PressWidth, PanelFit.PressHeight)
  {
    if width > 0.0 && length > 0.0 then
      PanelFit.SignsPerMold(width, length, PanelFit.PressWidth, PanelFit.PressHeight)
    else 1
  }

  /** The material cost of `molds` molds making `qty` signs: the sheets'
      share of Pionite and ABS, ink and paint per sign, tape and
      McLube per mold. */
  function AutoMaterial(qty: int, molds: int): real {
    molds as real / MoldsPerSheet as real * (PioniteCost + AbsCost)
      + (qty as real * InkCost + qty as real * PaintCost)
      + (molds as real * TapeCost + molds as real * McLubeCost)
  }

  /** The labour cost of `molds` molds: 80 minutes each at $10/hour. */
  function AutoLabor(molds: int): real {
    molds as real * (MoldMinutes / 60.0 * EmployeeWage)
  }

  /** The auto-price figures for a sign of the given sides and quantity.
      A zero quantity counts as one sign; the molds are the fewest that
      cover the quantity; the per-unit figures are the totals shared by
      the quantity; the overhead adds 15%; the price is the marked-up
      cost rounded to a multiple of $5. */
  function AutoQuote(width: real, length: real, quantity: int): (q: Quote)
    ensures q.perMold == AutoPerMold(width, length)
    ensures q.qty != 0 && (quantity != 0 ==> q.qty == quantity) && (quantity == 0 ==> q.qty == 1)
    ensures q.molds * q.perMold >= q.qty && (q.molds - 1) * q.perMold < q.qty
    ensures Spread(q.sheets, MoldsPerSheet as real, q.molds as real)
    ensures Spread(q.materialPerUnit, q.qty as real, AutoMaterial(q.qty, q.molds))
    ensures Spread(q.laborPerUnit, q.qty as real, AutoLabor(q.molds))
    ensures q.overheadPerUnit == (q.materialPerUnit + q.laborPerUnit) * 0.15
    ensures q.costPerUnit == q.materialPerUnit + q.laborPerUnit + q.overheadPerUnit
    ensures MultipleOf5(q.price) && -2.5 <= q.price - q.costPerUnit * Markup <= 2.5
  {
    var n := AutoPerMold(width, length);
    var qty := OrInt(quantity, 1);
    var molds := PanelFit.PlanBatch(qty, n).molds;
    var sheets := Share(molds as real, MoldsPerSheet as real);
    var material := AutoMaterial(qty, molds);
    var labor := AutoLabor(molds);
    var m := Share(material, qty as real);
    var l := Share(labor, qty as real);
    var o := (m + l) * (OverheadPercent / 100.0);
    var c := m + l + o;
    Quote(n, qty, molds, sheets, m, l, o, c, RoundTo5(c * Markup))
  }

  /** `_onchange_compute_price`.  Without both sides nothing changes;
      otherwise only the unit cost and unit price are written, from the
      auto-price figures. */
  function AutoPrice(t: SignType): (r: SignType)
    ensures t.length == 0.0 || t.width == 0.0 ==> r == t
    ensures t.length != 0.0 && t.width != 0.0 ==>
      var q := AutoQuote(t.width, t.length, t.quantity);
      r == t.(unitCost := q.costPerUnit, unitPrice := q.price)
  {
    if t.length == 0.0 || t.width == 0.0 then t
    else
      var q := AutoQuote(t.width, t.length, t.quantity);
      t.(unitCost := q.costPerUnit, unitPrice := q.price)
  }

  /** The auto-price writes a unit price that is a multiple of $5 within
      $2.50 of 2.4 times the unit cost, and touches no other field. */
  lemma AutoPriceRounded(t: SignType)
    requires t.length != 0.0 && t.width != 0.0
    ensures MultipleOf5(AutoPrice(t).unitPrice)
    ensures -2.5 <= AutoPrice(t).unitPrice - AutoPrice(t).unitCost * Markup <= 2.5
    ensures AutoPrice(t).(unitCost := t.unitCost, unitPrice := t.unitPrice) == t
  {
  }

  /** The price depends only on the sides and the quantity, so running
      the auto-price again changes nothing. */
  lemma AutoPriceIdempotent(t: SignType)
    ensures AutoPrice(AutoPrice(t)) == AutoPrice(t)
  {
  }

  /** A quantity of 0 is priced as a single sign. */
  lemma AutoPriceZeroQuantity(t: SignType)
    requires t.quantity == 0
    ensures AutoPrice(t).unitPrice == AutoPrice(t.(quantity := 1)).unitPrice
  {
  }

  // ---------------------------------------------------------------------
  // Onchange defaults
  // ---------------------------------------------------------------------

  /** ADA signs carry tactile lettering and braille. */
  predicate AdaComplete(t: SignType) {
    t.isAda ==> t.hasTactile && t.hasBraille
  }

  /** `_onchange_is_ada`: checking ADA turns tactile and braille on. */
  function OnIsAda(t: SignType): (r: SignType)
    ensures AdaComplete(r)
    ensures !t.isAda ==> r == t
    ensures t.isAda ==> r == t.(hasTactile := true, hasBraille := true)
  {
    if t.isAda then t.(hasTactile := true, hasBraille := true) else t
  }

  /** A sign type that already satisfies the ADA rule is left alone. */
  lemma OnIsAdaKeepsComplete(t: SignType)
    requires AdaComplete(t)
    ensures OnIsAda(t) == t
  {
  }

  /** `_onchange_category_id`: an ADA-default category makes the sign an
      ADA sign with tactile and braille. */
  function OnCategory(t: SignType, c: Option<Category>): (r: SignType)
    ensures c.Some? && c.value.isAdaDefault ==> r.isAda && r.hasTactile && r.hasBraille
    ensures c.Some? && c.value.isAdaDefault ==>
      r == t.(isAda := true, hasTactile := true, hasBraille := true)
    ensures !(c.Some? && c.value.isAdaDefault) ==> r == t
    ensures AdaComplete(t) ==> AdaComplete(r)
  {
    if c.Some? && c.value.isAdaDefault then t.(isAda := true, hasTactile := true, hasBraille := true)
    else t
  }

  /** `_onchange_subtype_id`: each default the subtype carries is turned
      on, and an illuminated subtype selects internal illumination; a
      default the subtype lacks is never turned off. */
  function OnSubtype(t: SignType, s: Option<Subtype>): (r: SignType)
    ensures s.None? ==> r == t
    ensures r.(isAda := t.isAda, hasWindow := t.hasWindow,
               isIlluminated := t.isIlluminated, illumination := t.illumination) == t
    ensures r.isAda == (t.isAda || (s.Some? && s.value.isAda))
    ensures r.hasWindow == (t.hasWindow || (s.Some? && s.value.hasWindowDefault))
    ensures r.isIlluminated == (t.isIlluminated || (s.Some? && s.value.isIlluminatedDefault))
    ensures s.Some? && s.value.isIlluminatedDefault ==> r.illumination == Internal
    ensures !(s.Some? && s.value.isIlluminatedDefault) ==> r.illumination == t.illumination
  {
    match s
    case None => t
    case Some(st) =>
      var a := if st.isAda then t.(isAda := true) else t;
      var b := if st.hasWindowDefault then a.(hasWindow := true) else a;
      if st.isIlluminatedDefault then b.(isIlluminated := true, illumination := Internal) else b
  }

  /** An ADA subtype followed by the ADA onchange the form then fires
      leaves a complete ADA sign. */
  lemma AdaSubtypeCompletes(t: SignType, s: Subtype)
    requires s.isAda
    ensures var r := OnIsAda(OnSubtype(t, Some(s)));
      r.isAda && r.hasTactile && r.hasBraille
  {
  }

  /** `_onchange_dimension_id`: a standard size fills the length from its
      width and the width from its height, and the depth only when the
      standard size has one. */
  function OnDimension(t: SignType, d: Option<SignDimensions.Dimension>): (r: SignType)
    ensures d.None? ==> r == t
    ensures d.Some? ==> r.length == d.value.width && r.width == d.value.height
    ensures d.Some? && d.value.depth != 0.0 ==> r.depth == d.value.depth
    ensures d.Some? && d.value.depth == 0.0 ==> r.depth == t.depth
    ensures r.(length := t.length, width := t.width, depth := t.depth) == t
  {
    match d
    case None => t
    case Some(dim) =>
      var s := t.(length := dim.width, width := dim.height);
      if dim.depth != 0.0 then s.(depth := dim.depth) else s
  }

  /** `_onchange_template_id`: a template copies its category, sides,
      default price and ADA flag, names an unnamed sign type, and has its
      use counter bumped.  Without a template nothing changes. */
  function OnTemplate(t: SignType, tpl: Option<Template>): (r: (SignType, Option<Template>))
    ensures tpl.None? ==> r == (t, tpl)
    ensures tpl.Some? ==>
      var (s, u) := r;
      && s.category == tpl.value.category
      && s.width == tpl.value.width && s.length == tpl.value.length
      && s.unitPrice == tpl.value.defaultUnitPrice && s.isAda == tpl.value.isAda
      && (t.name != [] ==> s.name == t.name)
      && (t.name == [] ==> s.name == tpl.value.name)
      && s.(name := t.name, category := t.category, width := t.width,
            length := t.length, unitPrice := t.unitPrice, isAda := t.isAda) == t
      && u == Some(tpl.value.(useCount := tpl.value.useCount + 1))
  {
    match tpl
    case None => (t, tpl)
    case Some(p) =>
      var s := t.(category := p.category, width := p.width, length := p.length,
                  unitPrice := p.defaultUnitPrice, isAda := p.isAda);
      var named := if t.name == [] then s.(name := p.name) else s;
      (named, Some(p.(useCount := p.useCount + 1)))
  }

  /** Choosing the same template twice gives the same sign type as
      choosing it once; only the template's counter moves again. */
  lemma OnTemplateTwice(t: SignType, tpl: Template)
    ensures var (s1, u1) := OnTemplate(t, Some(tpl));
      var (s2, u2) := OnTemplate(s1, u1);
      s2 == s1.(name := s2.name) && u2 == Some(tpl.(useCount := tpl.useCount + 2))
  {
  }

  // ---------------------------------------------------------------------
  // Actions and constraint
  // ---------------------------------------------------------------------

  /** `action_confirm`. */
  function Confirm(t: SignType): (r: SignType)
    ensures r.state == Confirmed && r.confirmed
    ensures r.(state := t.state, confirmed := t.confirmed) == t
  {
    t.(state := Confirmed, confirmed := true)
  }

  /** The `unique_sign_type_per_project` constraint: no two sign types
      of one opportunity share a name. */
  predicate UniqueNames(ts: seq<SignType>) {
    forall i, j :: 0 <= i < j < |ts| ==>
      !(ts[i].opportunity == ts[j].opportunity && ts[i].name == ts[j].name)
  }

  predicate NameTaken(ts: seq<SignType>, opportunity: int, name: string) {
    exists i :: 0 <= i < |ts| && ts[i].opportunity == opportunity && ts[i].name == name
  }

  /** Inserting a sign type: rejected by the database when its
      (opportunity, name) pair is taken, appended otherwise. */
  function Insert(ts: seq<SignType>, t: SignType): (r: Result<seq<SignType>>)
    ensures r.Err? <==> NameTaken(ts, t.opportunity, t.name)
    ensures r.Ok? ==> r.value == ts + [t]
  {
    if NameTaken(ts, t.opportunity, t.name) then Err(UniqueSignType)
    else Ok(ts + [t])
  }

  /** Every accepted insert keeps the constraint. */
  lemma InsertKeepsUnique(ts: seq<SignType>, t: SignType)
    requires UniqueNames(ts)
    ensures Insert(ts, t).Ok? ==> UniqueNames(Insert(ts, t).value)
  {
    if Insert(ts, t).Ok? {
      var r := ts + [t];
      forall i, j | 0 <= i < j < |r|
        ensures !(r[i].opportunity == r[j].opportunity && r[i].name == r[j].name)
      {
        if j == |ts| {
          assert r[i] == ts[i];
        }
      }
    }
  }

  /** The same name may be used once in each opportunity. */
  lemma SameNameOtherOpportunity(t: SignType, u: SignType)
    requires t.name == u.name && t.opportunity != u.opportunity
    ensures Insert([t], u) == Ok([t, u])
  {
    assert !NameTaken([t], u.opportunity, u.name);
    assert [t] + [u] == [t, u];
  }
}
