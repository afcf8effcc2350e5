/** The replication script that copies one Odoo database into another:
    the map from source ids to target ids, which fields are copied, the
    delete rule given to a required many-to-one, how a target record that
    already exists is found, how a source record becomes the values of a
    new target record, and the per-model copy loop.  Both connections are
    oracles here: what the target's searches and creations answer is an
    input. */
module Replicate {
  import opened Wrappers
  import opened Sums
  import opened RpcValues

  // ---------------------------------------------------------------------
  // The id map
  // ---------------------------------------------------------------------

  /** `IDMapper`: for each model, source id to target id. */
  type Mapper = map<string, map<int, int>>

  /** `add`: the pair is recorded, replacing any earlier target id. */
  function Add(m: Mapper, model: string, oldId: int, newId: int): (r: Mapper)
    ensures r.Keys == m.Keys + {model}
  {
    m[model := (if model in m then m[model] else map[])[oldId := newId]]
  }

  /** `get`: the target id, when recorded. */
  function Get(m: Mapper, model: string, oldId: int): Option<int> {
    if model in m && oldId in m[model] then Some(m[model][oldId]) else None
  }

  /** `has`. */
  predicate Has(m: Mapper, model: string, oldId: int) {
    model in m && oldId in m[model]
  }

  /** A recorded pair reads back, and nothing else changes; an unknown
      model or id reads as absent. */
  lemma AddGet(m: Mapper, model: string, oldId: int, newId: int, model2: string, id2: int)
    ensures Get(Add(m, model, oldId, newId), model, oldId) == Some(newId)
    ensures Has(Add(m, model, oldId, newId), model, oldId)
    ensures (model2, id2) != (model, oldId) ==>
      Get(Add(m, model, oldId, newId), model2, id2) == Get(m, model2, id2)
      && (Has(Add(m, model, oldId, newId), model2, id2) <==> Has(m, model2, id2))
    ensures Get(m, model2, id2).None? <==> !Has(m, model2, id2)
    ensures model2 !in m ==> Get(m, model2, id2).None?
  {
  }

  /** `stats`: how many ids each model has mapped. */
  function Stats(m: Mapper): (r: map<string, nat>)
    ensures r.Keys == m.Keys
    ensures forall k :: k in m ==> r[k] == |m[k]|
  {
    map k | k in m :: |m[k]|
  }

  /** Recording a new id of a model counts one more for that model and
      nothing for the others; recording an id again counts nothing. */
  lemma {:induction false} StatsAfterAdd(m: Mapper, model: string, oldId: int, newId: int, other: string)
    ensures Stats(Add(m, model, oldId, newId))[model] ==
      (if Has(m, model, oldId) then Stats(m)[model] else if model in m then Stats(m)[model] + 1 else 1)
    ensures other in m && other != model ==> Stats(Add(m, model, oldId, newId))[other] == Stats(m)[other]
  {
    var ids := if model in m then m[model] else map[];
    if oldId !in ids {
      assert ids[oldId := newId].Keys == ids.Keys + {oldId};
    } else {
      assert ids[oldId := newId].Keys == ids.Keys;
    }
  }

  // ---------------------------------------------------------------------
  // Writable fields
  // ---------------------------------------------------------------------

  /** A field definition as `fields_get` describes it; `ttype` is "" when
      not given. */
  datatype FieldDef = FieldDef(ttype: string, readonly: bool, required: bool, relation: string)

  /** `SKIP_FIELDS`: fields the database fills in itself. */
  const SkipFields: set<string> := {
    "id", "create_uid", "create_date", "write_uid", "write_date",
    "display_name", "__last_update",
    "message_is_follower", "message_follower_ids", "message_partner_ids",
    "message_ids", "has_message", "message_needaction", "message_needaction_counter",
    "message_has_error", "message_has_error_counter", "message_attachment_count",
    "rating_ids", "website_message_ids", "message_has_sms_error",
    "activity_ids", "activity_state", "activity_user_id", "activity_type_id",
    "activity_type_icon", "activity_date_deadline", "my_activity_date_deadline",
    "activity_summary", "activity_exception_decoration", "activity_exception_icon",
    "activity_calendar_event_id"}

  /** `SKIP_FIELD_TYPES`. */
  const SkipTypes: set<string> := {"one2many", "related", "binary"}

  /** A field is copied when it is neither skipped nor excluded, is not of
      a skipped type, and is writable, or is the record's name. */
  predicate Writable(name: string, d: FieldDef, exclude: set<string>) {
    && name !in SkipFields && name !in exclude
    && d.ttype !in SkipTypes
    && (!d.readonly || name == "x_name" || name == "name")
  }

  /** The copied fields, in the order the definitions come. */
  function WritableFields(defs: seq<(string, FieldDef)>, exclude: set<string>): (r: seq<string>)
    ensures |r| <= |defs|
    ensures forall n :: n in r <==> exists k :: 0 <= k < |defs| && defs[k].0 == n && Writable(n, defs[k].1, exclude)
    decreases |defs|
  {
    if |defs| == 0 then []
    else
      var rest := WritableFields(defs[1..], exclude);
      assert forall k :: 1 <= k < |defs| ==> defs[k] == defs[1..][k - 1];
      if Writable(defs[0].0, defs[0].1, exclude) then [defs[0].0] + rest else rest
  }

  /** The record's name is copied even when read-only, other read-only
      fields are not, and no bookkeeping field ever is. */
  lemma NameAlwaysCopied(d: FieldDef, exclude: set<string>, n: string)
    requires d.ttype !in SkipTypes && "name" !in exclude
    ensures Writable("name", d, exclude)
    ensures n != "name" && n != "x_name" && d.readonly ==> !Writable(n, d, exclude)
    ensures !Writable("create_date", d, exclude) && !Writable("id", d, exclude)
  {
  }

  // ---------------------------------------------------------------------
  // Delete rule of a created field
  // ---------------------------------------------------------------------

  /** `_create_field`'s delete rule: a required many-to-one keeps its
      source rule (cascade when none), except that "set null", which a
      required field cannot honour, becomes cascade; any other field is
      created without one. */
  function OnDelete(ttype: string, required: bool, sourceRule: Option<string>): (r: Option<string>)
    ensures !(ttype == "many2one" && required) ==> r.None?
    ensures ttype == "many2one" && required ==> r.Some? && r.value != "set null"
    ensures ttype == "many2one" && required && sourceRule.Some? && sourceRule.value != "set null" ==> r == sourceRule
  {
    if ttype == "many2one" && required then
      var rule := sourceRule.GetOr("cascade");
      Some(if rule == "set null" then "cascade" else rule)
    else None
  }

  // ---------------------------------------------------------------------
  // Finding an existing target record
  // ---------------------------------------------------------------------

  /** A source record: field name to value. */
  type Record = map<string, Value>

  /** The search domain on the key fields: one equality per key field the
      record has a truthy value for, in key order. */
  function KeyDomain(rec: Record, keys: seq<string>): (d: seq<(string, Value)>)
    ensures |d| <= |keys|
    ensures forall k :: 0 <= k < |d| ==> d[k].0 in keys && d[k].0 in rec && d[k].1 == rec[d[k].0] && Truthy(d[k].1)
    ensures d == [] <==> forall k :: 0 <= k < |keys| ==> keys[k] !in rec || !Truthy(rec[keys[k]])
    decreases |keys|
  {
    if |keys| == 0 then []
    else
      var rest := KeyDomain(rec, keys[1..]);
      assert forall k :: 1 <= k < |keys| ==> keys[k] == keys[1..][k - 1];
      if keys[0] in rec && Truthy(rec[keys[0]]) then [(keys[0], rec[keys[0]])] + rest else rest
  }

  /** `_find_existing`, given the target's search (which answers `None`
      when it fails, and the ids found otherwise): nothing without key
      fields or without a key value to search on; else the first id the
      search finds. */
  function FindExisting(rec: Record, keys: seq<string>, search: seq<(string, Value)> -> Option<seq<int>>): (r: Option<int>)
    ensures KeyDomain(rec, keys) == [] ==> r.None?
    ensures KeyDomain(rec, keys) != [] ==>
      r == (match search(KeyDomain(rec, keys))
            case Some(ids) => if ids != [] then Some(ids[0]) else None
            case None => None)
  {
    if keys == [] then None
    else
      var d := KeyDomain(rec, keys);
      if d == [] then None
      else match search(d)
        case Some(ids) => if ids != [] then Some(ids[0]) else None
        case None => None
  }

  /** Without a key value the target is never asked: any two searches give
      the same answer. */
  lemma NoKeyNoSearch(rec: Record, keys: seq<string>, s1: seq<(string, Value)> -> Option<seq<int>>,
                      s2: seq<(string, Value)> -> Option<seq<int>>)
    requires forall k :: 0 <= k < |keys| ==> keys[k] !in rec || !Truthy(rec[keys[k]])
    ensures FindExisting(rec, keys, s1) == FindExisting(rec, keys, s2) == None
  {
  }

  // ---------------------------------------------------------------------
  // Values of a new record
  // ---------------------------------------------------------------------

  /** A value written to the target: a copy of the source value, the id
      of a related record, or the replacement of a many-to-many list. */
  datatype Out = Copy(v: Value) | Link(id: int) | SetMany(ids: seq<int>)

  /** The target's answer to "does record `id` of `model` exist?"; a
      failed search answers no. */
  type Probe = (string, int) -> bool

  /** What one many-to-many id becomes: the id the map gives it, when
      that is a non-zero id; else the id itself, when the target has a
      record with it; else nothing (as for a value that is not an id). */
  function MapOne(x: Scalar, relation: string, m: Mapper, onTarget: Probe): (r: seq<int>)
    ensures |r| <= 1
    ensures x.SInt? && Get(m, relation, x.i).Some? && Get(m, relation, x.i).value != 0 ==>
      r == [Get(m, relation, x.i).value]
    ensures x.SInt? && !(Get(m, relation, x.i).Some? && Get(m, relation, x.i).value != 0) ==>
      (r == [x.i] <==> onTarget(relation, x.i)) && (r == [] <==> !onTarget(relation, x.i))
    ensures !x.SInt? ==> r == []
  {
    if !x.SInt? then []
    else
      var nid := Get(m, relation, x.i);
      if nid.Some? && nid.value != 0 then [nid.value]
      else if onTarget(relation, x.i) then [x.i]
      else []
  }

  /** The many-to-many ids that can be written, in the order of the
      source list: each id as `MapOne` turns it, so one id gives its
      `MapOne` and a list is the concatenation of its ids' results
      (`MapManyAppend`); every id with a non-zero mapping contributes that
      mapping. */
  function MapMany(ids: seq<Scalar>, relation: string, m: Mapper, onTarget: Probe): (r: seq<int>)
    ensures |r| <= |ids|
    ensures |ids| == 1 ==> r == MapOne(ids[0], relation, m, onTarget)
    ensures forall i :: (0 <= i < |ids| && ids[i].SInt? && Get(m, relation, ids[i].i).Some? &&
                         Get(m, relation, ids[i].i).value != 0) ==> Get(m, relation, ids[i].i).value in r
    decreases |ids|
  {
    if |ids| == 0 then []
    else
      var rest := MapMany(ids[1..], relation, m, onTarget);
      assert forall i :: 0 < i < |ids| ==> ids[i] == ids[1..][i - 1];
      if !ids[0].SInt? then rest
      else
        var oid := ids[0].i;
        var nid := Get(m, relation, oid);
        if nid.Some? && nid.value != 0 then [nid.value] + rest
        else if onTarget(relation, oid) then [oid] + rest
        else rest
  }

  /** Mapping a list is mapping its two parts in turn: together with the
      one-id case of `MapMany`, each id is mapped on its own and the
      results keep the order of the list. */
  lemma {:induction false} MapManyAppend(a: seq<Scalar>, b: seq<Scalar>, relation: string, m: Mapper, onTarget: Probe)
    ensures MapMany(a + b, relation, m, onTarget)
         == MapMany(a, relation, m, onTarget) + MapMany(b, relation, m, onTarget)
    decreases |a|
  {
    if |a| > 0 {
      assert (a + b)[1..] == a[1..] + b;
      MapManyAppend(a[1..], b, relation, m, onTarget);
    } else {
      assert a + b == b;
    }
  }

  /** What `_prepare_values` writes for one field, if anything. */
  function FieldOut(name: string, v: Value, defs: map<string, FieldDef>, relMap: map<string, string>,
                    m: Mapper, onTarget: Probe): (r: Option<Out>)
    ensures name == "id" || name in SkipFields || Unset(v) ==> r.None?
  {
    if name == "id" || name in SkipFields || Unset(v) then None
    else
      var d := if name in defs then defs[name] else FieldDef("", false, false, "");
      if d.ttype == "many2one" && v.VList? then
        if |v.items| == 0 || !v.items[0].SInt? then None
        else
          var oldId := v.items[0].i;
          if name in relMap then
            var nid := Get(m, relMap[name], oldId);
            if nid.Some? && nid.value != 0 then Some(Link(nid.value)) else None
          else if d.relation != "" && onTarget(d.relation, oldId) then Some(Link(oldId))
          else None
      else if d.ttype == "many2many" && v.VList? then
        if d.relation != "" && v.items != [] then
          var mapped := MapMany(v.items, d.relation, m, onTarget);
          if mapped != [] then Some(SetMany(mapped)) else None
        else None
      else Some(Copy(v))
  }

  /** `_prepare_values`: the values of the target record. */
  function PrepareValues(rec: Record, defs: map<string, FieldDef>, relMap: map<string, string>,
                         m: Mapper, onTarget: Probe): (vals: map<string, Out>)
    ensures forall f :: f in vals ==> f in rec && f != "id" && f !in SkipFields && !Unset(rec[f])
    ensures forall f :: f in vals ==> Some(vals[f]) == FieldOut(f, rec[f], defs, relMap, m, onTarget)
    ensures forall f :: f in rec && FieldOut(f, rec[f], defs, relMap, m, onTarget).Some? ==> f in vals
  {
    map f | f in rec && FieldOut(f, rec[f], defs, relMap, m, onTarget).Some? ::
      FieldOut(f, rec[f], defs, relMap, m, onTarget).value
  }

  /** The field's type, "" when it has no definition. */
  function TypeOf(defs: map<string, FieldDef>, f: string): string {
    if f in defs then defs[f].ttype else ""
  }

  /** A set field that is neither a many-to-one nor a many-to-many (and
      not bookkeeping) is copied as it is; a many-to-one named in the
      relational mappings is written exactly when the map knows a non-zero
      target id for it. */
  lemma {:induction false} PrepareCopiesAndMaps(rec: Record, defs: map<string, FieldDef>, relMap: map<string, string>,
                                                m: Mapper, onTarget: Probe, f: string)
    requires f in rec && f != "id" && f !in SkipFields && !Unset(rec[f])
    ensures var vals := PrepareValues(rec, defs, relMap, m, onTarget);
      TypeOf(defs, f) != "many2one" && TypeOf(defs, f) != "many2many" ==> f in vals && vals[f] == Copy(rec[f])
    ensures var vals := PrepareValues(rec, defs, relMap, m, onTarget);
      TypeOf(defs, f) == "many2one" && f in relMap && rec[f].VList? && |rec[f].items| > 0 && rec[f].items[0].SInt? ==>
        var nid := Get(m, relMap[f], rec[f].items[0].i);
        (f in vals <==> nid.Some? && nid.value != 0) && (f in vals ==> vals[f] == Link(nid.value))
  {
  }

  /** A many-to-many field is written only when some id could be mapped
      or found, and then with every such id, in order. */
  lemma {:induction false} ManyToManyWritten(rec: Record, defs: map<string, FieldDef>, relMap: map<string, string>,
                                             m: Mapper, onTarget: Probe, f: string)
    requires f in rec && f != "id" && f !in SkipFields && rec[f].VList?
    requires f in defs && defs[f].ttype == "many2many" && defs[f].relation != ""
    ensures var vals := PrepareValues(rec, defs, relMap, m, onTarget);
      var mapped := MapMany(rec[f].items, defs[f].relation, m, onTarget);
      (f in vals <==> mapped != []) && (f in vals ==> vals[f] == SetMany(mapped))
  {
    var mapped := MapMany(rec[f].items, defs[f].relation, m, onTarget);
    if rec[f].items == [] {
      assert mapped == [];
    }
  }

  // ---------------------------------------------------------------------
  // The copy loop
  // ---------------------------------------------------------------------

  /** The tally of one model's copy. */
  datatype Tally = Tally(created: nat, skipped: nat, errors: nat, previewed: nat)

  /** The target already has the record: `_find_existing` answers a
      (truthy) id. */
  predicate Found(find: int -> Option<int>, id: int) {
    find(id).Some? && find(id).value != 0
  }

  /** One pass of the copy loop for the record `src`. */
  function CopyOne(model: string, src: int, m: Mapper, t: Tally, find: int -> Option<int>,
                   create: int -> Option<int>, dryRun: bool): (r: (Mapper, Tally))
    ensures r.1.created + r.1.skipped + r.1.errors + r.1.previewed
         == t.created + t.skipped + t.errors + t.previewed + 1
    ensures dryRun ==> r.1.created == t.created && r.1.errors == t.errors
    ensures forall mod, id :: Has(m, mod, id) ==> Get(r.0, mod, id) == Get(m, mod, id)
    ensures Found(find, src) || (!dryRun && create(src).Some?) ==> Has(r.0, model, src)
    ensures forall mod, id :: Has(r.0, mod, id) ==> Has(m, mod, id) || (mod == model && id == src)
  {
    if Has(m, model, src) then (m, t.(skipped := t.skipped + 1))
    else if Found(find, src) then (Add(m, model, src, find(src).value), t.(skipped := t.skipped + 1))
    else if dryRun then (m, t.(previewed := t.previewed + 1))
    else match create(src)
      case Some(n) => (Add(m, model, src, n), t.(created := t.created + 1))
      case None => (m, t.(errors := t.errors + 1))
  }

  /** The copy loop of `_replicate_model` over the records read, in order:
      a record already mapped is skipped; one the target already has is
      mapped to it and skipped; otherwise its values are prepared and, in a
      dry run, only shown, else created (`create` answers the new id, or
      `None` when creation fails) and mapped. */
  method CopyRecords(model: string, ids: seq<int>, m0: Mapper, find: int -> Option<int>,
                     create: int -> Option<int>, dryRun: bool)
    returns (m: Mapper, t: Tally)
    ensures t.created + t.skipped + t.errors + t.previewed == |ids|
    ensures dryRun ==> t.created == 0 && t.errors == 0
    ensures forall k :: 0 <= k < |ids| && Has(m0, model, ids[k]) ==> Get(m, model, ids[k]) == Get(m0, model, ids[k])
    ensures forall k :: 0 <= k < |ids| && (Found(find, ids[k]) || (!dryRun && create(ids[k]).Some?)) ==> Has(m, model, ids[k])
    ensures forall mod, id :: Has(m, mod, id) ==> Has(m0, mod, id) || (mod == model && id in ids)
  {
    m := m0;
    t := Tally(0, 0, 0, 0);
    var i := 0;
    while i < |ids|
      invariant 0 <= i <= |ids|
      invariant t.created + t.skipped + t.errors + t.previewed == i
      invariant dryRun ==> t.created == 0 && t.errors == 0
      invariant forall mod, id :: Has(m0, mod, id) ==> Get(m, mod, id) == Get(m0, mod, id)
      invariant forall k :: 0 <= k < i && (Found(find, ids[k]) || (!dryRun && create(ids[k]).Some?)) ==> Has(m, model, ids[k])
      invariant forall mod, id :: Has(m, mod, id) ==> Has(m0, mod, id) || (mod == model && id in ids[..i])
    {
      var step := CopyOne(model, ids[i], m, t, find, create, dryRun);
      assert ids[..i + 1] == ids[..i] + [ids[i]];
      m, t := step.0, step.1;
      i := i + 1;
    }
    assert ids[..i] == ids;
  }
}
