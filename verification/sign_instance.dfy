/** Sign instances: the individual signs of a sign type, their names, the
    copy printed on them, and the states they pass through from approval
    to installation. */
module SignInstances {
  import opened Sums
  import Text
  import Numerals

  datatype State = InstDraft | InstApproved | InstProduction | InstQc | InstShipped | InstInstalled

  /** An instance.  `signType` is 0 when unset; text fields are "" when
      unset; dates are day numbers, 0 when unset. */
  datatype Instance = Instance(
    id: int, signType: int, typeName: string, sequence: int, roomPlans: string,
    copy: seq<string>, state: State,
    approved: bool, approvedDate: int, installed: bool, installedDate: int)

  /** `_compute_name`: "Type - room" when the plans give a room number,
      else "Type #n" with n the sequence (or the id, or 0); "Instance #id"
      without a sign type. */
  function Name(i: Instance): (r: string)
    ensures i.signType != 0 && i.roomPlans != "" ==> r == i.typeName + " - " + i.roomPlans
    ensures i.signType != 0 && i.roomPlans == "" ==>
      r == i.typeName + " #" + Numerals.IntText(if i.sequence != 0 then i.sequence else i.id)
    ensures i.signType == 0 ==> r == "Instance #" + Numerals.IntText(i.id)
  {
    if i.signType != 0 then
      if i.roomPlans != "" then i.typeName + " - " + i.roomPlans
      else i.typeName + " #" + Numerals.IntText(if i.sequence != 0 then i.sequence else i.id)
    else "Instance #" + Numerals.IntText(i.id)
  }

  /** Two numbered instances of the same type have different names when
      their numbers differ. */
  lemma {:induction false} NumberedNamesDistinct(a: Instance, b: Instance)
    requires a.signType != 0 && b.signType != 0 && a.typeName == b.typeName
    requires a.roomPlans == "" && b.roomPlans == ""
    requires a.sequence != 0 && b.sequence != 0 && a.sequence != b.sequence
    ensures Name(a) != Name(b)
  {
    var p := a.typeName + " #";
    if Name(a) == Name(b) {
      assert Name(a)[|p|..] == Numerals.IntText(a.sequence);
      assert Name(b)[|p|..] == Numerals.IntText(b.sequence);
      Numerals.IntTextInjective(a.sequence, b.sequence);
    }
  }

  predicate NonEmpty(s: string) { s != "" }

  /** `_compute_copy_full`: the copy lines that are set, one per line, in
      order. */
  function CopyFull(lines: seq<string>): string {
    Text.Join(Filter(lines, NonEmpty), "\n")
  }

  /** The full copy splits back into exactly the lines that were set, in
      order, and none of them is empty. */
  lemma {:induction false} CopyFullLines(lines: seq<string>)
    requires forall k, j :: 0 <= k < |lines| && 0 <= j < |lines[k]| ==> lines[k][j] != '\n'
    requires |Filter(lines, NonEmpty)| >= 1
    ensures Text.Split(CopyFull(lines), '\n') == Filter(lines, NonEmpty)
    ensures forall k :: 0 <= k < |Filter(lines, NonEmpty)| ==> Filter(lines, NonEmpty)[k] != ""
  {
    var kept := Filter(lines, NonEmpty);
    forall k, j | 0 <= k < |kept| && 0 <= j < |kept[k]| ensures kept[k][j] != '\n' {
      assert kept[k] in lines;
    }
    Text.SplitJoin(kept, '\n');
  }

  /** With no line set the full copy is empty. */
  lemma NoCopy(lines: seq<string>)
    requires forall k :: 0 <= k < |lines| ==> lines[k] == ""
    ensures CopyFull(lines) == ""
  {
  }

  /** `action_approve`. */
  function Approve(i: Instance, today: int): (r: Instance)
    ensures r.state == InstApproved && r.approved && r.approvedDate == today
    ensures r == i.(state := r.state, approved := r.approved, approvedDate := r.approvedDate)
  {
    i.(state := InstApproved, approved := true, approvedDate := today)
  }

  /** `action_mark_installed`. */
  function MarkInstalled(i: Instance, today: int): (r: Instance)
    ensures r.state == InstInstalled && r.installed && r.installedDate == today
    ensures r == i.(state := r.state, installed := r.installed, installedDate := r.installedDate)
  {
    i.(state := InstInstalled, installed := true, installedDate := today)
  }

  /** Approving or installing twice is the same as once. */
  lemma ActionsIdempotent(i: Instance, today: int)
    ensures Approve(Approve(i, today), today) == Approve(i, today)
    ensures MarkInstalled(MarkInstalled(i, today), today) == MarkInstalled(i, today)
  {
  }

  // ---------------------------------------------------------------------
  // Writing a set of instances
  // ---------------------------------------------------------------------

  /** The instances, by id. */
  type Store = map<int, Instance>

  /** `instance_ids.write(...)` for an update `f`: every listed instance
      is updated, the others are left alone. */
  function WriteAll(store: Store, ids: set<int>, f: Instance -> Instance): (r: Store)
    ensures r.Keys == store.Keys
    ensures forall k :: k in store && k in ids ==> r[k] == f(store[k])
    ensures forall k :: k in store && k !in ids ==> r[k] == store[k]
  {
    map k | k in store :: if k in ids then f(store[k]) else store[k]
  }

  /** The listed instances that are installed. */
  function Installed(store: Store, ids: set<int>): set<int> {
    set k | k in ids && k in store && store[k].installed
  }

  /** `_compute_installed_count`, bounded by `_compute_instance_count`. */
  function InstalledCount(store: Store, ids: set<int>): (n: nat)
    ensures n <= |ids|
  {
    SubsetCard(Installed(store, ids), ids);
    |Installed(store, ids)|
  }

  lemma {:induction false} SubsetCard(a: set<int>, b: set<int>)
    requires a <= b
    ensures |a| <= |b|
  {
    assert b == a + (b - a);
    assert a * (b - a) == {};
  }

  /** Marking all listed instances installed makes every one of them that
      exists count as installed. */
  lemma {:induction false} MarkAllInstalled(store: Store, ids: set<int>, today: int)
    requires ids <= store.Keys
    ensures InstalledCount(WriteAll(store, ids, (i: Instance) => MarkInstalled(i, today)), ids) == |ids|
  {
    var s1 := WriteAll(store, ids, (i: Instance) => MarkInstalled(i, today));
    assert Installed(s1, ids) == ids;
  }
}
