/** Sign locations (site, building, floor, area, room) and the names they
    are shown by. */
module Locations {
  import Text

  datatype Kind = Site | Building | Floor | Area | Room

  /** A location; `parent` is 0 at the top of the tree, `roomNumber` is
      "" when unset, and an archived location is not `active`. */
  datatype Location = Location(id: int, name: string, parent: int, kind: Kind, roomNumber: string,
                               active: bool)

  /** The locations, by id. */
  type Store = map<int, Location>

  /** The location has a parent on record. */
  predicate HasParent(s: Store, l: Location) {
    l.parent != 0 && l.parent in s
  }

  /** `_compute_display_name_full`: "Parent / Name", or the name alone. */
  function DisplayNameFull(s: Store, l: Location): (r: string)
    ensures HasParent(s, l) ==> r == s[l.parent].name + " / " + l.name
    ensures !HasParent(s, l) ==> r == l.name
  {
    if HasParent(s, l) then s[l.parent].name + " / " + l.name else l.name
  }

  /** The label of the location itself: a numbered room shows "number -
      name", or only the number when the name is the number; anything else
      shows its name. */
  function OwnLabel(l: Location): (r: string)
    ensures l.kind == Room && l.roomNumber != "" ==> Text.StartsWith(r, l.roomNumber)
    ensures l.kind == Room && l.roomNumber != "" && l.name != l.roomNumber ==>
      r == l.roomNumber + " - " + l.name
    ensures l.kind == Room && l.roomNumber != "" && l.name == l.roomNumber ==> r == l.roomNumber
    ensures l.kind != Room || l.roomNumber == "" ==> r == l.name
  {
    if l.kind == Room && l.roomNumber != "" then
      if l.name != l.roomNumber then
        var r := l.roomNumber + " - " + l.name;
        assert r[..|l.roomNumber|] == l.roomNumber;
        r
      else l.roomNumber
    else l.name
  }

  /** `name_get`: the location's own label, after its parent's name when
      it has a parent. */
  function NameGet(s: Store, l: Location): (r: (int, string))
    ensures r.0 == l.id
    ensures HasParent(s, l) ==> r.1 == s[l.parent].name + " / " + OwnLabel(l)
    ensures !HasParent(s, l) ==> r.1 == OwnLabel(l)
  {
    var own := OwnLabel(l);
    (l.id, if HasParent(s, l) then s[l.parent].name + " / " + own else own)
  }

  /** Outside numbered rooms the dropdown label is the full display name. */
  lemma NameGetMatchesDisplay(s: Store, l: Location)
    requires l.kind != Room || l.roomNumber == ""
    ensures NameGet(s, l).1 == DisplayNameFull(s, l)
  {
  }

  /** Only the immediate parent's name shows: two stores that agree on the
      location's parent give it the same labels, whatever the grandparents
      are called. */
  lemma OnlyParentShows(s1: Store, s2: Store, l: Location)
    requires HasParent(s1, l) <==> HasParent(s2, l)
    requires HasParent(s1, l) ==> s1[l.parent].name == s2[l.parent].name
    ensures NameGet(s1, l) == NameGet(s2, l)
    ensures DisplayNameFull(s1, l) == DisplayNameFull(s2, l)
  {
  }

  /** The active locations whose parent this one is: `child_ids`, which
      leaves archived records out. */
  function Children(s: Store, l: Location): set<int> {
    set id | id in s && s[id].parent == l.id && s[id].active
  }

  /** `_compute_child_count`: archived children are not counted, and the
      count is zero exactly when every child is archived. */
  function ChildCount(s: Store, l: Location): (n: nat)
    ensures n <= |s.Keys|
    ensures n == 0 <==> forall id :: id in s && s[id].parent == l.id ==> !s[id].active
  {
    var c := Children(s, l);
    assert c <= s.Keys;
    SubsetCard(c, s.Keys);
    assert (forall id :: id in s && s[id].parent == l.id ==> !s[id].active) ==> c == {};
    assert |c| == 0 ==> forall id :: id in s && s[id].parent == l.id ==> !s[id].active by {
      if |c| == 0 {
        forall id | id in s && s[id].parent == l.id ensures !s[id].active {
          assert id !in c;
        }
      }
    }
    |c|
  }

  lemma SubsetCard(a: set<int>, b: set<int>)
    requires a <= b
    ensures |a| <= |b|
  {
    assert b == a + (b - a);
  }

  /** Archiving an active child takes it off its parent's count, and
      restoring it puts it back. */
  lemma {:induction false} ArchiveChild(s: Store, l: Location, c: int)
    requires c in s && s[c].parent == l.id && s[c].active
    ensures ChildCount(s[c := s[c].(active := false)], l) == ChildCount(s, l) - 1
    ensures ChildCount(s[c := s[c].(active := false)][c := s[c]], l) == ChildCount(s, l)
  {
    var s1 := s[c := s[c].(active := false)];
    assert Children(s1, l) == Children(s, l) - {c};
    assert s1[c := s[c]] == s;
  }

  /** Renaming a location changes its children's full names and no
      other location's. */
  lemma RenameParent(s: Store, p: int, newName: string, l: Location)
    requires p in s && l.id != p
    ensures var s1 := s[p := s[p].(name := newName)];
      l.parent != p ==> DisplayNameFull(s1, l) == DisplayNameFull(s, l)
    ensures var s1 := s[p := s[p].(name := newName)];
      l.parent == p && p != 0 ==> DisplayNameFull(s1, l) == newName + " / " + l.name
  {
  }
}
