/** The CRM add-on's opportunity extensions (`crm.lead`): round-trip travel
    cost, the ConstructConnect flag, partners found or created from the
    legacy company-name fields, and the project a won opportunity turns
    into. */
module CrmLeads {
  import opened Wrappers
  import Text
  import Sums
  import Projects
  import OdooEnv
  import ItbIngest
  import Numerals

  // ---------------------------------------------------------------------
  // Travel and flags
  // ---------------------------------------------------------------------

  /** The mileage rate used when none is set. */
  const DefaultMileageRate: real := 0.67

  /** `_compute_travel_cost`: there and back at the mileage rate; an unset
      distance (0) costs nothing and an unset rate (0) falls back to the
      default. */
  function TravelCost(distance: real, rate: real): (c: real)
    ensures rate != 0.0 ==> c == 2.0 * distance * rate
    ensures rate == 0.0 ==> c == 2.0 * distance * DefaultMileageRate
  {
    distance * 2.0 * (if rate != 0.0 then rate else DefaultMileageRate)
  }

  /** An unset rate costs the same as the default rate, and the cost of a
      trip split in two legs is the sum of the legs. */
  lemma TravelCostFacts(d1: real, d2: real, rate: real)
    ensures TravelCost(d1, 0.0) == TravelCost(d1, DefaultMileageRate)
    ensures TravelCost(d1 + d2, rate) == TravelCost(d1, rate) + TravelCost(d2, rate)
    ensures TravelCost(0.0, rate) == 0.0
  {
  }

  /** `_compute_is_cc_opportunity`: a ConstructConnect project id is set
      (an empty text counts as unset). */
  function IsCcOpportunity(ccProjectId: Option<string>): (b: bool)
    ensures b <==> ccProjectId.Some? && ccProjectId.value != ""
  {
    match ccProjectId
    case None => false
    case Some(s) => s != ""
  }

  /** An opportunity ingested from an invitation email is a
      ConstructConnect one exactly when the email carried a project id
      (the pattern captures at least one digit). */
  lemma IngestedIsCc(c: ItbIngest.Captures)
    requires c.date.Some? ==> Numerals.AllDigits(c.date.value.1) && Numerals.AllDigits(c.date.value.2)
    requires c.projectId.Some? ==> |c.projectId.value| >= 1
    ensures IsCcOpportunity(ItbIngest.Assemble(c).projectId) <==> c.projectId.Some?
  {
  }

  // ---------------------------------------------------------------------
  // Partners from legacy names
  // ---------------------------------------------------------------------

  /** A partner with the role flags the action can set. */
  datatype Partner = Partner(
    id: int, name: string, isCompany: bool,
    isGc: bool, isOwner: bool, isArchitect: bool, isSupplier: bool)

  /** `('name', 'ilike', key), ('is_company', '=', True)`. */
  predicate Matches(p: Partner, key: string) {
    p.isCompany && Text.Contains(Text.Lower(p.name), Text.Lower(key))
  }

  /** The first company partner matching the key. */
  function FindCompany(ps: seq<Partner>, key: string): (k: Option<nat>)
    ensures k.Some? ==> k.value < |ps| && Matches(ps[k.value], key)
    ensures k.Some? ==> forall j :: 0 <= j < k.value ==> !Matches(ps[j], key)
    ensures k.None? <==> forall j :: 0 <= j < |ps| ==> !Matches(ps[j], key)
  {
    Sums.FindFirst(ps, (p: Partner) => Matches(p, key))
  }

  /** The company a new partner of the given type is created as: the
      stripped name, a company, flagged for exactly its type ("gc",
      "owner", "architect" or "supplier"; any other type sets no flag). */
  function NewPartner(id: int, name: string, kind: string): (p: Partner)
    ensures p.id == id && p.name == Text.Strip(name) && p.isCompany
    ensures p.isGc <==> kind == "gc"
    ensures p.isOwner <==> kind == "owner"
    ensures p.isArchitect <==> kind == "architect"
    ensures p.isSupplier <==> kind == "supplier"
  {
    Partner(id, Text.Strip(name), true, kind == "gc", kind == "owner", kind == "architect", kind == "supplier")
  }

  /** `_get_or_create_partner` as written: an empty name gives no partner;
      otherwise the first company whose name contains the stripped name,
      ignoring case, or else a new company partner. */
  function GetOrCreatePartnerAsWritten(ps: seq<Partner>, name: string, kind: string, newId: int): (r: (Option<int>, seq<Partner>))
    ensures name == "" ==> r == (None, ps)
    ensures name != "" && FindCompany(ps, Text.Strip(name)).Some? ==>
      r == (Some(ps[FindCompany(ps, Text.Strip(name)).value].id), ps)
    ensures name != "" && FindCompany(ps, Text.Strip(name)).None? ==>
      r == (Some(newId), ps + [NewPartner(newId, name, kind)])
  {
    if name == "" then (None, ps)
    else
      match FindCompany(ps, Text.Strip(name))
      case Some(k) => (Some(ps[k].id), ps)
      case None => (Some(newId), ps + [NewPartner(newId, name, kind)])
  }

  /** As written, a name of only blanks strips to "", which every company
      name contains: the lead is linked to whatever company comes first. */
  lemma BlankNameLinksAnyCompany(acme: Partner)
    requires acme.isCompany
    ensures GetOrCreatePartnerAsWritten([acme], "  ", "gc", 7) == (Some(acme.id), [acme])
  {
    assert Text.Strip("  ") == "" by {
      assert Text.IsBlank("  ");
    }
    assert Text.Lower("") == "";
    Text.ContainsEmpty(Text.Lower(acme.name));
  }

  /** `_get_or_create_partner` as intended: a blank name, like an empty
      one, gives no partner. */
  function GetOrCreatePartner(ps: seq<Partner>, name: string, kind: string, newId: int): (r: (Option<int>, seq<Partner>))
    ensures Text.Strip(name) == "" ==> r == (None, ps)
    ensures Text.Strip(name) != "" ==> r == GetOrCreatePartnerAsWritten(ps, name, kind, newId)
  {
    if Text.Strip(name) == "" then (None, ps) else GetOrCreatePartnerAsWritten(ps, name, kind, newId)
  }

  /** The partner found or created for a name carries the stripped name
      (ignoring case), is a company, and is never blank-matched; a new one
      is the only partner added. */
  lemma {:induction false} PartnerMatchesName(ps: seq<Partner>, name: string, kind: string, newId: int)
    requires Text.Strip(name) != ""
    ensures var (id, ps1) := GetOrCreatePartner(ps, name, kind, newId);
      && id.Some?
      && (exists k :: 0 <= k < |ps1| && ps1[k].id == id.value && Matches(ps1[k], Text.Strip(name)))
      && (|ps1| == |ps| || ps1 == ps + [NewPartner(newId, name, kind)])
  {
    var key := Text.Strip(name);
    match FindCompany(ps, key) {
      case Some(k) =>
      case None =>
        var ps1 := ps + [NewPartner(newId, name, kind)];
        Text.ContainsSelf(Text.Lower(key));
        assert Matches(ps1[|ps|], key);
    }
  }

  /** Looking the same name up again finds the partner the first lookup
      made: no second partner is created. */
  lemma {:induction false} GetOrCreateTwice(ps: seq<Partner>, name: string, kind: string, id1: int, id2: int)
    requires Text.Strip(name) != ""
    ensures var (p1, ps1) := GetOrCreatePartner(ps, name, kind, id1);
      var (p2, ps2) := GetOrCreatePartner(ps1, name, kind, id2);
      p2 == p1 && ps2 == ps1
  {
    var key := Text.Strip(name);
    match FindCompany(ps, key) {
      case Some(k) =>
      case None =>
        var ps1 := ps + [NewPartner(id1, name, kind)];
        Text.ContainsSelf(Text.Lower(key));
        assert Matches(ps1[|ps|], key);
        assert forall j :: 0 <= j < |ps| ==> ps1[j] == ps[j];
        assert FindCompany(ps1, key) == Some(|ps|);
    }
  }

  /** The partner fields of a new opportunity: a legacy company name and
      the partner link (0 when unset) for each role. */
  datatype LeadVals = LeadVals(
    gcName: string, gc: int, ownerName: string, owner: int,
    architectName: string, architect: int)

  /** One role of `create`: a partner is looked up only when the legacy
      name is present and the link is not. */
  function LinkRole(name: string, link: int, kind: string, ps: seq<Partner>, newId: int): (r: (int, seq<Partner>))
    ensures name == "" || link != 0 ==> r == (link, ps)
    ensures name != "" && link == 0 ==>
      var (id, ps1) := GetOrCreatePartner(ps, name, kind, newId);
      r == (id.GetOr(link), ps1)
  {
    if name != "" && link == 0 then
      var (id, ps1) := GetOrCreatePartner(ps, name, kind, newId);
      (id.GetOr(link), ps1)
    else (link, ps)
  }

  /** Some company among `ps` has the id and a name containing the
      stripped legacy name, ignoring case. */
  predicate Linked(ps: seq<Partner>, id: int, name: string) {
    exists k :: 0 <= k < |ps| && ps[k].id == id && Matches(ps[k], Text.Strip(name))
  }

  /** `ps1` keeps the partners of `ps`, in front, and adds at most `n`. */
  predicate Extends(ps: seq<Partner>, ps1: seq<Partner>, n: nat) {
    |ps| <= |ps1| <= |ps| + n && ps1[..|ps|] == ps
  }

  /** A link to a partner on record survives the partners added later. */
  lemma {:induction false} LinkedExtends(ps: seq<Partner>, ps1: seq<Partner>, n: nat, id: int, name: string)
    requires Extends(ps, ps1, n)
    ensures Linked(ps, id, name) ==> Linked(ps1, id, name)
  {
    if Linked(ps, id, name) {
      var k :| 0 <= k < |ps| && ps[k].id == id && Matches(ps[k], Text.Strip(name));
      assert ps1[k] == ps1[..|ps|][k];
    }
  }

  lemma {:induction false} ExtendsTrans(a: seq<Partner>, b: seq<Partner>, c: seq<Partner>, m: nat, n: nat)
    requires Extends(a, b, m) && Extends(b, c, n)
    ensures Extends(a, c, m + n)
  {
    assert c[..|a|] == c[..|b|][..|a|];
  }

  /** One role keeps the partners it was given, in front, and adds at most
      one; a non-blank name with no link ends up linked to a company
      partner whose name contains the stripped name. */
  lemma {:induction false} LinkRoleFacts(name: string, link: int, kind: string, ps: seq<Partner>, newId: int)
    ensures Extends(ps, LinkRole(name, link, kind, ps, newId).1, 1)
    ensures Text.Strip(name) != "" && link == 0 ==>
      Linked(LinkRole(name, link, kind, ps, newId).1, LinkRole(name, link, kind, ps, newId).0, name)
  {
    if Text.Strip(name) != "" && link == 0 {
      PartnerMatchesName(ps, name, kind, newId);
    }
  }

  /** `create`, for one opportunity: the three roles in turn, each new
      partner taking the next id from `nextId`.  Chosen partners and
      roles without a legacy name are kept; each role with a non-blank
      legacy name and no partner is linked to a company whose name
      contains that name; the partners on record stay, in front, and at
      most three are added. */
  function LinkPartners(v: LeadVals, ps: seq<Partner>, nextId: int): (r: (LeadVals, seq<Partner>))
    ensures v.gc != 0 ==> r.0.gc == v.gc
    ensures v.owner != 0 ==> r.0.owner == v.owner
    ensures v.architect != 0 ==> r.0.architect == v.architect
    ensures v.gcName == "" ==> r.0.gc == v.gc
    ensures v.ownerName == "" ==> r.0.owner == v.owner
    ensures v.architectName == "" ==> r.0.architect == v.architect
    ensures (r.0.gcName, r.0.ownerName, r.0.architectName) == (v.gcName, v.ownerName, v.architectName)
    ensures Text.Strip(v.gcName) != "" && v.gc == 0 ==> Linked(r.1, r.0.gc, v.gcName)
    ensures Text.Strip(v.ownerName) != "" && v.owner == 0 ==> Linked(r.1, r.0.owner, v.ownerName)
    ensures Text.Strip(v.architectName) != "" && v.architect == 0 ==> Linked(r.1, r.0.architect, v.architectName)
    ensures Extends(ps, r.1, 3)
  {
    var g := LinkRole(v.gcName, v.gc, "gc", ps, nextId);
    var o := LinkRole(v.ownerName, v.owner, "owner", g.1, nextId + 1);
    var a := LinkRole(v.architectName, v.architect, "architect", o.1, nextId + 2);
    LinkRoleFacts(v.gcName, v.gc, "gc", ps, nextId);
    LinkRoleFacts(v.ownerName, v.owner, "owner", g.1, nextId + 1);
    LinkRoleFacts(v.architectName, v.architect, "architect", o.1, nextId + 2);
    ExtendsTrans(g.1, o.1, a.1, 1, 1);
    ExtendsTrans(ps, g.1, a.1, 1, 2);
    LinkedExtends(g.1, a.1, 2, g.0, v.gcName);
    LinkedExtends(o.1, a.1, 1, o.0, v.ownerName);
    (v.(gc := g.0, owner := o.0, architect := a.0), a.1)
  }

  /** A company found on record stays the one found once partners are
      added after it. */
  lemma {:induction false} FindCompanyExtends(ps: seq<Partner>, ps1: seq<Partner>, n: nat, key: string)
    requires Extends(ps, ps1, n)
    ensures FindCompany(ps, key).Some? ==> FindCompany(ps1, key) == FindCompany(ps, key)
  {
    if FindCompany(ps, key).Some? {
      var k := FindCompany(ps, key).value;
      assert forall j :: 0 <= j <= k ==> ps1[j] == ps1[..|ps|][j] == ps[j];
    }
  }

  /** One role of `create` as written, through `_get_or_create_partner`
      as written: a non-empty legacy name of blanks with no link is linked
      to the first company on file, or to a new company of that blank
      name when there is none; every other case is as in `LinkRole`. */
  function LinkRoleAsWritten(name: string, link: int, kind: string, ps: seq<Partner>, newId: int): (r: (int, seq<Partner>))
    ensures name == "" || link != 0 ==> r == (link, ps)
    ensures Text.Strip(name) != "" ==> r == LinkRole(name, link, kind, ps, newId)
    ensures name != "" && Text.Strip(name) == "" && link == 0 && FindCompany(ps, "").Some? ==>
      r == (ps[FindCompany(ps, "").value].id, ps)
    ensures name != "" && Text.Strip(name) == "" && link == 0 && FindCompany(ps, "").None? ==>
      r == (newId, ps + [NewPartner(newId, name, kind)])
    ensures Extends(ps, r.1, 1)
  {
    if name != "" && link == 0 then
      var (id, ps1) := GetOrCreatePartnerAsWritten(ps, name, kind, newId);
      (id.GetOr(link), ps1)
    else (link, ps)
  }

  /** A legacy name is either empty or holds more than blanks: on such
      names the code as written and the corrected lookup agree. */
  predicate Tidy(name: string) {
    name == "" || Text.Strip(name) != ""
  }

  /** `create` as written, for one opportunity: the three roles in turn
      through `LinkRoleAsWritten`.  Chosen partners and roles without a
      legacy name are kept; when every legacy name is tidy the result is
      that of `LinkPartners`; a role whose legacy name is only blanks and
      that has no partner is linked to the first company on file, when
      there is one; the partners on record stay, in front, and at most
      three are added. */
  function LinkPartnersAsWritten(v: LeadVals, ps: seq<Partner>, nextId: int): (r: (LeadVals, seq<Partner>))
    ensures v.gc != 0 ==> r.0.gc == v.gc
    ensures v.owner != 0 ==> r.0.owner == v.owner
    ensures v.architect != 0 ==> r.0.architect == v.architect
    ensures v.gcName == "" ==> r.0.gc == v.gc
    ensures v.ownerName == "" ==> r.0.owner == v.owner
    ensures v.architectName == "" ==> r.0.architect == v.architect
    ensures FindCompany(ps, "").Some? ==>
      var first := ps[FindCompany(ps, "").value].id;
      && (!Tidy(v.gcName) && v.gc == 0 ==> r.0.gc == first)
      && (!Tidy(v.ownerName) && v.owner == 0 ==> r.0.owner == first)
      && (!Tidy(v.architectName) && v.architect == 0 ==> r.0.architect == first)
    ensures Extends(ps, r.1, 3)
  {
    var g := LinkRoleAsWritten(v.gcName, v.gc, "gc", ps, nextId);
    var o := LinkRoleAsWritten(v.ownerName, v.owner, "owner", g.1, nextId + 1);
    var a := LinkRoleAsWritten(v.architectName, v.architect, "architect", o.1, nextId + 2);
    ExtendsTrans(ps, g.1, o.1, 1, 1);
    ExtendsTrans(ps, o.1, a.1, 2, 1);
    FindCompanyExtends(ps, g.1, 1, "");
    FindCompanyExtends(ps, o.1, 2, "");
    (v.(gc := g.0, owner := o.0, architect := a.0), a.1)
  }

  /** When every legacy name is empty or more than blanks, `create` as
      written and the corrected `LinkPartners` give the same links and
      the same partners. */
  lemma {:induction false} TidyNamesAgree(v: LeadVals, ps: seq<Partner>, nextId: int)
    requires Tidy(v.gcName) && Tidy(v.ownerName) && Tidy(v.architectName)
    ensures LinkPartnersAsWritten(v, ps, nextId) == LinkPartners(v, ps, nextId)
  {
    var g := LinkRoleAsWritten(v.gcName, v.gc, "gc", ps, nextId);
    assert g == LinkRole(v.gcName, v.gc, "gc", ps, nextId);
    var o := LinkRoleAsWritten(v.ownerName, v.owner, "owner", g.1, nextId + 1);
    assert o == LinkRole(v.ownerName, v.owner, "owner", g.1, nextId + 1);
    var a := LinkRoleAsWritten(v.architectName, v.architect, "architect", o.1, nextId + 2);
    assert a == LinkRole(v.architectName, v.architect, "architect", o.1, nextId + 2);
  }

  /** The finding in `create`: a contractor name of two blanks, no
      contractor partner and one company on file.  The code as written
      links the opportunity to that company, whatever its name; the
      corrected lookup leaves the contractor unset.  Neither adds a
      partner. */
  lemma BlankLegacyNameLinksAnyCompany(acme: Partner)
    requires acme.isCompany && acme.id != 0
    ensures var v := LeadVals("  ", 0, "", 0, "", 0);
      && LinkPartnersAsWritten(v, [acme], 7) == (v.(gc := acme.id), [acme])
      && LinkPartners(v, [acme], 7) == (v, [acme])
  {
    BlankNameLinksAnyCompany(acme);
    assert Text.Strip("  ") == "" by {
      assert Text.IsBlank("  ");
    }
  }

  /** A role with a non-blank legacy name and no link ends up linked to a
      partner. */
  lemma LinkRoleLinks(name: string, kind: string, ps: seq<Partner>, newId: int)
    requires Text.Strip(name) != "" && newId != 0
    requires forall j :: 0 <= j < |ps| ==> ps[j].id != 0
    ensures LinkRole(name, 0, kind, ps, newId).0 != 0
  {
  }

  // ---------------------------------------------------------------------
  // Winning an opportunity
  // ---------------------------------------------------------------------

  /** The shop drawing submittal a new project starts with. */
  datatype SubmittalDraft = SubmittalDraft(name: string, project: int, kind: string,
                                           specSection: string, specTitle: string, signTypes: seq<int>)

  /** The production order placeholder a new project starts with. */
  datatype ProductionDraft = ProductionDraft(name: string, project: int, opportunity: int)

  datatype Won = Won(world: Projects.World, project: int,
                     submittal: Option<SubmittalDraft>, production: Option<ProductionDraft>)

  /** `_create_project_from_won`: an opportunity that already has a
      project keeps it and nothing else happens; otherwise the project is
      created from the opportunity, with a shop drawing submittal listing
      its sign types and a production order placeholder, each only when
      its add-on is installed. */
  function CreateProjectFromWon(w: Projects.World, opp: Projects.Opportunity, signTypes: seq<int>,
                                hasSubmittals: bool, hasProduction: bool,
                                today: int, newProject: int, newTask: int): (r: Won)
    requires opp.id != 0
    ensures Projects.ProjectOf(w.projects, opp.id).Some? ==>
      r == Won(w, w.projects[Projects.ProjectOf(w.projects, opp.id).value].id, None, None)
    ensures Projects.ProjectOf(w.projects, opp.id).None? ==>
      && (r.world, r.project) == Projects.CreateFromOpportunity(w, opp, today, newProject, newTask)
      && (r.submittal.Some? <==> hasSubmittals)
      && (r.production.Some? <==> hasProduction)
      && (r.submittal.Some? ==>
            r.submittal.value == SubmittalDraft(opp.details.name + " - Shop Drawings", r.project, "shop",
                                                "10 14 00", "Interior Signage", signTypes))
      && (r.production.Some? ==> r.production.value == ProductionDraft("PO-" + opp.details.name, r.project, opp.id))
  {
    match Projects.ProjectOf(w.projects, opp.id)
    case Some(k) => Won(w, w.projects[k].id, None, None)
    case None =>
      var (w1, pid) := Projects.CreateFromOpportunity(w, opp, today, newProject, newTask);
      var name := opp.details.name;
      Won(w1, pid,
          if hasSubmittals then Some(SubmittalDraft(name + " - Shop Drawings", pid, "shop", "10 14 00",
                                                    "Interior Signage", signTypes)) else None,
          if hasProduction then Some(ProductionDraft("PO-" + name, pid, opp.id)) else None)
  }

  /** `_create_project_from_won` as written: `_create_initial_submittal`
      and `_create_production_order` look their models up with `env.get`,
      whose result is never true, so both return `False` and the project
      is all that is created, as if neither add-on were installed. */
  function CreateProjectFromWonAsWritten(w: Projects.World, opp: Projects.Opportunity, signTypes: seq<int>,
                                         hasSubmittals: bool, hasProduction: bool,
                                         today: int, newProject: int, newTask: int): (r: Won)
    requires opp.id != 0
    ensures r == CreateProjectFromWon(w, opp, signTypes, false, false, today, newProject, newTask)
  {
    CreateProjectFromWon(w, opp, signTypes,
                         OdooEnv.Truthy(OdooEnv.EnvGet(hasSubmittals)), OdooEnv.Truthy(OdooEnv.EnvGet(hasProduction)),
                         today, newProject, newTask)
  }

  /** Winning a new opportunity with both add-ons installed: the corrected
      method creates the submittal and the production order, the code as
      written creates neither, and both create the same project. */
  lemma {:induction false} WonAsWrittenCreatesNeither(w: Projects.World, opp: Projects.Opportunity, signTypes: seq<int>,
                                                     today: int, newProject: int, newTask: int)
    requires opp.id != 0 && Projects.ProjectOf(w.projects, opp.id).None?
    ensures var a := CreateProjectFromWonAsWritten(w, opp, signTypes, true, true, today, newProject, newTask);
      var c := CreateProjectFromWon(w, opp, signTypes, true, true, today, newProject, newTask);
      && a.submittal.None? && a.production.None?
      && c.submittal.Some? && c.production.Some?
      && (a.world, a.project) == (c.world, c.project)
  {
  }

  /** Winning the same opportunity twice creates its project, submittal
      and production order once: the second time changes nothing. */
  lemma WonTwice(w: Projects.World, opp: Projects.Opportunity, signTypes: seq<int>, hs: bool, hp: bool,
                 today: int, later: int, p1: int, t1: int, p2: int, t2: int)
    requires opp.id != 0
    ensures var first := CreateProjectFromWon(w, opp, signTypes, hs, hp, today, p1, t1);
      var second := CreateProjectFromWon(first.world, opp, signTypes, hs, hp, later, p2, t2);
      && second.world == first.world
      && second.project == first.project
      && second.submittal.None? && second.production.None?
  {
    var first := CreateProjectFromWon(w, opp, signTypes, hs, hp, today, p1, t1);
    if Projects.ProjectOf(w.projects, opp.id).None? {
      Projects.CreateLinksProject(w, opp, today, p1, t1);
    }
  }
}
