/** Submittal packages sent to the architect for approval, their
    response, and the revisions that follow a rejection. */
module Submittals {
  import Numerals
  import Text

  datatype Response = Pending | ApprovedResponse | ApprovedNoted | Revise | Rejected | Void

  datatype State = SubDraft | Ready | Submitted | Reviewed

  /** A submittal.  `previous` is the id of the revision it replaces, 0
      for the first; dates are day numbers, 0 when unset. */
  datatype Submittal = Submittal(
    id: int, name: string, project: int, signTypes: seq<int>, attachments: seq<int>,
    revision: int, previous: int, submittedDate: int, responseDate: int,
    response: Response, state: State)

  /** `_compute_is_approved`. */
  predicate IsApproved(s: Submittal) {
    s.response == ApprovedResponse || s.response == ApprovedNoted
  }

  /** `_compute_sign_type_count` and `_compute_attachment_count`. */
  function Counts(s: Submittal): (r: (nat, nat))
    ensures r.0 == |s.signTypes| && r.1 == |s.attachments|
  {
    (|s.signTypes|, |s.attachments|)
  }

  /** `action_submit`: submitted today. */
  function Submit(s: Submittal, today: int): (r: Submittal)
    ensures r.state == Submitted && r.submittedDate == today
    ensures r == s.(state := r.state, submittedDate := r.submittedDate)
  {
    s.(state := Submitted, submittedDate := today)
  }

  /** `action_mark_reviewed`: reviewed, the response received today; the
      response itself is recorded separately. */
  function MarkReviewed(s: Submittal, today: int): (r: Submittal)
    ensures r.state == Reviewed && r.responseDate == today
    ensures r == s.(state := r.state, responseDate := r.responseDate)
    ensures IsApproved(r) <==> IsApproved(s)
  {
    s.(state := Reviewed, responseDate := today)
  }

  /** `action_create_revision`: a copy named "{name}-R{n}" with the next
      revision number n, linked to this submittal, back in draft with the
      response pending and both dates cleared. */
  function CreateRevision(s: Submittal, newId: int): (r: Submittal)
    ensures r.id == newId && r.previous == s.id
    ensures r.revision == s.revision + 1
    ensures r.name == s.name + "-R" + Numerals.IntText(s.revision + 1)
    ensures r.state == SubDraft && r.response == Pending && !IsApproved(r)
    ensures r.submittedDate == 0 && r.responseDate == 0
    ensures (r.project, r.signTypes, r.attachments) == (s.project, s.signTypes, s.attachments)
  {
    s.(id := newId, name := s.name + "-R" + Numerals.IntText(s.revision + 1),
       revision := s.revision + 1, previous := s.id,
       state := SubDraft, response := Pending, submittedDate := 0, responseDate := 0)
  }

  /** A chain of revisions: each revises the one before it. */
  function Revisions(s: Submittal, ids: seq<int>): (r: seq<Submittal>)
    ensures |r| == |ids|
    decreases |ids|
  {
    if |ids| == 0 then []
    else
      var next := CreateRevision(s, ids[0]);
      [next] + Revisions(next, ids[1..])
  }

  /** The k-th revision in a chain carries revision number k + 1 past the
      original and its name starts with the original name. */
  lemma {:induction false} RevisionChain(s: Submittal, ids: seq<int>)
    ensures forall k :: 0 <= k < |ids| ==> Revisions(s, ids)[k].revision == s.revision + k + 1
    ensures forall k :: 0 <= k < |ids| ==> Text.StartsWith(Revisions(s, ids)[k].name, s.name)
    ensures forall k :: 1 <= k < |ids| ==> Revisions(s, ids)[k].previous == Revisions(s, ids)[k - 1].id
    decreases |ids|
  {
    if |ids| > 0 {
      var next := CreateRevision(s, ids[0]);
      RevisionChain(next, ids[1..]);
      var r := Revisions(s, ids);
      assert r[1..] == Revisions(next, ids[1..]);
      assert next.name[..|s.name|] == s.name;
      forall k | 1 <= k < |ids| ensures Text.StartsWith(r[k].name, s.name) {
        assert Text.StartsWith(r[k].name, next.name);
        assert r[k].name[..|s.name|] == r[k].name[..|next.name|][..|s.name|];
      }
    }
  }

  /** Submitting is idempotent and leaves the architect's response alone;
      a revision of a submittal, submitted or not, starts unsubmitted with
      the same sign type and attachment counts. */
  lemma SubmitFacts(s: Submittal, today: int, newId: int)
    ensures Submit(Submit(s, today), today) == Submit(s, today)
    ensures IsApproved(Submit(s, today)) <==> IsApproved(s)
    ensures CreateRevision(Submit(s, today), newId).submittedDate == 0
    ensures Counts(CreateRevision(Submit(s, today), newId)) == Counts(s)
  {
  }
}
