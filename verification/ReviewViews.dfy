/**
 * The client's opportunity views and review queue, built from two append-only histories (rows
 * arrive oldest first), and the review reference: an opaque signed code plus a version token.
 */
module ReviewViews {
  import opened Options
  import opened Picks
  import opened SymbolicText

  datatype Opportunity = Opportunity(id: string, projectId: string, keyword: string, createdAt: string)

  datatype ValidationStatus = PENDING_VALIDATION | VALIDATED | REJECTED_VALIDATION
  datatype Validation = Validation(validationId: string, opportunityId: string, status: ValidationStatus)

  datatype DecisionStatus = APPROVED | CHANGES_REQUESTED | REJECTED
  datatype Decision = Decision(id: string, opportunityId: string, opportunityValidationId: string, status: DecisionStatus)

  datatype OpportunityStatus = ProposedView | ValidatedView | ConfirmedView | RejectedView

  datatype ReviewStatus = ReviewPending | ReviewChangesRequested

  type Code = Text<string>

  datatype ReviewRef = ReviewRef(reviewReferenceCode: Code, reviewVersion: nat, reviewStatus: ReviewStatus)

  datatype View = View(
    id: string, projectId: string, title: string, summary: string,
    status: OpportunityStatus, createdAt: string, review: Option<ReviewRef>)

  // ------------------------------------------------------------------ the signed code

  /** base64url of a string; the empty string encodes to the empty text. */
  function Wrap(id: string): Code {
    if id == "" then [] else [Enc(id)]
  }

  function EncodeCode(validationId: string, key: string): Code {
    var payload := Wrap(validationId);
    payload + [Chr('.')] + Signature(payload, key)
  }

  function DecodeCode(code: Code, key: string): Option<string> {
    var parts := Split(code);
    if code == [] || |parts| != 2 || parts[0] == [] || parts[1] != Signature(parts[0], key) then None
    else if |parts[0]| == 1 && parts[0][0].Enc? && parts[0][0].v != "" then Some(parts[0][0].v)
    else None
  }

  lemma CodeSplits(payload: Code, key: string)
    requires DotFree(payload)
    ensures Split(payload + [Chr('.')] + Signature(payload, key)) == [payload, Signature(payload, key)]
  {
    SplitSegment(payload, Signature(payload, key));
    SplitSegment(Signature(payload, key), []);
  }

  /** A code decodes to an id exactly when it is the code that id encodes to; the empty id has none. */
  lemma DecodesIff(code: Code, key: string, validationId: string)
    ensures DecodeCode(code, key) == Some(validationId) <==> validationId != "" && code == EncodeCode(validationId, key)
  {
    var payload := Wrap(validationId);
    CodeSplits(payload, key);
    if DecodeCode(code, key) == Some(validationId) {
      var parts := Split(code);
      JoinSplit(code);
      assert parts == [parts[0], parts[1]] && parts[1..] == [parts[1]];
      assert parts[0] == [Enc(validationId)];
    }
  }

  /** A code is good under the key it was made with and no other, and shows the id's MAC under that key. */
  lemma CodeNeedsItsKey(validationId: string, made: string, key: string)
    requires validationId != ""
    ensures DecodeCode(EncodeCode(validationId, made), key) == if key == made then Some(validationId) else None
    ensures var code := EncodeCode(validationId, made);
            code == [Enc(validationId), Chr('.'), Mac(made, [Enc(validationId)])]
  {
    var payload := Wrap(validationId);
    CodeSplits(payload, made);
    assert Signature(payload, made)[0] == Mac(made, payload) && Signature(payload, key)[0] == Mac(key, payload);
  }

  // ------------------------------------------------------------------ plain filters, the reference

  function ValidationsOf(validations: seq<Validation>, id: string): seq<Validation> {
    if validations == [] then []
    else
      var n := |validations| - 1;
      ValidationsOf(validations[..n], id) + if validations[n].opportunityId == id then [validations[n]] else []
  }

  function DecisionsOf(reviews: seq<Decision>, id: string): seq<Decision> {
    if reviews == [] then []
    else
      var n := |reviews| - 1;
      DecisionsOf(reviews[..n], id) + if reviews[n].opportunityId == id then [reviews[n]] else []
  }

  function LastOf<T>(s: seq<T>): Option<T> {
    if s == [] then None else Some(s[|s| - 1])
  }

  function DeriveStatus(validation: Option<ValidationStatus>, review: Option<DecisionStatus>): OpportunityStatus {
    if review == Some(APPROVED) then ConfirmedView
    else if review == Some(REJECTED) then RejectedView
    else if review == Some(CHANGES_REQUESTED) then ValidatedView
    else if validation == Some(VALIDATED) then ValidatedView
    else if validation == Some(REJECTED_VALIDATION) then RejectedView
    else ProposedView
  }

  function BuildReference(latest: Option<Validation>, decisions: seq<Decision>, key: string): Option<ReviewRef> {
    if latest.None? || latest.value.status != VALIDATED then None
    else
      var last := LastOf(decisions);
      if last.Some? && last.value.status != CHANGES_REQUESTED then None
      else Some(ReviewRef(EncodeCode(latest.value.validationId, key), |decisions|,
                          if last.None? then ReviewPending else ReviewChangesRequested))
  }

  function ViewWith(o: Opportunity, status: OpportunityStatus, review: Option<ReviewRef>): View {
    View(o.id, o.projectId, o.keyword,
         "Knowledge-grounded content opportunity for the keyword \"" + o.keyword + "\".",
         status, o.createdAt, review)
  }

  function StatusOfValidation(v: Option<Validation>): Option<ValidationStatus> {
    if v.Some? then Some(v.value.status) else None
  }

  function StatusOfDecision(d: Option<Decision>): Option<DecisionStatus> {
    if d.Some? then Some(d.value.status) else None
  }

  function Reference(id: string, validations: seq<Validation>, reviews: seq<Decision>, key: string): Option<ReviewRef> {
    BuildReference(LastOf(ValidationsOf(validations, id)), DecisionsOf(reviews, id), key)
  }

  /** One opportunity's view, straight from the histories. */
  function ViewOf(o: Opportunity, validations: seq<Validation>, reviews: seq<Decision>, key: string): View {
    ViewWith(o,
             DeriveStatus(StatusOfValidation(LastOf(ValidationsOf(validations, o.id))),
                          StatusOfDecision(LastOf(DecisionsOf(reviews, o.id)))),
             Reference(o.id, validations, reviews, key))
  }

  function ViewsOf(os: seq<Opportunity>, validations: seq<Validation>, reviews: seq<Decision>, key: string): seq<View> {
    if os == [] then []
    else ViewsOf(os[..|os| - 1], validations, reviews, key) + [ViewOf(os[|os| - 1], validations, reviews, key)]
  }

  // ------------------------------------------------------------------ what a view shows, from positions in the histories

  /** The opportunity's last decision: no later row is of the opportunity. None when it has none. */
  ghost predicate IsLastDecision(d: Option<Decision>, reviews: seq<Decision>, id: string) {
    if d.None? then forall k :: 0 <= k < |reviews| ==> reviews[k].opportunityId != id
    else exists k :: 0 <= k < |reviews| && reviews[k] == d.value && reviews[k].opportunityId == id
                     && forall j :: k < j < |reviews| ==> reviews[j].opportunityId != id
  }

  ghost predicate IsLastValidation(v: Option<Validation>, validations: seq<Validation>, id: string) {
    if v.None? then forall k :: 0 <= k < |validations| ==> validations[k].opportunityId != id
    else exists k :: 0 <= k < |validations| && validations[k] == v.value && validations[k].opportunityId == id
                     && forall j :: k < j < |validations| ==> validations[j].opportunityId != id
  }

  /** The positions of an opportunity's decisions. */
  function DecisionPositions(reviews: seq<Decision>, id: string): set<int> {
    set k | 0 <= k < |reviews| && reviews[k].opportunityId == id
  }

  /** The status a client sees: the last decision's, or failing one the last validation's. */
  predicate StatusMatches(status: OpportunityStatus, v: Option<Validation>, d: Option<Decision>) {
    && (status.ConfirmedView? <==> d.Some? && d.value.status.APPROVED?)
    && (status.RejectedView? <==>
          (d.Some? && d.value.status.REJECTED?) || (d.None? && v.Some? && v.value.status.REJECTED_VALIDATION?))
    && (status.ProposedView? <==> d.None? && (v.None? || v.value.status.PENDING_VALIDATION?))
    && (status.ValidatedView? <==>
          (d.Some? && d.value.status.CHANGES_REQUESTED?) || (d.None? && v.Some? && v.value.status.VALIDATED?))
  }

  /** A reference names the latest validation, validated and not finally decided, and counts the decisions so far. */
  predicate ReferenceMatches(review: Option<ReviewRef>, v: Option<Validation>, d: Option<Decision>, decisions: nat, key: string) {
    && (review.Some? <==> v.Some? && v.value.status.VALIDATED? && (d.None? || d.value.status.CHANGES_REQUESTED?))
    && (review.Some? ==>
          && (v.value.validationId != "" ==> DecodeCode(review.value.reviewReferenceCode, key) == Some(v.value.validationId))
          && review.value.reviewVersion == decisions
          && (review.value.reviewStatus.ReviewPending? <==> d.None?))
  }

  ghost predicate Shows(view: View, o: Opportunity, validations: seq<Validation>, reviews: seq<Decision>, key: string) {
    && view.id == o.id && view.projectId == o.projectId && view.title == o.keyword && view.createdAt == o.createdAt
    && exists v, d ::
         && IsLastValidation(v, validations, o.id) && IsLastDecision(d, reviews, o.id)
         && StatusMatches(view.status, v, d)
         && ReferenceMatches(view.review, v, d, |DecisionPositions(reviews, o.id)|, key)
  }

  /** A later row of another opportunity leaves the last decision. */
  lemma StillLast(d: Option<Decision>, front: seq<Decision>, r: Decision, id: string)
    requires IsLastDecision(d, front, id)
    ensures r.opportunityId != id ==> IsLastDecision(d, front + [r], id)
    ensures r.opportunityId == id ==> IsLastDecision(Some(r), front + [r], id)
  {
    var all := front + [r];
    assert all[|front|] == r;
    if r.opportunityId != id && d.Some? {
      var k :| 0 <= k < |front| && front[k] == d.value && front[k].opportunityId == id
               && forall j :: k < j < |front| ==> front[j].opportunityId != id;
      assert all[k] == d.value;
      assert forall j :: k < j < |all| ==> all[j].opportunityId != id;
    }
  }

  lemma {:induction false} LastDecisionIs(reviews: seq<Decision>, id: string)
    ensures IsLastDecision(LastOf(DecisionsOf(reviews, id)), reviews, id)
  {
    if reviews != [] {
      var n := |reviews| - 1;
      LastDecisionIs(reviews[..n], id);
      StillLast(LastOf(DecisionsOf(reviews[..n], id)), reviews[..n], reviews[n], id);
      assert reviews[..n] + [reviews[n]] == reviews;
    }
  }

  lemma {:induction false} DecisionsAreCounted(reviews: seq<Decision>, id: string)
    ensures |DecisionsOf(reviews, id)| == |DecisionPositions(reviews, id)|
  {
    if reviews != [] {
      var n := |reviews| - 1;
      DecisionsAreCounted(reviews[..n], id);
      var own: set<int> := if reviews[n].opportunityId == id then {n} else {};
      assert DecisionPositions(reviews, id) == DecisionPositions(reviews[..n], id) + own;
    }
  }

  lemma {:induction false} LastValidationIs(validations: seq<Validation>, id: string)
    ensures IsLastValidation(LastOf(ValidationsOf(validations, id)), validations, id)
  {
    if validations != [] {
      var n := |validations| - 1;
      var front, v := validations[..n], LastOf(ValidationsOf(validations, id));
      LastValidationIs(front, id);
      if validations[n].opportunityId == id {
        assert validations[n] == v.value;
      } else if v.Some? {
        var k :| 0 <= k < |front| && front[k] == v.value && front[k].opportunityId == id
                 && forall j :: k < j < |front| ==> front[j].opportunityId != id;
        assert validations[k] == v.value;
      } else {
        assert forall k :: 0 <= k < n ==> validations[k] == front[k];
      }
    }
  }

  lemma DerivedStatusMatches(v: Option<Validation>, d: Option<Decision>)
    ensures StatusMatches(DeriveStatus(StatusOfValidation(v), StatusOfDecision(d)), v, d)
  {
    if d.Some? {
      match d.value.status
      case APPROVED =>
      case CHANGES_REQUESTED =>
      case REJECTED =>
    } else if v.Some? {
      match v.value.status
      case PENDING_VALIDATION =>
      case VALIDATED =>
      case REJECTED_VALIDATION =>
    }
  }

  /** Each view is of its own opportunity, with the status and the reference its last validation and last decision give. */
  lemma ViewShows(o: Opportunity, validations: seq<Validation>, reviews: seq<Decision>, key: string)
    ensures Shows(ViewOf(o, validations, reviews, key), o, validations, reviews, key)
  {
    var v, d := LastOf(ValidationsOf(validations, o.id)), LastOf(DecisionsOf(reviews, o.id));
    LastValidationIs(validations, o.id);
    LastDecisionIs(reviews, o.id);
    DecisionsAreCounted(reviews, o.id);
    if v.Some? { DecodesIff(EncodeCode(v.value.validationId, key), key, v.value.validationId); }
    assert IsLastValidation(v, validations, o.id) && IsLastDecision(d, reviews, o.id);
    DerivedStatusMatches(v, d);
    assert ReferenceMatches(ViewOf(o, validations, reviews, key).review, v, d, |DecisionPositions(reviews, o.id)|, key);
  }

  lemma {:induction false} ViewAt(os: seq<Opportunity>, i: nat, validations: seq<Validation>, reviews: seq<Decision>, key: string)
    requires i <= |os|
    ensures var views := ViewsOf(os, validations, reviews, key);
            |views| == |os| && (i < |os| ==> views[i] == ViewOf(os[i], validations, reviews, key))
  {
    if os != [] { ViewAt(os[..|os| - 1], if i < |os| - 1 then i else |os| - 1, validations, reviews, key); }
  }

  lemma ViewsShow(os: seq<Opportunity>, validations: seq<Validation>, reviews: seq<Decision>, key: string)
    ensures var views := ViewsOf(os, validations, reviews, key);
            |views| == |os| && forall i :: 0 <= i < |os| ==> Shows(views[i], os[i], validations, reviews, key)
  {
    ViewAt(os, |os|, validations, reviews, key);
    forall i | 0 <= i < |os| ensures Shows(ViewsOf(os, validations, reviews, key)[i], os[i], validations, reviews, key) {
      ViewAt(os, i, validations, reviews, key);
      ViewShows(os[i], validations, reviews, key);
    }
  }

  /** There is one last decision and one last validation, so what a view shows is settled by the histories. */
  lemma LastAreUnique(validations: seq<Validation>, reviews: seq<Decision>, id: string,
                      v: Option<Validation>, w: Option<Validation>, d: Option<Decision>, e: Option<Decision>)
    requires IsLastValidation(v, validations, id) && IsLastValidation(w, validations, id)
    requires IsLastDecision(d, reviews, id) && IsLastDecision(e, reviews, id)
    ensures v == w && d == e
  {
  }

  // ------------------------------------------------------------------ the map-building folds

  function Get<T>(m: map<string, T>, id: string): Option<T> {
    if id in m then Some(m[id]) else None
  }

  function GetList(m: map<string, seq<Decision>>, id: string): seq<Decision> {
    if id in m then m[id] else []
  }

  /** latestValidationByOpportunity: the last row per opportunity wins. */
  method LatestValidationByOpportunity(validations: seq<Validation>) returns (out: map<string, Validation>)
    ensures forall id :: Get(out, id) == LastOf(ValidationsOf(validations, id))
  {
    out := map[];
    for i := 0 to |validations|
      invariant forall id :: Get(out, id) == LastOf(ValidationsOf(validations[..i], id))
    {
      assert validations[..i + 1][..i] == validations[..i];
      out := out[validations[i].opportunityId := validations[i]];
    }
    assert validations[..|validations|] == validations;
  }

  /** latestReviewStatusByOpportunity. */
  method LatestReviewStatusByOpportunity(reviews: seq<Decision>) returns (out: map<string, DecisionStatus>)
    ensures forall id :: Get(out, id) == StatusOfDecision(LastOf(DecisionsOf(reviews, id)))
  {
    out := map[];
    for i := 0 to |reviews|
      invariant forall id :: Get(out, id) == StatusOfDecision(LastOf(DecisionsOf(reviews[..i], id)))
    {
      assert reviews[..i + 1][..i] == reviews[..i];
      out := out[reviews[i].opportunityId := reviews[i].status];
    }
    assert reviews[..|reviews|] == reviews;
  }

  /** reviewsByOpportunity: each list is the filter of the whole, in arrival order. */
  method ReviewsByOpportunity(reviews: seq<Decision>) returns (out: map<string, seq<Decision>>)
    ensures forall id :: GetList(out, id) == DecisionsOf(reviews, id)
  {
    out := map[];
    for i := 0 to |reviews|
      invariant forall id :: GetList(out, id) == DecisionsOf(reviews[..i], id)
    {
      assert reviews[..i + 1][..i] == reviews[..i];
      var r := reviews[i];
      if r.opportunityId in out {
        out := out[r.opportunityId := out[r.opportunityId] + [r]];
      } else {
        out := out[r.opportunityId := [r]];
      }
    }
    assert reviews[..|reviews|] == reviews;
  }

  /** toOpportunityViews. */
  method ToOpportunityViews(os: seq<Opportunity>, validations: seq<Validation>, reviews: seq<Decision>, key: string) returns (views: seq<View>)
    ensures views == ViewsOf(os, validations, reviews, key)
    ensures |views| == |os| && forall i :: 0 <= i < |os| ==> Shows(views[i], os[i], validations, reviews, key)
  {
    ViewsShow(os, validations, reviews, key);
    var validationByOpp := LatestValidationByOpportunity(validations);
    var decisionsByOpp := ReviewsByOpportunity(reviews);
    views := [];
    for i := 0 to |os|
      invariant views == ViewsOf(os[..i], validations, reviews, key)
    {
      assert os[..i + 1][..i] == os[..i];
      var latest := Get(validationByOpp, os[i].id);
      var decisions := GetList(decisionsByOpp, os[i].id);
      var status := DeriveStatus(StatusOfValidation(latest), StatusOfDecision(LastOf(decisions)));
      views := views + [ViewWith(os[i], status, BuildReference(latest, decisions, key))];
    }
    assert os[..|os|] == os;
  }

  /** The views whose reference is still waiting for a first decision, in the same order. */
  function PendingOnly(views: seq<View>): seq<View> {
    if views == [] then []
    else
      var last := views[|views| - 1];
      PendingOnly(views[..|views| - 1])
      + if last.review.Some? && last.review.value.reviewStatus.ReviewPending? then [last] else []
  }

  lemma PendingAppend(os: seq<Opportunity>, i: nat, validations: seq<Validation>, reviews: seq<Decision>, key: string)
    requires i < |os|
    ensures var view := ViewOf(os[i], validations, reviews, key);
            PendingOnly(ViewsOf(os[..i + 1], validations, reviews, key)) ==
            PendingOnly(ViewsOf(os[..i], validations, reviews, key))
            + if view.review.Some? && view.review.value.reviewStatus.ReviewPending? then [view] else []
  {
    assert os[..i + 1][..i] == os[..i];
    var before, view := ViewsOf(os[..i], validations, reviews, key), ViewOf(os[i], validations, reviews, key);
    assert (before + [view])[..|before|] == before;
  }

  /** An opportunity's view waits for a first decision exactly when it is validated and undecided. */
  lemma PendingIff(o: Opportunity, validations: seq<Validation>, reviews: seq<Decision>, key: string)
    ensures var view := ViewOf(o, validations, reviews, key);
            var latest, decisions := LastOf(ValidationsOf(validations, o.id)), DecisionsOf(reviews, o.id);
            if StatusOfValidation(latest) == Some(VALIDATED) && decisions == []
            then && view.review.Some? && view.review.value.reviewStatus.ReviewPending?
                 && view == ViewWith(o, ValidatedView, BuildReference(latest, decisions, key))
            else !(view.review.Some? && view.review.value.reviewStatus.ReviewPending?)
  {
  }

  /** toReviewQueueViews: exactly the pending ones among the opportunity views, unchanged. */
  method ToReviewQueueViews(os: seq<Opportunity>, validations: seq<Validation>, reviews: seq<Decision>, key: string) returns (queue: seq<View>)
    ensures queue == PendingOnly(ViewsOf(os, validations, reviews, key))
  {
    var validationByOpp := LatestValidationByOpportunity(validations);
    var decisionsByOpp := ReviewsByOpportunity(reviews);
    queue := [];
    for i := 0 to |os|
      invariant queue == PendingOnly(ViewsOf(os[..i], validations, reviews, key))
    {
      var latest := Get(validationByOpp, os[i].id);
      var decisions := GetList(decisionsByOpp, os[i].id);
      var validated := StatusOfValidation(latest) == Some(VALIDATED);
      var alreadyReviewed := |decisions| > 0;
      PendingAppend(os, i, validations, reviews, key);
      PendingIff(os[i], validations, reviews, key);
      if validated && !alreadyReviewed {
        queue := queue + [ViewWith(os[i], ValidatedView, BuildReference(latest, decisions, key))];
      }
    }
    assert os[..|os|] == os;
  }

  /** The positions of the views that wait for a first decision. */
  function PendingPositions(views: seq<View>): set<int> {
    set k | 0 <= k < |views| && views[k].review.Some? && views[k].review.value.reviewStatus.ReviewPending?
  }

  /** The queue holds exactly the pending views, each once, in the order of the opportunities. */
  lemma {:induction false} QueueIs(views: seq<View>) returns (picked: seq<int>)
    ensures InOrder(picked, PendingPositions(views)) && |picked| == |PendingOnly(views)|
    ensures forall i :: 0 <= i < |picked| ==> 0 <= picked[i] < |views| && PendingOnly(views)[i] == views[picked[i]]
  {
    picked := [];
    if views != [] {
      var n := |views| - 1;
      var front := views[..n];
      var before := QueueIs(front);
      var more := PendingPositions(views) - PendingPositions(front);
      assert PendingPositions(front) <= PendingPositions(views) && more <= {n};
      if n in more {
        OneMore(before, PendingPositions(front), n);
        picked := before + [n];
        assert PendingPositions(views) == PendingPositions(front) + {n};
        assert PendingOnly(views) == PendingOnly(front) + [views[n]];
      } else {
        picked := before;
        assert PendingPositions(views) == PendingPositions(front);
        assert PendingOnly(views) == PendingOnly(front);
      }
    }
  }

  /** A reference is emitted exactly when the latest validation and the derived status are both VALIDATED. */
  lemma ReferenceIff(o: Opportunity, validations: seq<Validation>, reviews: seq<Decision>, key: string)
    ensures var view := ViewOf(o, validations, reviews, key);
            view.review.Some? <==>
              view.status.ValidatedView? && StatusOfValidation(LastOf(ValidationsOf(validations, o.id))) == Some(VALIDATED)
  {
  }

  // ------------------------------------------------------------------ the decide command

  datatype Histories = Histories(validations: seq<Validation>, reviews: seq<Decision>)

  function RefIn(h: Histories, id: string, key: string): Option<ReviewRef> {
    Reference(id, h.validations, h.reviews, key)
  }

  function FindValidation(validations: seq<Validation>, validationId: string): Option<Validation> {
    if validations == [] then None
    else if validations[0].validationId == validationId then Some(validations[0])
    else FindValidation(validations[1..], validationId)
  }

  function CountForValidation(reviews: seq<Decision>, validationId: string): nat {
    if reviews == [] then 0
    else
      var n := |reviews| - 1;
      CountForValidation(reviews[..n], validationId) + if reviews[n].opportunityValidationId == validationId then 1 else 0
  }

  /** What a decision is aimed at: the opaque code, or a raw validation id from an internal caller. */
  datatype Target = ByReference(code: Code) | ByValidationId(validationId: string) | NoTarget

  datatype CommandCheck = Accepted(validationId: string) | ValidationFailed | NotFound | Conflict

  function TargetId(target: Target, key: string): Option<string> {
    match target
    case ByReference(code) => DecodeCode(code, key)
    case ByValidationId(id) => if id == "" then None else Some(id)
    case NoTarget => None
  }

  /** What the decide command checks before it writes: the version is counted per validation. */
  function CheckDecision(h: Histories, id: string, target: Target, version: Option<int>, key: string): CommandCheck {
    var validationId := TargetId(target, key);
    if validationId.None? || (version.Some? && version.value < 0) then ValidationFailed
    else
      var v := FindValidation(h.validations, validationId.value);
      if v.None? || v.value.opportunityId != id then NotFound
      else if version.Some? && CountForValidation(h.reviews, validationId.value) != version.value then Conflict
      else Accepted(validationId.value)
  }

  /** Validation ids are primary keys, and a decision names a validation of its own opportunity. */
  ghost predicate Consistent(h: Histories) {
    && (forall i, j :: 0 <= i < j < |h.validations| ==> h.validations[i].validationId != h.validations[j].validationId)
    && (forall v <- h.validations :: v.validationId != "")
    && (forall d <- h.reviews ::
          exists v <- h.validations :: v.validationId == d.opportunityValidationId && v.opportunityId == d.opportunityId)
  }

  lemma {:induction false} FindValidationIs(validations: seq<Validation>, i: nat)
    requires i < |validations|
    requires forall a, b :: 0 <= a < b < |validations| ==> validations[a].validationId != validations[b].validationId
    ensures FindValidation(validations, validations[i].validationId) == Some(validations[i])
  {
    if i > 0 { FindValidationIs(validations[1..], i - 1); }
  }

  /** Counting by validation agrees with counting by opportunity iff every decision is on that validation. */
  lemma {:induction false} CountsAgreeIff(reviews: seq<Decision>, id: string, validationId: string)
    requires forall d <- reviews :: d.opportunityValidationId == validationId ==> d.opportunityId == id
    ensures CountForValidation(reviews, validationId) <= |DecisionsOf(reviews, id)|
    ensures CountForValidation(reviews, validationId) == |DecisionsOf(reviews, id)| <==>
            forall d <- reviews :: d.opportunityId == id ==> d.opportunityValidationId == validationId
  {
    if reviews != [] {
      var n := |reviews| - 1;
      CountsAgreeIff(reviews[..n], id, validationId);
      assert reviews == reviews[..n] + [reviews[n]];
    }
  }

  /** The validation a decision is aimed at: the one whose code it carries, or the raw id. */
  predicate AimsAt(target: Target, validationId: string, key: string) {
    && validationId != ""
    && match target
       case ByReference(code) => code == EncodeCode(validationId, key)
       case ByValidationId(id) => id == validationId
       case NoTarget => false
  }

  lemma AimsAtIff(target: Target, validationId: string, key: string)
    ensures TargetId(target, key) == Some(validationId) <==> AimsAt(target, validationId, key)
  {
    if target.ByReference? { DecodesIff(target.code, key, validationId); }
  }

  /** The positions of the decisions on a validation. */
  function PositionsOn(reviews: seq<Decision>, validationId: string): set<int> {
    set k | 0 <= k < |reviews| && reviews[k].opportunityValidationId == validationId
  }

  lemma {:induction false} CountIsPositions(reviews: seq<Decision>, validationId: string)
    ensures CountForValidation(reviews, validationId) == |PositionsOn(reviews, validationId)|
  {
    if reviews != [] {
      var n := |reviews| - 1;
      CountIsPositions(reviews[..n], validationId);
      var own: set<int> := if reviews[n].opportunityValidationId == validationId then {n} else {};
      assert PositionsOn(reviews, validationId) == PositionsOn(reviews[..n], validationId) + own;
    }
  }

  /**
   * The command's answer, in the order of its checks: no target or a negative version, no such
   * validation of the opportunity, a version other than the number of decisions on the validation,
   * and otherwise acceptance of the validation aimed at.
   */
  lemma CheckOutcome(h: Histories, id: string, target: Target, version: Option<int>, key: string, validationId: string)
    requires Consistent(h) && AimsAt(target, validationId, key)
    ensures CheckDecision(h, id, target, version, key) ==
            if version.Some? && version.value < 0 then ValidationFailed
            else if forall v <- h.validations :: v.validationId == validationId ==> v.opportunityId != id then NotFound
            else if version.Some? && version.value != |PositionsOn(h.reviews, validationId)| then Conflict
            else Accepted(validationId)
  {
    AimsAtIff(target, validationId, key);
    CountIsPositions(h.reviews, validationId);
    FindValidationFinds(h.validations, validationId);
    forall v | v in h.validations ensures FindValidation(h.validations, v.validationId) == Some(v) {
      var i :| 0 <= i < |h.validations| && h.validations[i] == v;
      FindValidationIs(h.validations, i);
    }
  }

  /** A decision aimed at nothing fails validation. */
  lemma AimlessFails(h: Histories, id: string, target: Target, version: Option<int>, key: string)
    requires forall validationId :: !AimsAt(target, validationId, key)
    ensures CheckDecision(h, id, target, version, key) == ValidationFailed
  {
    if TargetId(target, key).Some? { AimsAtIff(target, TargetId(target, key).value, key); }
  }

  /**
   * The reference a client is shown is accepted by the command if and only if no decision on the
   * opportunity was recorded against an earlier validation: the view's version counts decisions
   * per opportunity, the command's per validation. Otherwise the command answers CONFLICT.
   */
  lemma ShownReferenceAcceptedIff(h: Histories, id: string, key: string)
    requires Consistent(h) && RefIn(h, id, key).Some?
    ensures var r := RefIn(h, id, key).value;
            var latest := LastOf(ValidationsOf(h.validations, id)).value.validationId;
            CheckDecision(h, id, ByReference(r.reviewReferenceCode), Some(r.reviewVersion), key) ==
            if forall d <- h.reviews :: d.opportunityId == id ==> d.opportunityValidationId == latest
            then Accepted(latest) else Conflict
  {
    var latest := LastOf(ValidationsOf(h.validations, id)).value;
    LastValidationIs(h.validations, id);
    DecodesIff(EncodeCode(latest.validationId, key), key, latest.validationId);
    var i :| 0 <= i < |h.validations| && h.validations[i] == latest;
    FindValidationIs(h.validations, i);
    DecisionsAreOnTheirOpportunity(h, latest);
    CountsAgreeIff(h.reviews, id, latest.validationId);
  }

  lemma DecisionsAreOnTheirOpportunity(h: Histories, v: Validation)
    requires Consistent(h) && v in h.validations
    ensures forall d <- h.reviews :: d.opportunityValidationId == v.validationId ==> d.opportunityId == v.opportunityId
  {
    forall d | d in h.reviews && d.opportunityValidationId == v.validationId ensures d.opportunityId == v.opportunityId {
      var w :| w in h.validations && w.validationId == d.opportunityValidationId && w.opportunityId == d.opportunityId;
      var i :| 0 <= i < |h.validations| && h.validations[i] == v;
      var k :| 0 <= k < |h.validations| && h.validations[k] == w;
      assert i == k;
    }
  }

  lemma HistoryIsConsistent(v1: Validation, v2: Validation, d: Decision)
    requires v1.validationId != v2.validationId && v1.validationId != "" && v2.validationId != ""
    requires d.opportunityValidationId == v1.validationId && d.opportunityId == v1.opportunityId
    ensures Consistent(Histories([v1, v2], [d]))
  {
    assert v1 in [v1, v2];
  }

  lemma TwoOf(v1: Validation, v2: Validation, d: Decision, id: string)
    requires v1.opportunityId == v2.opportunityId == d.opportunityId == id
    ensures ValidationsOf([v1, v2], id) == [v1, v2] && DecisionsOf([d], id) == [d]
  {
    assert [v1, v2][..1] == [v1];
    assert ValidationsOf([v1], id) == [v1];
  }

  /** Concretely: validated, changes requested, validated again. The reference shown then is refused. */
  lemma RevalidatedReferenceIsRefused(key: string)
    ensures var h := Histories([Validation("v1", "o", VALIDATED), Validation("v2", "o", VALIDATED)],
                               [Decision("d", "o", "v1", CHANGES_REQUESTED)]);
            && Consistent(h) && RefIn(h, "o", key).Some?
            && var r := RefIn(h, "o", key).value;
               CheckDecision(h, "o", ByReference(r.reviewReferenceCode), Some(r.reviewVersion), key) == Conflict
  {
    var v1, v2 := Validation("v1", "o", VALIDATED), Validation("v2", "o", VALIDATED);
    var d := Decision("d", "o", "v1", CHANGES_REQUESTED);
    assert "v1"[1] != "v2"[1];
    HistoryIsConsistent(v1, v2, d);
    TwoOf(v1, v2, d, "o");
    assert d in [d];
    ShownReferenceAcceptedIff(Histories([v1, v2], [d]), "o", key);
  }

  // ------------------------------------------------------------------ runs of the command

  /** A submitted decision: what it is aimed at, the version read if any, and the new record's id. */
  datatype Request = Request(decisionId: string, opportunityId: string, target: Target, version: Option<int>, status: DecisionStatus)

  /** A validation is recorded, or a client submits a decision. */
  datatype Step = Validate(validation: Validation) | Submit(request: Request)

  function CheckOf(h: Histories, r: Request, key: string): CommandCheck {
    CheckDecision(h, r.opportunityId, r.target, r.version, key)
  }

  /** The command: what it accepts is appended, anything else changes nothing. */
  function Advance(h: Histories, step: Step, key: string): Histories {
    match step
    case Validate(v) => h.(validations := h.validations + [v])
    case Submit(r) =>
      var check := CheckOf(h, r, key);
      if check.Accepted? then h.(reviews := h.reviews + [Decision(r.decisionId, r.opportunityId, check.validationId, r.status)])
      else h
  }

  function After(h: Histories, steps: seq<Step>, key: string): Histories {
    if steps == [] then h else Advance(After(h, steps[..|steps| - 1], key), steps[|steps| - 1], key)
  }

  lemma DecisionsAppend(reviews: seq<Decision>, d: Decision, id: string)
    ensures DecisionsOf(reviews + [d], id) == DecisionsOf(reviews, id) + if d.opportunityId == id then [d] else []
  {
    assert (reviews + [d])[..|reviews|] == reviews;
  }

  lemma ValidationsAppend(validations: seq<Validation>, v: Validation, id: string)
    ensures ValidationsOf(validations + [v], id) == ValidationsOf(validations, id) + if v.opportunityId == id then [v] else []
  {
    assert (validations + [v])[..|validations|] == validations;
  }

  /** A decision of this opportunity is accepted by the step. */
  predicate Decides(h: Histories, step: Step, key: string, id: string) {
    step.Submit? && step.request.opportunityId == id && CheckOf(h, step.request, key).Accepted?
  }

  /** An accepted request leaves one decision, with the request's id, opportunity and status, on the validation it aimed at. */
  lemma SubmitRecords(h: Histories, r: Request, key: string)
    ensures var after := Advance(h, Submit(r), key);
            && after.validations == h.validations
            && if CheckOf(h, r, key).Accepted? then
                 && |after.reviews| == |h.reviews| + 1 && h.reviews <= after.reviews
                 && var d := after.reviews[|h.reviews|];
                    && d.id == r.decisionId && d.opportunityId == r.opportunityId && d.status == r.status
                    && AimsAt(r.target, d.opportunityValidationId, key)
               else after.reviews == h.reviews
  {
    if CheckOf(h, r, key).Accepted? { AimsAtIff(r.target, CheckOf(h, r, key).validationId, key); }
  }

  lemma StepHistory(h: Histories, step: Step, key: string, id: string)
    ensures DecisionsOf(h.reviews, id) <= DecisionsOf(Advance(h, step, key).reviews, id)
    ensures ValidationsOf(h.validations, id) <= ValidationsOf(Advance(h, step, key).validations, id)
    ensures if Decides(h, step, key, id)
            then && |DecisionsOf(Advance(h, step, key).reviews, id)| == |DecisionsOf(h.reviews, id)| + 1
                 && LastOf(DecisionsOf(Advance(h, step, key).reviews, id)).value.status == step.request.status
            else DecisionsOf(Advance(h, step, key).reviews, id) == DecisionsOf(h.reviews, id)
  {
    match step
    case Validate(v) => ValidationsAppend(h.validations, v, id);
    case Submit(r) =>
      if CheckOf(h, r, key).Accepted? {
        DecisionsAppend(h.reviews, Decision(r.decisionId, r.opportunityId, CheckOf(h, r, key).validationId, r.status), id);
      }
  }

  lemma {:induction false} HistoriesOnlyGrow(h: Histories, steps: seq<Step>, key: string, id: string)
    ensures DecisionsOf(h.reviews, id) <= DecisionsOf(After(h, steps, key).reviews, id)
    ensures ValidationsOf(h.validations, id) <= ValidationsOf(After(h, steps, key).validations, id)
  {
    if steps != [] {
      HistoriesOnlyGrow(h, steps[..|steps| - 1], key, id);
      StepHistory(After(h, steps[..|steps| - 1], key), steps[|steps| - 1], key, id);
    }
  }

  // ------------------------------------------------------------------ does a terminal decision close the review?

  /** CHANGES_REQUESTED any number of times, then at most one terminal decision. */
  ghost predicate WellReviewed(history: seq<Decision>) {
    forall i :: 0 <= i < |history| - 1 ==> history[i].status == CHANGES_REQUESTED
  }

  /** No decision yet, or the last one asked for changes. */
  predicate ReviewOpen(h: Histories, id: string) {
    var last := LastOf(DecisionsOf(h.reviews, id));
    last.None? || last.value.status == CHANGES_REQUESTED
  }

  /** A decision the command accepts leaves the history well reviewed if and only if the review was open. */
  lemma AcceptedKeepsWellReviewedIff(h: Histories, step: Step, key: string, id: string)
    requires WellReviewed(DecisionsOf(h.reviews, id)) && Decides(h, step, key, id)
    ensures WellReviewed(DecisionsOf(Advance(h, step, key).reviews, id)) <==> ReviewOpen(h, id)
  {
    StepHistory(h, step, key, id);
    var before, after := DecisionsOf(h.reviews, id), DecisionsOf(Advance(h, step, key).reviews, id);
    assert forall i :: 0 <= i < |before| ==> after[i] == before[i];
    if before != [] { assert after[|before| - 1] == before[|before| - 1]; }
  }

  /** Every accepted decision of the opportunity was submitted while its review was open. */
  ghost predicate DecidedWhileOpen(h: Histories, steps: seq<Step>, key: string, id: string) {
    steps != [] ==>
    var before := After(h, steps[..|steps| - 1], key);
    && DecidedWhileOpen(h, steps[..|steps| - 1], key, id)
    && (Decides(before, steps[|steps| - 1], key, id) ==> ReviewOpen(before, id))
  }

  /**
   * Over every run of validations and submitted decisions, an opportunity's history is requests for
   * changes followed by at most one terminal decision if and only if no decision was accepted after a
   * terminal one. The command itself does not see to it.
   */
  lemma {:induction false} WellReviewedIffDecidedWhileOpen(h: Histories, steps: seq<Step>, key: string, id: string)
    requires WellReviewed(DecisionsOf(h.reviews, id))
    ensures WellReviewed(DecisionsOf(After(h, steps, key).reviews, id)) <==> DecidedWhileOpen(h, steps, key, id)
  {
    if steps != [] {
      var front, last := steps[..|steps| - 1], steps[|steps| - 1];
      var before := After(h, front, key);
      WellReviewedIffDecidedWhileOpen(h, front, key, id);
      StepHistory(before, last, key, id);
      if WellReviewed(DecisionsOf(before.reviews, id)) {
        if Decides(before, last, key, id) { AcceptedKeepsWellReviewedIff(before, last, key, id); }
      } else {
        IllReviewedStays(DecisionsOf(before.reviews, id), DecisionsOf(After(h, steps, key).reviews, id));
      }
    }
  }

  lemma IllReviewedStays(shorter: seq<Decision>, longer: seq<Decision>)
    requires shorter <= longer && !WellReviewed(shorter)
    ensures !WellReviewed(longer)
  {
    var i :| 0 <= i < |shorter| - 1 && shorter[i].status != CHANGES_REQUESTED;
    assert longer[i] == shorter[i];
  }

  /**
   * The failing input: one validation, one terminal decision on it. The code is no longer shown, the
   * command still takes it with the current version, and a second decision follows the terminal one.
   */
  lemma ClosedReviewTakesAnotherDecision(v: Validation, d: Decision, decisionId: string, status: DecisionStatus, key: string)
    requires v.validationId != "" && d.opportunityValidationId == v.validationId && d.opportunityId == v.opportunityId
    requires d.status != CHANGES_REQUESTED
    ensures var h := Histories([v], [d]);
            var again := Request(decisionId, v.opportunityId, ByReference(EncodeCode(v.validationId, key)), Some(1), status);
            var after := DecisionsOf(Advance(h, Submit(again), key).reviews, v.opportunityId);
            && Consistent(h) && RefIn(h, v.opportunityId, key).None?
            && WellReviewed(DecisionsOf(h.reviews, v.opportunityId))
            && after == [d, Decision(decisionId, v.opportunityId, v.validationId, status)] && !WellReviewed(after)
  {
    var h := Histories([v], [d]);
    var again := Request(decisionId, v.opportunityId, ByReference(EncodeCode(v.validationId, key)), Some(1), status);
    var more := Decision(decisionId, v.opportunityId, v.validationId, status);
    ClosedReview(v, d, key);
    ClosedReviewAccepts(v, d, again, key);
    DecisionsAppend([d], more, v.opportunityId);
    assert Advance(h, Submit(again), key).reviews == [d] + [more];
    TwoDecisions(d, more);
  }

  lemma TwoDecisions(d: Decision, more: Decision)
    requires d.status != CHANGES_REQUESTED
    ensures [d] + [more] == [d, more] && !WellReviewed([d, more]) && WellReviewed([d])
  {
    assert [d, more][0] == d;
  }

  lemma ClosedReview(v: Validation, d: Decision, key: string)
    requires v.validationId != "" && d.opportunityValidationId == v.validationId && d.opportunityId == v.opportunityId
    requires d.status != CHANGES_REQUESTED
    ensures var h := Histories([v], [d]);
            && Consistent(h) && RefIn(h, v.opportunityId, key).None?
            && DecisionsOf(h.reviews, v.opportunityId) == [d]
  {
    OneIsConsistent(v, d);
    OneOf(v, d, v.opportunityId);
    assert LastOf([d]) == Some(d);
  }

  lemma OneIsConsistent(v: Validation, d: Decision)
    requires v.validationId != "" && d.opportunityValidationId == v.validationId && d.opportunityId == v.opportunityId
    ensures Consistent(Histories([v], [d]))
  {
    assert v in [v];
  }

  lemma OneOf(v: Validation, d: Decision, id: string)
    requires v.opportunityId == d.opportunityId == id
    ensures ValidationsOf([v], id) == [v] && DecisionsOf([d], id) == [d]
  {
    ValidationsAppend([], v, id);
    DecisionsAppend([], d, id);
    assert [] + [v] == [v] && [] + [d] == [d];
  }

  lemma ClosedReviewAccepts(v: Validation, d: Decision, r: Request, key: string)
    requires v.validationId != "" && d.opportunityValidationId == v.validationId && r.opportunityId == v.opportunityId
    requires r.target == ByReference(EncodeCode(v.validationId, key)) && r.version == Some(1)
    ensures CheckOf(Histories([v], [d]), r, key) == Accepted(v.validationId)
  {
    DecodesIff(EncodeCode(v.validationId, key), key, v.validationId);
    assert CountForValidation([d], v.validationId) == 1;
    assert FindValidation([v], v.validationId) == Some(v);
  }

  // ------------------------------------------------------------------ what the shown reference and the version do promise

  /** The request carries the reference and version its opportunity currently shows. */
  predicate AsShown(h: Histories, r: Request, key: string) {
    var shown := RefIn(h, r.opportunityId, key);
    shown.Some? && r.target == ByReference(shown.value.reviewReferenceCode) && r.version == Some(shown.value.reviewVersion)
  }

  ghost predicate SubmitsAsShown(h: Histories, steps: seq<Step>, key: string) {
    steps != [] ==>
    && SubmitsAsShown(h, steps[..|steps| - 1], key)
    && (steps[|steps| - 1].Submit? ==> AsShown(After(h, steps[..|steps| - 1], key), steps[|steps| - 1].request, key))
  }

  /** Clients that submit only what they are currently shown keep every history well reviewed. */
  lemma {:induction false} ShownReferencesKeepWellReviewed(h: Histories, steps: seq<Step>, key: string, id: string)
    requires WellReviewed(DecisionsOf(h.reviews, id)) && SubmitsAsShown(h, steps, key)
    ensures WellReviewed(DecisionsOf(After(h, steps, key).reviews, id))
  {
    if steps != [] {
      var before, last := After(h, steps[..|steps| - 1], key), steps[|steps| - 1];
      ShownReferencesKeepWellReviewed(h, steps[..|steps| - 1], key, id);
      StepHistory(before, last, key, id);
      if Decides(before, last, key, id) { AcceptedKeepsWellReviewedIff(before, last, key, id); }
    }
  }

  /** New validations have new ids. */
  ghost predicate FreshValidations(h: Histories, steps: seq<Step>, key: string) {
    steps != [] ==>
    && FreshValidations(h, steps[..|steps| - 1], key)
    && (steps[|steps| - 1].Validate? ==>
          && steps[|steps| - 1].validation.validationId != ""
          && forall v <- After(h, steps[..|steps| - 1], key).validations :: v.validationId != steps[|steps| - 1].validation.validationId)
  }

  lemma {:induction false} FindValidationFinds(validations: seq<Validation>, validationId: string)
    ensures var v := FindValidation(validations, validationId); v.Some? ==> v.value in validations && v.value.validationId == validationId
  {
    if validations != [] && validations[0].validationId != validationId { FindValidationFinds(validations[1..], validationId); }
  }

  /** Runs of the command keep the histories consistent. */
  lemma {:induction false} RunKeepsConsistent(h: Histories, steps: seq<Step>, key: string)
    requires Consistent(h) && FreshValidations(h, steps, key)
    ensures Consistent(After(h, steps, key))
  {
    if steps != [] {
      var before, last := After(h, steps[..|steps| - 1], key), steps[|steps| - 1];
      RunKeepsConsistent(h, steps[..|steps| - 1], key);
      match last
      case Validate(v) => ValidateKeepsConsistent(before, v);
      case Submit(r) =>
        if CheckOf(before, r, key).Accepted? {
          FindValidationFinds(before.validations, CheckOf(before, r, key).validationId);
        }
    }
  }

  lemma ValidateKeepsConsistent(h: Histories, v: Validation)
    requires Consistent(h) && v.validationId != "" && forall w <- h.validations :: w.validationId != v.validationId
    ensures Consistent(h.(validations := h.validations + [v]))
  {
    forall d | d in h.reviews
      ensures exists w <- h.validations + [v] :: w.validationId == d.opportunityValidationId && w.opportunityId == d.opportunityId
    {
      var w :| w in h.validations && w.validationId == d.opportunityValidationId && w.opportunityId == d.opportunityId;
      assert w in h.validations + [v];
    }
  }

  lemma {:induction false} CountAppend(reviews: seq<Decision>, d: Decision, validationId: string)
    ensures CountForValidation(reviews + [d], validationId) ==
            CountForValidation(reviews, validationId) + if d.opportunityValidationId == validationId then 1 else 0
  {
    assert (reviews + [d])[..|reviews|] == reviews;
  }

  lemma {:induction false} CountsOnlyGrow(h: Histories, steps: seq<Step>, key: string, validationId: string)
    ensures CountForValidation(h.reviews, validationId) <= CountForValidation(After(h, steps, key).reviews, validationId)
    ensures FindValidation(h.validations, validationId).Some? ==>
              FindValidation(After(h, steps, key).validations, validationId) == FindValidation(h.validations, validationId)
  {
    if steps != [] {
      var before, last := After(h, steps[..|steps| - 1], key), steps[|steps| - 1];
      CountsOnlyGrow(h, steps[..|steps| - 1], key, validationId);
      match last
      case Validate(v) =>
        if FindValidation(before.validations, validationId).Some? { FindValidationAppend(before.validations, v, validationId); }
      case Submit(r) =>
        if CheckOf(before, r, key).Accepted? {
          CountAppend(before.reviews, Decision(r.decisionId, r.opportunityId, CheckOf(before, r, key).validationId, r.status), validationId);
        }
    }
  }

  lemma {:induction false} FindValidationAppend(validations: seq<Validation>, v: Validation, validationId: string)
    requires FindValidation(validations, validationId).Some?
    ensures FindValidation(validations + [v], validationId) == FindValidation(validations, validationId)
  {
    assert (validations + [v])[1..] == validations[1..] + [v];
    if validations[0].validationId != validationId { FindValidationAppend(validations[1..], v, validationId); }
  }

  /**
   * Optimistic concurrency: a request that carries the version the command would have accepted
   * earlier is accepted later if and only if no decision on that validation landed in between, and
   * otherwise answered CONFLICT, whatever else happened.
   */
  lemma VersionedRequestAcceptedIffUndecided(h: Histories, steps: seq<Step>, key: string, r: Request)
    requires r.version.Some? && CheckOf(h, r, key).Accepted?
    ensures var later := After(h, steps, key);
            var validationId := CheckOf(h, r, key).validationId;
            CheckOf(later, r, key) ==
            if CountForValidation(later.reviews, validationId) == CountForValidation(h.reviews, validationId)
            then Accepted(validationId) else Conflict
  {
    CountsOnlyGrow(h, steps, key, CheckOf(h, r, key).validationId);
  }

  // ------------------------------------------------------------------ how long a reference stays current

  /**
   * A reference shown once stays the current one exactly as long as no decision was recorded for
   * its opportunity and the latest validation is still a VALIDATED one with the same id.
   */
  lemma ReferenceStaysCurrentIff(h: Histories, steps: seq<Step>, key: string, id: string)
    requires RefIn(h, id, key).Some?
    ensures var later := After(h, steps, key);
            RefIn(later, id, key) == RefIn(h, id, key) <==>
              && DecisionsOf(later.reviews, id) == DecisionsOf(h.reviews, id)
              && var v := LastOf(ValidationsOf(later.validations, id));
                 v.Some? && v.value.status == VALIDATED
                 && v.value.validationId == LastOf(ValidationsOf(h.validations, id)).value.validationId
  {
    HistoriesOnlyGrow(h, steps, key, id);
    var later := After(h, steps, key);
    var v, w := LastOf(ValidationsOf(h.validations, id)), LastOf(ValidationsOf(later.validations, id));
    if w.Some? { EncodeIsInjective(v.value.validationId, w.value.validationId, key); }
  }

  lemma EncodeIsInjective(a: string, b: string, key: string)
    ensures EncodeCode(a, key) == EncodeCode(b, key) <==> a == b
  {
    if EncodeCode(a, key) == EncodeCode(b, key) {
      CodeSplits(Wrap(a), key);
      CodeSplits(Wrap(b), key);
      assert Wrap(a) == Wrap(b);
      assert a != "" ==> Wrap(a)[0] == Enc(a);
      assert b != "" ==> Wrap(b)[0] == Enc(b);
    }
  }
}
