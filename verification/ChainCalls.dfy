/**
 * The calls and the records of the business chain, one against the other: what each call stores,
 * when it stores nothing, and over every run that the collections and the audit log hold exactly
 * what the permitted calls put there, in order.
 */
module ChainCalls {
  import opened Options
  import opened Picks
  import opened Roles
  import opened Texts
  import opened Authorization
  import opened BusinessChain

  // ------------------------------------------------------------------ what a call asks for

  /** The thirteen collections. */
  datatype Kind =
    | OfKnowledge | OfOpportunity | OfValidation | OfDecision | OfFamily | OfBrief | OfContent
    | OfDraft | OfApproval | OfPackage | OfNeutral | OfPlan | OfReceipt

  function KindOf(c: Command): Kind {
    match c
    case CreateKnowledgePackage(_, _, _) => OfKnowledge
    case CreateOpportunity(_, _, _) => OfOpportunity
    case ValidateOpportunity(_, _, _) => OfValidation
    case Decide(_, _, _, _) => OfDecision
    case CreateFamily(_, _) => OfFamily
    case CreateBrief(_, _, _, _, _) => OfBrief
    case RecordContent(_, _) => OfContent
    case CompileDraft(_, _) => OfDraft
    case ApproveArticle(_, _, _, _, _) => OfApproval
    case CreatePublishPackage(_, _) => OfPackage
    case CreateNeutralPackage(_, _) => OfNeutral
    case CreatePlan(_, _, _) => OfPlan
    case RecordReceipt(_, _, _) => OfReceipt
  }

  /** Intake: the record carries the call's id and arguments, and the tenant and ids of the upstream value. */
  predicate IsIntakeRecord(id: string, c: Command, r: Record) {
    match c
    case CreateKnowledgePackage(tenant, title, version) =>
      && r.KnowledgeRecord?
      && var k := r.knowledge; k.id == id && k.tenant == tenant && k.title == title && k.version == version
    case CreateOpportunity(m, k, keyword) =>
      && r.OpportunityRecord?
      && var o := r.opportunity;
         o.id == id && o.tenant == k.tenant && o.keywordMapId == m.id && o.keyword == keyword
         && o.groundingPackageId == k.id && o.groundingPackageVersion == k.version
    case ValidateOpportunity(o, p, note) =>
      && r.ValidationRecord?
      && var v := r.validation;
         v.id == id && v.tenant == o.tenant && v.opportunityId == o.id && v.industryProfileId == p.id
         && v.gateLevelApplied == p.gateLevel && v.reasonNote == note
    case Decide(v, verdict, reviewer, note) =>
      && r.DecisionRecord?
      && var d := r.decision;
         d.id == id && d.tenant == v.tenant && d.validationId == v.id && d.opportunityId == v.opportunityId
         && d.verdict == verdict && d.reviewerId == reviewer
         && (d.verdict == Approved ==> d.note.None?) && (d.verdict != Approved ==> d.note == Some(note))
    case _ => true
  }

  /** Writing: family to approval. */
  predicate IsWritingRecord(id: string, c: Command, r: Record) {
    match c
    case CreateFamily(owner, members) =>
      r.FamilyRecord? && r.family.id == id && r.family.tenant == owner && r.family.members == members
    case CreateBrief(f, keywords, risk, title, outline) =>
      && r.BriefRecord?
      && var b := r.brief;
         b.id == id && b.tenant == f.tenant && b.familyId == f.id && b.targetKeywords == keywords
         && b.riskLevel == risk && b.workingTitle == title && b.outline == outline
         && |b.authorizingDecisionIds| == |f.members|
         && forall i :: 0 <= i < |f.members| ==> b.authorizingDecisionIds[i] == f.members[i].authorizingDecisionId
    case RecordContent(b, envelope) =>
      && r.ContentRecord?
      && var x := r.content; x.id == id && x.tenant == b.tenant && x.briefId == b.id && x.envelopeId == envelope
    case CompileDraft(b, contents) =>
      && r.DraftRecord?
      && var d := r.draft;
         d.id == id && d.tenant == b.tenant && d.briefId == b.id && d.title == b.workingTitle && d.headings == b.outline
         && |d.sourceContentIds| == |contents|
         && forall i :: 0 <= i < |contents| ==> d.sourceContentIds[i] == contents[i].id
    case ApproveArticle(d, approver, quality, platform, vertical) =>
      && r.ApprovalRecord?
      && var a := r.approval;
         a.id == id && a.tenant == d.tenant && a.draftId == d.id && a.approverId == approver
         && a.qualityGateId == quality.id && a.platformGateId == platform.id && a.verticalGateId == vertical.id
    case _ => true
  }

  /** Publication: package to receipt. */
  predicate IsPublicationRecord(id: string, c: Command, r: Record) {
    match c
    case CreatePublishPackage(a, d) =>
      && r.PackageRecord?
      && var p := r.package; p.id == id && p.tenant == a.tenant && p.approvalId == a.id && p.draftId == d.id && p.title == d.title
    case CreateNeutralPackage(p, blocks) =>
      && r.NeutralRecord?
      && var n := r.neutral;
         n.id == id && n.tenant == p.tenant && n.publishPackageId == p.id && n.blocks == blocks && n.targetChannelIds == []
    case CreatePlan(n, channels, selectedBy) =>
      && r.PlanRecord?
      && var p := r.plan;
         p.id == id && p.tenant == n.tenant && p.neutralPackageId == n.id && p.channelIds == channels && p.selectedByActorId == selectedBy
    case RecordReceipt(p, channel, actorId) =>
      && r.ReceiptRecord?
      && var x := r.receipt;
         x.id == id && x.tenant == p.tenant && x.planId == p.id && x.channelId == channel && x.publishedByActorId == actorId
    case _ => true
  }

  /** The record is the call's: its id and arguments, and the tenant and ids of the upstream values it was given. */
  predicate IsRecordOf(call: Call, r: Record) {
    && IsIntakeRecord(call.id, call.command, r) && IsWritingRecord(call.id, call.command, r)
    && IsPublicationRecord(call.id, call.command, r)
  }

  /** The reasons a permitted call throws: no contents or another brief's, another draft's approval, a foreign channel or an automatic actor. */
  predicate Throws(c: Command) {
    match c
    case CompileDraft(b, contents) => contents == [] || exists x <- contents :: x.briefId != b.id
    case CreatePublishPackage(a, d) => a.draftId != d.id
    case RecordReceipt(p, channel, actorId) =>
      channel !in p.channelIds || Lower(Trim(actorId)) in ["system", "auto", "automated", "automatic", ""]
    case _ => false
  }

  /** The actor reaches the client of the value the call works on. */
  predicate HasAccess(call: Call) {
    CanAccessClientOrganization(call.actor, Target(call.command).clientOrganizationId)
  }

  predicate Stores(call: Call) {
    HasAccess(call) && !Throws(call.command)
  }

  /** The records of a collection, in insertion order. */
  function Stored(s: Chain, k: Kind): seq<Record> {
    match k
    case OfKnowledge => seq(|s.knowledge|, i requires 0 <= i < |s.knowledge| => KnowledgeRecord(s.knowledge[i]))
    case OfOpportunity => seq(|s.opportunities|, i requires 0 <= i < |s.opportunities| => OpportunityRecord(s.opportunities[i]))
    case OfValidation => seq(|s.validations|, i requires 0 <= i < |s.validations| => ValidationRecord(s.validations[i]))
    case OfDecision => seq(|s.decisions|, i requires 0 <= i < |s.decisions| => DecisionRecord(s.decisions[i]))
    case OfFamily => seq(|s.families|, i requires 0 <= i < |s.families| => FamilyRecord(s.families[i]))
    case OfBrief => seq(|s.briefs|, i requires 0 <= i < |s.briefs| => BriefRecord(s.briefs[i]))
    case OfContent => seq(|s.contents|, i requires 0 <= i < |s.contents| => ContentRecord(s.contents[i]))
    case OfDraft => seq(|s.drafts|, i requires 0 <= i < |s.drafts| => DraftRecord(s.drafts[i]))
    case OfApproval => seq(|s.approvals|, i requires 0 <= i < |s.approvals| => ApprovalRecord(s.approvals[i]))
    case OfPackage => seq(|s.packages|, i requires 0 <= i < |s.packages| => PackageRecord(s.packages[i]))
    case OfNeutral => seq(|s.neutrals|, i requires 0 <= i < |s.neutrals| => NeutralRecord(s.neutrals[i]))
    case OfPlan => seq(|s.plans|, i requires 0 <= i < |s.plans| => PlanRecord(s.plans[i]))
    case OfReceipt => seq(|s.receipts|, i requires 0 <= i < |s.receipts| => ReceiptRecord(s.receipts[i]))
  }

  // ------------------------------------------------------------------ one call

  lemma BuildsItsRecord(call: Call)
    ensures Build(call.id, call.command).None? <==> Throws(call.command)
    ensures Build(call.id, call.command).Some? ==> IsRecordOf(call, Build(call.id, call.command).value)
  {
    match call.command
    case CompileDraft(_, _) =>
    case RecordReceipt(_, _, _) =>
    case _ =>
  }

  /** The collection of its kind takes the record at its end. */
  lemma StoreExtends(s: Chain, r: Record, call: Call)
    requires IsRecordOf(call, r)
    ensures Stored(Store(s, r), KindOf(call.command)) == Stored(s, KindOf(call.command)) + [r]
  {
  }

  /** The twelve others and the audit log stay. */
  lemma StoreLeavesOthers(s: Chain, r: Record, call: Call, k: Kind)
    requires IsRecordOf(call, r) && k != KindOf(call.command)
    ensures Stored(Store(s, r), k) == Stored(s, k)
  {
  }

  lemma StoreLeavesAudit(s: Chain, r: Record)
    ensures Store(s, r).audit == s.audit
  {
  }

  /**
   * One call: denied exactly without access to its value's client, thrown exactly for the named
   * reasons, and otherwise it stores its own record at the end of its own collection.
   */
  lemma CallStoresItsRecord(s: Chain, call: Call, k: Kind)
    ensures var (after, result) := Perform(s, call);
            && (result.Denied? <==> !HasAccess(call))
            && (result.Threw? <==> HasAccess(call) && Throws(call.command))
            && (result.Made? ==>
                  && IsRecordOf(call, result.record)
                  && Stored(after, k) == Stored(s, k) + if k == KindOf(call.command) then [result.record] else [])
            && (!result.Made? ==> after == s)
  {
    BuildsItsRecord(call);
    if Stores(call) {
      var r := Build(call.id, call.command).value;
      if k == KindOf(call.command) { StoreExtends(s, r, call); } else { StoreLeavesOthers(s, r, call, k); }
      assert Stored(Perform(s, call).0, k) == Stored(Store(s, r), k);
    }
  }

  /** What a call does to one collection. */
  lemma CallExtends(s: Chain, call: Call, k: Kind)
    ensures var (before, after) := (Stored(s, k), Stored(Perform(s, call).0, k));
            if Stores(call) && KindOf(call.command) == k then exists r :: IsRecordOf(call, r) && after == before + [r]
            else after == before
  {
    CallStoresItsRecord(s, call, k);
    if Stores(call) && KindOf(call.command) == k {
      var r := Perform(s, call).1.record;
      assert IsRecordOf(call, r);
    } else if Stores(call) {
      assert Stored(s, k) + [] == Stored(s, k);
    }
  }

  // ------------------------------------------------------------------ runs: the collections

  /** The positions of the run's permitted, well-formed calls of a kind. */
  function StoringCalls(calls: seq<Call>, k: Kind): set<int> {
    set i | 0 <= i < |calls| && KindOf(calls[i].command) == k && Stores(calls[i])
  }

  /** Each picked call's own record, one against one. */
  ghost predicate RecordsOf(picks: seq<int>, calls: seq<Call>, records: seq<Record>) {
    |picks| == |records| && forall i :: 0 <= i < |picks| ==> 0 <= picks[i] < |calls| && IsRecordOf(calls[picks[i]], records[i])
  }

  lemma RecordsOfMore(picks: seq<int>, calls: seq<Call>, records: seq<Record>, call: Call)
    requires RecordsOf(picks, calls, records)
    ensures RecordsOf(picks, calls + [call], records)
    ensures forall r :: IsRecordOf(call, r) ==> RecordsOf(picks + [|calls|], calls + [call], records + [r])
  {
    var all := calls + [call];
    assert forall i :: 0 <= i < |picks| ==> all[picks[i]] == calls[picks[i]];
    assert all[|calls|] == call;
  }

  /**
   * After any run from the empty repository, each collection holds exactly one record for each
   * permitted, well-formed call of its kind, the call's own, in the order of the calls.
   */
  lemma {:induction false} RunStoresExactly(calls: seq<Call>, k: Kind) returns (picks: seq<int>)
    ensures InOrder(picks, StoringCalls(calls, k)) && RecordsOf(picks, calls, Stored(After(EMPTY, calls), k))
  {
    picks := [];
    if calls != [] {
      var n := |calls| - 1;
      var front := calls[..n];
      var before := RunStoresExactly(front, k);
      var records := Stored(After(EMPTY, front), k);
      CallExtends(After(EMPTY, front), calls[n], k);
      StoringOneMore(calls, k);
      RecordsOfMore(before, front, records, calls[n]);
      assert front + [calls[n]] == calls;
      picks := before;
      if n in StoringCalls(calls, k) {
        OneMore(before, StoringCalls(front, k), n);
        picks := before + [n];
      } else {
        assert Stored(After(EMPTY, calls), k) == records;
      }
    }
  }

  lemma StoringOneMore(calls: seq<Call>, k: Kind)
    requires calls != []
    ensures var n := |calls| - 1;
            StoringCalls(calls, k) == StoringCalls(calls[..n], k) + if KindOf(calls[n].command) == k && Stores(calls[n]) then {n} else {}
  {
  }

  /** The run's permitted decisions of a verdict, as calls and as stored records. */
  function DecideCalls(calls: seq<Call>, verdict: Verdict): seq<Call> {
    if calls == [] then []
    else
      var last := calls[|calls| - 1];
      DecideCalls(calls[..|calls| - 1], verdict)
      + if last.command.Decide? && last.command.verdict == verdict && HasAccess(last) then [last] else []
  }

  function DecisionsOf(decisions: seq<Decision>, verdict: Verdict): seq<Decision> {
    if decisions == [] then []
    else
      var last := decisions[|decisions| - 1];
      DecisionsOf(decisions[..|decisions| - 1], verdict) + if last.verdict == verdict then [last] else []
  }

  /** The decision the call asks for: on its validation, by its reviewer, with its verdict and, unless approved, its note. */
  predicate Decided(call: Call, d: Decision) {
    && call.command.Decide?
    && d.id == call.id && d.tenant == call.command.validation.tenant && d.validationId == call.command.validation.id
    && d.opportunityId == call.command.validation.opportunityId && d.verdict == call.command.verdict
    && d.reviewerId == call.command.reviewerId
    && d.note == if call.command.verdict == Approved then None else Some(call.command.note)
  }

  /**
   * After any run, the stored decisions of a verdict are exactly those of the permitted calls with
   * that verdict, in order, each with the call's validation, reviewer and note.
   */
  lemma {:induction false} DecisionsAreTheCalls(calls: seq<Call>, verdict: Verdict)
    ensures var stored := DecisionsOf(After(EMPTY, calls).decisions, verdict);
            && |stored| == |DecideCalls(calls, verdict)|
            && forall i :: 0 <= i < |stored| ==> Decided(DecideCalls(calls, verdict)[i], stored[i])
  {
    if calls != [] {
      var n := |calls| - 1;
      var before := After(EMPTY, calls[..n]);
      DecisionsAreTheCalls(calls[..n], verdict);
      CallDecides(before, calls[n]);
      var after := After(EMPTY, calls);
      if after.decisions != before.decisions {
        assert after.decisions[..|after.decisions| - 1] == before.decisions;
      }
    }
  }

  lemma CallDecides(s: Chain, call: Call)
    ensures var after := Perform(s, call).0;
            if call.command.Decide? && HasAccess(call)
            then && |after.decisions| == |s.decisions| + 1 && s.decisions <= after.decisions
                 && Decided(call, after.decisions[|s.decisions|])
            else after.decisions == s.decisions
  {
  }

  // ------------------------------------------------------------------ runs: the audit log

  /** What the audit log says of a call: its action and the type of its target. None for a call that is not audited. */
  function AuditedAs(c: Command): Option<(Action, string)> {
    match c
    case CreateKnowledgePackage(_, _, _) => Some((KnowledgePackageCreated, "KnowledgePackage"))
    case CreateOpportunity(_, _, _) => Some((OpportunityCreated, "Opportunity"))
    case Decide(_, Approved, _, _) => Some((HumanReviewConfirmed, "HumanReviewDecision"))
    case Decide(_, ChangesRequested, _, _) => Some((HumanReviewChangesRequested, "HumanReviewDecision"))
    case Decide(_, Rejected, _, _) => Some((HumanReviewRejected, "HumanReviewDecision"))
    case ApproveArticle(_, _, _, _, _) => Some((ArticleApproved, "ArticleApproval"))
    case CreatePublishPackage(_, _) => Some((PublishPackageCreated, "PublishPackage"))
    case RecordReceipt(_, _, _) => Some((PublicationReceiptRecorded, "PublicationReceipt"))
    case _ => None
  }

  /** The event names the call's own actor, the client and project it worked on, its action and its record's id. */
  predicate IsEventOf(call: Call, e: AuditEvent) {
    && AuditedAs(call.command) == Some((e.action, e.targetType))
    && e.organizationId == call.actor.organizationId && e.actorUserId == call.actor.actorUserId
    && e.tenant == Target(call.command) && e.targetId == call.id
  }

  lemma CallAudits(s: Chain, call: Call)
    ensures var after := Perform(s, call).0;
            if Stores(call) && AuditedAs(call.command).Some?
            then && |after.audit| == |s.audit| + 1 && s.audit <= after.audit
                 && IsEventOf(call, after.audit[|s.audit|])
            else after.audit == s.audit
  {
    BuildsItsRecord(call);
    if Stores(call) { StoreLeavesAudit(s, Build(call.id, call.command).value); }
  }

  function AuditedCalls(calls: seq<Call>): set<int> {
    set i | 0 <= i < |calls| && Stores(calls[i]) && AuditedAs(calls[i].command).Some?
  }

  /** After any run, the audit log is one event for each permitted, well-formed, audited call, the call's own, in order. */
  lemma {:induction false} RunAuditsExactly(calls: seq<Call>) returns (picks: seq<int>)
    ensures InOrder(picks, AuditedCalls(calls)) && |picks| == |After(EMPTY, calls).audit|
    ensures forall i :: 0 <= i < |picks| ==>
              0 <= picks[i] < |calls| && IsEventOf(calls[picks[i]], After(EMPTY, calls).audit[i])
  {
    picks := [];
    if calls != [] {
      var n := |calls| - 1;
      var front := calls[..n];
      var before := RunAuditsExactly(front);
      CallAudits(After(EMPTY, front), calls[n]);
      AuditedOneMore(calls);
      picks := before;
      if n in AuditedCalls(calls) {
        OneMore(before, AuditedCalls(front), n);
        picks := before + [n];
      }
      forall i | 0 <= i < |picks| ensures 0 <= picks[i] < |calls| && IsEventOf(calls[picks[i]], After(EMPTY, calls).audit[i]) {
        if i < |before| { assert front[picks[i]] == calls[picks[i]]; }
      }
    }
  }

  lemma AuditedOneMore(calls: seq<Call>)
    requires calls != []
    ensures var n := |calls| - 1;
            AuditedCalls(calls) ==
            AuditedCalls(calls[..n]) + if Stores(calls[n]) && AuditedAs(calls[n].command).Some? then {n} else {}
  {
  }
}
