/**
 * What every run of business-chain calls keeps: tenants do not mix, every record's upstream exists
 * with the same tenant, and the audit log is the exact trail of the audited records.
 */
module ChainInvariants {
  import opened Roles
  import opened Authorization
  import opened BusinessChain

  // ------------------------------------------------------------------ tenant framing

  function TenantOfKnowledge(x: KnowledgePackage): Tenant { x.tenant }
  function TenantOfOpportunity(x: Opportunity): Tenant { x.tenant }
  function TenantOfValidation(x: Validation): Tenant { x.tenant }
  function TenantOfDecision(x: Decision): Tenant { x.tenant }
  function TenantOfFamily(x: Family): Tenant { x.tenant }
  function TenantOfBrief(x: Brief): Tenant { x.tenant }
  function TenantOfContent(x: Content): Tenant { x.tenant }
  function TenantOfDraft(x: Draft): Tenant { x.tenant }
  function TenantOfApproval(x: Approval): Tenant { x.tenant }
  function TenantOfPackage(x: PublishPackage): Tenant { x.tenant }
  function TenantOfNeutral(x: NeutralPackage): Tenant { x.tenant }
  function TenantOfPlan(x: Plan): Tenant { x.tenant }
  function TenantOfReceipt(x: Receipt): Tenant { x.tenant }
  function TenantOfEvent(x: AuditEvent): Tenant { x.tenant }

  /** Nothing was removed or changed, and whatever was added belongs to other clients. */
  ghost predicate Framed<T>(before: seq<T>, after: seq<T>, tenantOf: T -> Tenant, client: string) {
    && before <= after
    && forall i :: |before| <= i < |after| ==> tenantOf(after[i]).clientOrganizationId != client
  }

  ghost predicate SameFor(client: string, s: Chain, t: Chain) {
    && Framed(s.knowledge, t.knowledge, TenantOfKnowledge, client)
    && Framed(s.opportunities, t.opportunities, TenantOfOpportunity, client)
    && Framed(s.validations, t.validations, TenantOfValidation, client)
    && Framed(s.decisions, t.decisions, TenantOfDecision, client)
    && Framed(s.families, t.families, TenantOfFamily, client)
    && Framed(s.briefs, t.briefs, TenantOfBrief, client)
    && Framed(s.contents, t.contents, TenantOfContent, client)
    && Framed(s.drafts, t.drafts, TenantOfDraft, client)
    && Framed(s.approvals, t.approvals, TenantOfApproval, client)
    && Framed(s.packages, t.packages, TenantOfPackage, client)
    && Framed(s.neutrals, t.neutrals, TenantOfNeutral, client)
    && Framed(s.plans, t.plans, TenantOfPlan, client)
    && Framed(s.receipts, t.receipts, TenantOfReceipt, client)
    && Framed(s.audit, t.audit, TenantOfEvent, client)
  }

  lemma FramedAppend<T>(before: seq<T>, after: seq<T>, x: T, tenantOf: T -> Tenant, client: string)
    requires Framed(before, after, tenantOf, client) && tenantOf(x).clientOrganizationId != client
    ensures Framed(before, after + [x], tenantOf, client)
  {
  }

  lemma StoreIsFramed(s: Chain, t: Chain, r: Record, client: string)
    requires SameFor(client, s, t) && TenantOf(r).clientOrganizationId != client
    ensures SameFor(client, s, Store(t, r))
  {
    match r
    case KnowledgeRecord(x) => FramedAppend(s.knowledge, t.knowledge, x, TenantOfKnowledge, client);
    case OpportunityRecord(x) => FramedAppend(s.opportunities, t.opportunities, x, TenantOfOpportunity, client);
    case ValidationRecord(x) => FramedAppend(s.validations, t.validations, x, TenantOfValidation, client);
    case DecisionRecord(x) => FramedAppend(s.decisions, t.decisions, x, TenantOfDecision, client);
    case FamilyRecord(x) => FramedAppend(s.families, t.families, x, TenantOfFamily, client);
    case BriefRecord(x) => FramedAppend(s.briefs, t.briefs, x, TenantOfBrief, client);
    case ContentRecord(x) => FramedAppend(s.contents, t.contents, x, TenantOfContent, client);
    case DraftRecord(x) => FramedAppend(s.drafts, t.drafts, x, TenantOfDraft, client);
    case ApprovalRecord(x) => FramedAppend(s.approvals, t.approvals, x, TenantOfApproval, client);
    case PackageRecord(x) => FramedAppend(s.packages, t.packages, x, TenantOfPackage, client);
    case NeutralRecord(x) => FramedAppend(s.neutrals, t.neutrals, x, TenantOfNeutral, client);
    case PlanRecord(x) => FramedAppend(s.plans, t.plans, x, TenantOfPlan, client);
    case ReceiptRecord(x) => FramedAppend(s.receipts, t.receipts, x, TenantOfReceipt, client);
  }

  /** A built record belongs to the tenant whose access was asserted. */
  lemma BuiltInTarget(id: string, c: Command)
    ensures Build(id, c).Some? ==> TenantOf(Build(id, c).value) == Target(c)
  {
  }

  /**
   * Whatever values the calls carry, a run by actors who cannot access a client leaves every record
   * and every audit event of that client as it was, and adds none.
   */
  lemma {:induction false} RunStaysInTenant(s: Chain, calls: seq<Call>, client: string)
    requires forall i :: 0 <= i < |calls| ==> !CanAccessClientOrganization(calls[i].actor, client)
    ensures SameFor(client, s, After(s, calls))
  {
    if calls != [] {
      var front, call := calls[..|calls| - 1], calls[|calls| - 1];
      RunStaysInTenant(s, front, client);
      var before := After(s, front);
      BuiltInTarget(call.id, call.command);
      if Perform(before, call).1.Made? {
        var r := Perform(before, call).1.record;
        StoreIsFramed(s, before, r, client);
        var events := WithEvent(before.audit, call.actor, r);
        if events != before.audit { FramedAppend(s.audit, before.audit, events[|before.audit|], TenantOfEvent, client); }
      }
    }
  }

  // ------------------------------------------------------------------ upstream records

  /** The upstream values of the call are recorded ones. */
  predicate Recorded(s: Chain, c: Command) {
    match c
    case CreateKnowledgePackage(_, _, _) => true
    case CreateOpportunity(_, k, _) => k in s.knowledge
    case ValidateOpportunity(o, _, _) => o in s.opportunities
    case Decide(v, _, _, _) => v in s.validations
    case CreateFamily(_, _) => true
    case CreateBrief(f, _, _, _, _) => f in s.families
    case RecordContent(b, _) => b in s.briefs
    case CompileDraft(b, contents) => b in s.briefs && forall i :: 0 <= i < |contents| ==> contents[i] in s.contents
    case ApproveArticle(d, _, _, _, _) => d in s.drafts
    case CreatePublishPackage(a, d) => a in s.approvals && d in s.drafts
    case CreateNeutralPackage(p, _) => p in s.packages
    case CreatePlan(n, _, _) => n in s.neutrals
    case RecordReceipt(p, _, _) => p in s.plans
  }

  /** Every downstream record has an upstream one it is linked to. */
  ghost predicate Refers<D, U>(down: seq<D>, up: seq<U>, link: (D, U) -> bool) {
    forall d <- down :: exists u <- up :: link(d, u)
  }

  lemma RefersUp<D, U>(down: seq<D>, up: seq<U>, u: U, link: (D, U) -> bool)
    requires Refers(down, up, link)
    ensures Refers(down, up + [u], link)
  {
    forall d | d in down ensures exists v <- up + [u] :: link(d, v) {
      var v :| v in up && link(d, v);
      assert v in up + [u];
    }
  }

  lemma RefersDown<D, U>(down: seq<D>, up: seq<U>, d: D, u: U, link: (D, U) -> bool)
    requires Refers(down, up, link) && u in up && link(d, u)
    ensures Refers(down + [d], up, link)
  {
  }

  ghost predicate Distinct<T>(s: seq<T>, idOf: T -> string) {
    forall x, y :: x in s && y in s && idOf(x) == idOf(y) ==> x == y
  }

  ghost predicate Fresh<T>(s: seq<T>, idOf: T -> string, id: string) {
    forall x <- s :: idOf(x) != id
  }

  function BriefId(x: Brief): string { x.id }
  function DraftId(x: Draft): string { x.id }
  function PackageId(x: PublishPackage): string { x.id }
  function NeutralId(x: NeutralPackage): string { x.id }
  function PlanId(x: Plan): string { x.id }

  /** Ids are random UUIDs. */
  ghost predicate FreshId(s: Chain, id: string) {
    && Fresh(s.briefs, BriefId, id) && Fresh(s.drafts, DraftId, id) && Fresh(s.packages, PackageId, id)
    && Fresh(s.neutrals, NeutralId, id) && Fresh(s.plans, PlanId, id)
  }

  predicate GroundedIn(o: Opportunity, k: KnowledgePackage) {
    o.groundingPackageId == k.id && o.groundingPackageVersion == k.version && o.tenant == k.tenant
  }

  predicate Validates(v: Validation, o: Opportunity) { v.opportunityId == o.id && v.tenant == o.tenant }

  predicate Decides(d: Decision, v: Validation) {
    d.validationId == v.id && d.opportunityId == v.opportunityId && d.tenant == v.tenant
  }

  predicate Briefs(b: Brief, f: Family) {
    b.familyId == f.id && b.authorizingDecisionIds == DecisionIds(f.members) && b.tenant == f.tenant
  }

  predicate Answers(c: Content, b: Brief) { c.briefId == b.id && c.tenant == b.tenant }

  predicate Compiles(d: Draft, b: Brief) {
    d.briefId == b.id && d.title == b.workingTitle && d.headings == b.outline && d.tenant == b.tenant
    && d.sourceContentIds != []
  }

  predicate Approves(a: Approval, d: Draft) { a.draftId == d.id && a.tenant == d.tenant }

  predicate PackagedUnder(p: PublishPackage, a: Approval) {
    p.approvalId == a.id && p.draftId == a.draftId && p.tenant == a.tenant
  }

  predicate PackagesDraft(p: PublishPackage, d: Draft) { p.draftId == d.id && p.title == d.title && p.tenant == d.tenant }

  predicate Neutralizes(n: NeutralPackage, p: PublishPackage) { n.publishPackageId == p.id && n.tenant == p.tenant }

  predicate Distributes(p: Plan, n: NeutralPackage) { p.neutralPackageId == n.id && p.tenant == n.tenant }

  predicate Executes(r: Receipt, p: Plan) {
    r.planId == p.id && r.channelId in p.channelIds && r.tenant == p.tenant && !AutomaticActor(r.publishedByActorId)
  }

  /** A draft's sources are contents of its own brief and tenant. */
  ghost predicate SourceIn(contents: seq<Content>, d: Draft, sourceId: string) {
    exists c <- contents :: c.id == sourceId && c.briefId == d.briefId && c.tenant == d.tenant
  }

  ghost predicate SourcesIn(contents: seq<Content>, drafts: seq<Draft>) {
    forall d <- drafts :: forall i :: 0 <= i < |d.sourceContentIds| ==> SourceIn(contents, d, d.sourceContentIds[i])
  }

  lemma SourcesUp(contents: seq<Content>, drafts: seq<Draft>, c: Content)
    requires SourcesIn(contents, drafts)
    ensures SourcesIn(contents + [c], drafts)
  {
    forall d, i | d in drafts && 0 <= i < |d.sourceContentIds| ensures SourceIn(contents + [c], d, d.sourceContentIds[i]) {
      assert SourceIn(contents, d, d.sourceContentIds[i]);
      var x :| x in contents && x.id == d.sourceContentIds[i] && x.briefId == d.briefId && x.tenant == d.tenant;
      assert x in contents + [c];
    }
  }

  /** Opportunity to decision. */
  ghost predicate IntakeLinks(s: Chain) {
    && Refers(s.opportunities, s.knowledge, GroundedIn)
    && Refers(s.validations, s.opportunities, Validates)
    && Refers(s.decisions, s.validations, Decides)
  }

  /** Brief to draft. */
  ghost predicate WritingLinks(s: Chain) {
    && Refers(s.briefs, s.families, Briefs)
    && Refers(s.contents, s.briefs, Answers)
    && Refers(s.drafts, s.briefs, Compiles)
    && SourcesIn(s.contents, s.drafts)
  }

  /** Approval to publish package. */
  ghost predicate PackagingLinks(s: Chain) {
    && Refers(s.approvals, s.drafts, Approves)
    && Refers(s.packages, s.approvals, PackagedUnder)
    && Refers(s.packages, s.drafts, PackagesDraft)
  }

  /** Neutral package to receipt. */
  ghost predicate PublicationLinks(s: Chain) {
    && Refers(s.neutrals, s.packages, Neutralizes)
    && Refers(s.plans, s.neutrals, Distributes)
    && Refers(s.receipts, s.plans, Executes)
  }

  /** Every record names recorded upstream records of its own tenant. */
  ghost predicate Linked(s: Chain) {
    IntakeLinks(s) && WritingLinks(s) && PackagingLinks(s) && PublicationLinks(s)
  }

  ghost predicate UniqueIds(s: Chain) {
    && Distinct(s.briefs, BriefId) && Distinct(s.drafts, DraftId) && Distinct(s.packages, PackageId)
    && Distinct(s.neutrals, NeutralId) && Distinct(s.plans, PlanId)
  }

  ghost predicate Sound(s: Chain) {
    Linked(s) && UniqueIds(s)
  }

  lemma EmptyIsSound()
    ensures Sound(EMPTY)
  {
  }

  /** The contents a draft is compiled from share the brief's tenant, because they name the brief. */
  lemma DraftSources(s: Chain, b: Brief, contents: seq<Content>, d: Draft)
    requires Sound(s) && b in s.briefs
    requires forall i :: 0 <= i < |contents| ==> contents[i] in s.contents && contents[i].briefId == b.id
    requires d.sourceContentIds == Ids(contents) && d.briefId == b.id && d.tenant == b.tenant
    ensures SourcesIn(s.contents, s.drafts + [d])
  {
    forall i | 0 <= i < |d.sourceContentIds| ensures SourceIn(s.contents, d, d.sourceContentIds[i]) {
      var c := contents[i];
      var other :| other in s.briefs && Answers(c, other);
      assert BriefId(other) == BriefId(b);
    }
  }

  /** The draft handed to the package is the one the approval names, so it has the approval's tenant. */
  lemma ApprovedDraftTenant(s: Chain, a: Approval, d: Draft)
    requires Sound(s) && a in s.approvals && d in s.drafts && a.draftId == d.id
    ensures a.tenant == d.tenant
  {
    var other :| other in s.drafts && Approves(a, other);
    assert DraftId(other) == DraftId(d);
  }

  lemma DistinctAppend<T>(s: seq<T>, x: T, idOf: T -> string)
    requires Distinct(s, idOf) && Fresh(s, idOf, idOf(x))
    ensures Distinct(s + [x], idOf)
  {
  }

  /** The built record carries the call's id. */
  lemma BuiltWithId(id: string, c: Command)
    requires Build(id, c).Some?
    ensures match Build(id, c).value
            case BriefRecord(x) => x.id == id
            case DraftRecord(x) => x.id == id
            case PackageRecord(x) => x.id == id
            case NeutralRecord(x) => x.id == id
            case PlanRecord(x) => x.id == id
            case _ => true
  {
  }

  lemma StoreKeepsUnique(s: Chain, id: string, c: Command)
    requires UniqueIds(s) && FreshId(s, id) && Build(id, c).Some?
    ensures UniqueIds(Store(s, Build(id, c).value))
  {
    BuiltWithId(id, c);
    var r := Build(id, c).value;
    if r.BriefRecord? { DistinctAppend(s.briefs, r.brief, BriefId); }
    if r.DraftRecord? { DistinctAppend(s.drafts, r.draft, DraftId); }
    if r.PackageRecord? { DistinctAppend(s.packages, r.package, PackageId); }
    if r.NeutralRecord? { DistinctAppend(s.neutrals, r.neutral, NeutralId); }
    if r.PlanRecord? { DistinctAppend(s.plans, r.plan, PlanId); }
    StoreKeepsOthersUnique(s, r);
  }

  /** The collections the record does not join are as they were. */
  lemma StoreKeepsOthersUnique(s: Chain, r: Record)
    requires UniqueIds(s)
    ensures var t := Store(s, r);
            && (r.BriefRecord? || Distinct(t.briefs, BriefId)) && (r.DraftRecord? || Distinct(t.drafts, DraftId))
            && (r.PackageRecord? || Distinct(t.packages, PackageId)) && (r.NeutralRecord? || Distinct(t.neutrals, NeutralId))
            && (r.PlanRecord? || Distinct(t.plans, PlanId))
  {
  }

  lemma StoreKeepsIntakeLinks(s: Chain, id: string, c: Command)
    requires IntakeLinks(s) && Recorded(s, c) && Build(id, c).Some?
    ensures IntakeLinks(Store(s, Build(id, c).value))
  {
    match Build(id, c).value
    case KnowledgeRecord(x) => RefersUp(s.opportunities, s.knowledge, x, GroundedIn);
    case OpportunityRecord(x) =>
      RefersDown(s.opportunities, s.knowledge, x, c.grounding, GroundedIn);
      RefersUp(s.validations, s.opportunities, x, Validates);
    case ValidationRecord(x) =>
      RefersDown(s.validations, s.opportunities, x, c.opportunity, Validates);
      RefersUp(s.decisions, s.validations, x, Decides);
    case DecisionRecord(x) => RefersDown(s.decisions, s.validations, x, c.validation, Decides);
    case _ =>
  }

  lemma StoreKeepsWritingLinks(s: Chain, id: string, c: Command)
    requires Sound(s) && Recorded(s, c) && Build(id, c).Some?
    ensures WritingLinks(Store(s, Build(id, c).value))
  {
    match Build(id, c).value
    case FamilyRecord(x) => RefersUp(s.briefs, s.families, x, Briefs);
    case BriefRecord(x) =>
      RefersDown(s.briefs, s.families, x, c.family, Briefs);
      RefersUp(s.contents, s.briefs, x, Answers);
      RefersUp(s.drafts, s.briefs, x, Compiles);
    case ContentRecord(x) =>
      RefersDown(s.contents, s.briefs, x, c.brief, Answers);
      SourcesUp(s.contents, s.drafts, x);
    case DraftRecord(x) =>
      RefersDown(s.drafts, s.briefs, x, c.source, Compiles);
      DraftSources(s, c.source, c.contents, x);
    case _ =>
  }

  lemma StoreKeepsPackagingLinks(s: Chain, id: string, c: Command)
    requires Sound(s) && Recorded(s, c) && Build(id, c).Some?
    ensures PackagingLinks(Store(s, Build(id, c).value))
  {
    match Build(id, c).value
    case DraftRecord(x) =>
      RefersUp(s.approvals, s.drafts, x, Approves);
      RefersUp(s.packages, s.drafts, x, PackagesDraft);
    case ApprovalRecord(x) =>
      RefersDown(s.approvals, s.drafts, x, c.draft, Approves);
      RefersUp(s.packages, s.approvals, x, PackagedUnder);
    case PackageRecord(x) =>
      ApprovedDraftTenant(s, c.approval, c.approved);
      RefersDown(s.packages, s.approvals, x, c.approval, PackagedUnder);
      RefersDown(s.packages, s.drafts, x, c.approved, PackagesDraft);
    case _ =>
  }

  lemma StoreKeepsPublicationLinks(s: Chain, id: string, c: Command)
    requires PublicationLinks(s) && Recorded(s, c) && Build(id, c).Some?
    ensures PublicationLinks(Store(s, Build(id, c).value))
  {
    match Build(id, c).value
    case PackageRecord(x) => RefersUp(s.neutrals, s.packages, x, Neutralizes);
    case NeutralRecord(x) =>
      RefersDown(s.neutrals, s.packages, x, c.package, Neutralizes);
      RefersUp(s.plans, s.neutrals, x, Distributes);
    case PlanRecord(x) =>
      RefersDown(s.plans, s.neutrals, x, c.neutral, Distributes);
      RefersUp(s.receipts, s.plans, x, Executes);
    case ReceiptRecord(x) => RefersDown(s.receipts, s.plans, x, c.plan, Executes);
    case _ =>
  }

  /** Every call of the run is given recorded values and a fresh id. */
  ghost predicate Proper(s: Chain, calls: seq<Call>) {
    forall i :: 0 <= i < |calls| ==>
      Recorded(After(s, calls[..i]), calls[i].command) && FreshId(After(s, calls[..i]), calls[i].id)
  }

  lemma ProperPrefix(s: Chain, calls: seq<Call>)
    requires calls != [] && Proper(s, calls)
    ensures Proper(s, calls[..|calls| - 1])
    ensures var front := calls[..|calls| - 1];
            Recorded(After(s, front), calls[|calls| - 1].command) && FreshId(After(s, front), calls[|calls| - 1].id)
  {
    var front := calls[..|calls| - 1];
    forall i | 0 <= i < |front| ensures front[..i] == calls[..i] && front[i] == calls[i] {}
  }

  /** Referential and tenant consistency over every run on recorded values. */
  lemma {:induction false} RunKeepsSound(s: Chain, calls: seq<Call>)
    requires Sound(s) && Proper(s, calls)
    ensures Sound(After(s, calls))
  {
    if calls != [] {
      ProperPrefix(s, calls);
      var front, call := calls[..|calls| - 1], calls[|calls| - 1];
      RunKeepsSound(s, front);
      var before := After(s, front);
      if Perform(before, call).1.Made? {
        StoreKeepsIntakeLinks(before, call.id, call.command);
        StoreKeepsWritingLinks(before, call.id, call.command);
        StoreKeepsPackagingLinks(before, call.id, call.command);
        StoreKeepsPublicationLinks(before, call.id, call.command);
        StoreKeepsUnique(before, call.id, call.command);
      }
    }
  }

  /** From a receipt back to the brief its text came from. */
  predicate Traces(r: Receipt, plan: Plan, neutral: NeutralPackage, package: PublishPackage,
                   approval: Approval, draft: Draft, brief: Brief)
  {
    && Executes(r, plan) && Distributes(plan, neutral) && Neutralizes(neutral, package)
    && PackagedUnder(package, approval) && PackagesDraft(package, draft) && Approves(approval, draft)
    && Compiles(draft, brief)
  }

  /**
   * Nothing is published without an approval: after any run on recorded values from the empty
   * repository, every receipt leads back through its plan and packages to an approved draft compiled
   * from a brief, all of one tenant, and was not recorded by an automatic actor.
   */
  lemma ReceiptsTraceToApprovedDrafts(calls: seq<Call>, r: Receipt)
    requires Proper(EMPTY, calls) && r in After(EMPTY, calls).receipts
    ensures var s := After(EMPTY, calls);
            exists plan <- s.plans, neutral <- s.neutrals, package <- s.packages, approval <- s.approvals,
                   draft <- s.drafts, brief <- s.briefs ::
              Traces(r, plan, neutral, package, approval, draft, brief)
  {
    EmptyIsSound();
    RunKeepsSound(EMPTY, calls);
    TraceIn(After(EMPTY, calls), r);
  }

  lemma TraceIn(s: Chain, r: Receipt)
    requires Sound(s) && r in s.receipts
    ensures exists plan <- s.plans, neutral <- s.neutrals, package <- s.packages, approval <- s.approvals,
                   draft <- s.drafts, brief <- s.briefs ::
              Traces(r, plan, neutral, package, approval, draft, brief)
  {
    var plan :| plan in s.plans && Executes(r, plan);
    var neutral :| neutral in s.neutrals && Distributes(plan, neutral);
    var package :| package in s.packages && Neutralizes(neutral, package);
    var approval :| approval in s.approvals && PackagedUnder(package, approval);
    var draft :| draft in s.drafts && PackagesDraft(package, draft);
    var brief :| brief in s.briefs && Compiles(draft, brief);
    assert Traces(r, plan, neutral, package, approval, draft, brief);
  }

  // ------------------------------------------------------------------ audit conservation

  function Keys<T>(s: seq<T>, keyOf: T -> (string, Tenant)): seq<(string, Tenant)> {
    if s == [] then [] else Keys(s[..|s| - 1], keyOf) + [keyOf(s[|s| - 1])]
  }

  /** The targets of one action's events, in order. */
  function Targets(audit: seq<AuditEvent>, action: Action): seq<(string, Tenant)> {
    if audit == [] then []
    else
      var last := audit[|audit| - 1];
      Targets(audit[..|audit| - 1], action) + if last.action == action then [(last.targetId, last.tenant)] else []
  }

  function Decided(s: seq<Decision>, verdict: Verdict): seq<(string, Tenant)> {
    if s == [] then []
    else
      var last := s[|s| - 1];
      Decided(s[..|s| - 1], verdict) + if last.verdict == verdict then [(last.id, last.tenant)] else []
  }

  lemma KeysAppend<T>(s: seq<T>, x: T, keyOf: T -> (string, Tenant))
    ensures Keys(s + [x], keyOf) == Keys(s, keyOf) + [keyOf(x)]
  {
    assert (s + [x])[..|s|] == s;
  }

  lemma TargetsAppend(audit: seq<AuditEvent>, e: AuditEvent, action: Action)
    ensures Targets(audit + [e], action) == Targets(audit, action) + if e.action == action then [(e.targetId, e.tenant)] else []
  {
    assert (audit + [e])[..|audit|] == audit;
  }

  lemma DecidedAppend(s: seq<Decision>, d: Decision, verdict: Verdict)
    ensures Decided(s + [d], verdict) == Decided(s, verdict) + if d.verdict == verdict then [(d.id, d.tenant)] else []
  {
    assert (s + [d])[..|s|] == s;
  }

  function KnowledgeKey(x: KnowledgePackage): (string, Tenant) { (x.id, x.tenant) }
  function OpportunityKey(x: Opportunity): (string, Tenant) { (x.id, x.tenant) }
  function ApprovalKey(x: Approval): (string, Tenant) { (x.id, x.tenant) }
  function PackageKey(x: PublishPackage): (string, Tenant) { (x.id, x.tenant) }
  function ReceiptKey(x: Receipt): (string, Tenant) { (x.id, x.tenant) }

  /** The records an action's events should name, in order. */
  function Expected(s: Chain, action: Action): seq<(string, Tenant)> {
    match action
    case KnowledgePackageCreated => Keys(s.knowledge, KnowledgeKey)
    case OpportunityCreated => Keys(s.opportunities, OpportunityKey)
    case HumanReviewConfirmed => Decided(s.decisions, Approved)
    case HumanReviewChangesRequested => Decided(s.decisions, ChangesRequested)
    case HumanReviewRejected => Decided(s.decisions, Rejected)
    case ArticleApproved => Keys(s.approvals, ApprovalKey)
    case PublishPackageCreated => Keys(s.packages, PackageKey)
    case PublicationReceiptRecorded => Keys(s.receipts, ReceiptKey)
  }

  lemma ExpectedAfterDecision(s: Chain, d: Decision, action: Action)
    ensures Expected(Store(s, DecisionRecord(d)), action)
         == Expected(s, action) + if VerdictAction(d.verdict) == action then [(d.id, d.tenant)] else []
  {
    match action
    case HumanReviewConfirmed => DecidedAppend(s.decisions, d, Approved);
    case HumanReviewChangesRequested => DecidedAppend(s.decisions, d, ChangesRequested);
    case HumanReviewRejected => DecidedAppend(s.decisions, d, Rejected);
    case _ =>
  }

  /** Storing a record extends the expected targets of its own action, and of no other. */
  lemma ExpectedAfterStore(s: Chain, r: Record, action: Action)
    ensures Expected(Store(s, r), action)
         == Expected(s, action) + if Audited(r).Some? && Audited(r).value.0 == action then [(Audited(r).value.2, TenantOf(r))] else []
  {
    match r
    case KnowledgeRecord(x) => KeysAppend(s.knowledge, x, KnowledgeKey);
    case OpportunityRecord(x) => KeysAppend(s.opportunities, x, OpportunityKey);
    case DecisionRecord(x) => ExpectedAfterDecision(s, x, action);
    case ApprovalRecord(x) => KeysAppend(s.approvals, x, ApprovalKey);
    case PackageRecord(x) => KeysAppend(s.packages, x, PackageKey);
    case ReceiptRecord(x) => KeysAppend(s.receipts, x, ReceiptKey);
    case _ =>
  }

  /**
   * Audit conservation: after every run, for each action, the events' targets are exactly the
   * corresponding records' ids and tenants, in the order the records were stored.
   */
  lemma {:induction false} AuditIsTheTrail(calls: seq<Call>, action: Action)
    ensures var s := After(EMPTY, calls); Targets(s.audit, action) == Expected(s, action)
  {
    if calls != [] {
      var front, call := calls[..|calls| - 1], calls[|calls| - 1];
      AuditIsTheTrail(front, action);
      var before := After(EMPTY, front);
      if Perform(before, call).1.Made? {
        var r := Perform(before, call).1.record;
        ExpectedAfterStore(before, r, action);
        var events := WithEvent(before.audit, call.actor, r);
        if events != before.audit { TargetsAppend(before.audit, events[|before.audit|], action); }
        assert Expected(After(EMPTY, calls), action) == Expected(Store(before, r), action);
      }
    }
  }
}
