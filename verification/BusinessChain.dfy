/**
 * The GEO business chain from knowledge package to publication receipt: services that check the
 * tenant, build a record from its upstream value, store it and append an audit event.
 */
module BusinessChain {
  import opened Options
  import opened Roles
  import opened Texts
  import opened Authorization

  datatype Verdict = Approved | ChangesRequested | Rejected
  datatype GateLevel = PlatformWideGate | IndustryVerticalGate
  datatype RiskLevel = Standard | EscalatedForHumanReview

  /** Values a call is given and only names: a keyword map, a profile, a gate that PASSED, a family member. */
  datatype KeywordMap = KeywordMap(id: string, tenant: Tenant)
  datatype IndustryProfile = IndustryProfile(id: string, tenant: Tenant, gateLevel: GateLevel)
  datatype PassedGate = PassedGate(id: string, tenant: Tenant, draftId: string)
  datatype FamilyMember = FamilyMember(opportunityId: string, authorizingDecisionId: string)

  /** A distribution plan has at least one channel, by its type. */
  type Channels = s: seq<string> | s != [] witness ["channel"]

  datatype KnowledgePackage = KnowledgePackage(id: string, tenant: Tenant, version: int, title: string)
  datatype Opportunity = Opportunity(
    id: string, tenant: Tenant, keywordMapId: string, keyword: string, groundingPackageId: string, groundingPackageVersion: int)
  datatype Validation = Validation(
    id: string, tenant: Tenant, opportunityId: string, industryProfileId: string, gateLevelApplied: GateLevel, reasonNote: string)
  datatype Decision = Decision(
    id: string, tenant: Tenant, opportunityId: string, validationId: string, verdict: Verdict,
    reviewerId: string, note: Option<string>)
  datatype Family = Family(id: string, tenant: Tenant, members: seq<FamilyMember>)
  datatype Brief = Brief(
    id: string, tenant: Tenant, familyId: string, authorizingDecisionIds: seq<string>,
    targetKeywords: seq<string>, riskLevel: RiskLevel, workingTitle: string, outline: seq<string>)
  datatype Content = Content(id: string, tenant: Tenant, briefId: string, envelopeId: string)
  datatype Draft = Draft(
    id: string, tenant: Tenant, briefId: string, sourceContentIds: seq<string>, title: string, headings: seq<string>)
  datatype Approval = Approval(
    id: string, tenant: Tenant, draftId: string, approverId: string,
    qualityGateId: string, platformGateId: string, verticalGateId: string)
  datatype PublishPackage = PublishPackage(id: string, tenant: Tenant, approvalId: string, draftId: string, title: string)
  datatype NeutralPackage = NeutralPackage(
    id: string, tenant: Tenant, publishPackageId: string, blocks: seq<string>, targetChannelIds: seq<string>)
  datatype Plan = Plan(id: string, tenant: Tenant, neutralPackageId: string, channelIds: Channels, selectedByActorId: string)
  datatype Receipt = Receipt(id: string, tenant: Tenant, planId: string, channelId: string, publishedByActorId: string)

  /** The audited action names: knowledge_package.created, opportunity.created, and so on. */
  datatype Action =
    | KnowledgePackageCreated | OpportunityCreated
    | HumanReviewConfirmed | HumanReviewChangesRequested | HumanReviewRejected
    | ArticleApproved | PublishPackageCreated | PublicationReceiptRecorded

  datatype AuditEvent = AuditEvent(
    organizationId: string, actorUserId: string, tenant: Tenant, action: Action, targetType: string, targetId: string)

  datatype Record =
    | KnowledgeRecord(knowledge: KnowledgePackage)
    | OpportunityRecord(opportunity: Opportunity)
    | ValidationRecord(validation: Validation)
    | DecisionRecord(decision: Decision)
    | FamilyRecord(family: Family)
    | BriefRecord(brief: Brief)
    | ContentRecord(content: Content)
    | DraftRecord(draft: Draft)
    | ApprovalRecord(approval: Approval)
    | PackageRecord(package: PublishPackage)
    | NeutralRecord(neutral: NeutralPackage)
    | PlanRecord(plan: Plan)
    | ReceiptRecord(receipt: Receipt)

  /** One collection per entity, in insertion order, and the audit log. */
  datatype Chain = Chain(
    knowledge: seq<KnowledgePackage>, opportunities: seq<Opportunity>, validations: seq<Validation>,
    decisions: seq<Decision>, families: seq<Family>, briefs: seq<Brief>, contents: seq<Content>,
    drafts: seq<Draft>, approvals: seq<Approval>, packages: seq<PublishPackage>,
    neutrals: seq<NeutralPackage>, plans: seq<Plan>, receipts: seq<Receipt>, audit: seq<AuditEvent>)

  const EMPTY := Chain([], [], [], [], [], [], [], [], [], [], [], [], [], [])

  /** A service call with the values it is given; upstream entities are passed as values. */
  datatype Command =
    | CreateKnowledgePackage(tenant: Tenant, title: string, version: int)
    | CreateOpportunity(keywordMap: KeywordMap, grounding: KnowledgePackage, keyword: string)
    | ValidateOpportunity(opportunity: Opportunity, profile: IndustryProfile, reasonNote: string)
    | Decide(validation: Validation, verdict: Verdict, reviewerId: string, note: string)
    | CreateFamily(owner: Tenant, members: seq<FamilyMember>)
    | CreateBrief(family: Family, targetKeywords: seq<string>, riskLevel: RiskLevel, workingTitle: string, outline: seq<string>)
    | RecordContent(brief: Brief, envelopeId: string)
    | CompileDraft(source: Brief, contents: seq<Content>)
    | ApproveArticle(draft: Draft, approverId: string, quality: PassedGate, platform: PassedGate, vertical: PassedGate)
    | CreatePublishPackage(approval: Approval, approved: Draft)
    | CreateNeutralPackage(package: PublishPackage, blocks: seq<string>)
    | CreatePlan(neutral: NeutralPackage, channelIds: Channels, selectedByActorId: string)
    | RecordReceipt(plan: Plan, channelId: string, publishedByActorId: string)

  datatype Call = Call(actor: AuthorizationContext, id: string, command: Command)
  datatype Result = Made(record: Record) | Denied | Threw

  // ------------------------------------------------------------------ what each call computes

  const FORBIDDEN_AUTOMATIC_ACTOR_IDS := ["system", "auto", "automated", "automatic", ""]

  predicate AutomaticActor(actorId: string) {
    Lower(Trim(actorId)) in FORBIDDEN_AUTOMATIC_ACTOR_IDS
  }

  /** The tenant whose access is asserted first. */
  function Target(c: Command): Tenant {
    match c
    case CreateKnowledgePackage(tenant, _, _) => tenant
    case CreateOpportunity(_, k, _) => k.tenant
    case ValidateOpportunity(o, _, _) => o.tenant
    case Decide(v, _, _, _) => v.tenant
    case CreateFamily(owner, _) => owner
    case CreateBrief(f, _, _, _, _) => f.tenant
    case RecordContent(b, _) => b.tenant
    case CompileDraft(b, _) => b.tenant
    case ApproveArticle(d, _, _, _, _) => d.tenant
    case CreatePublishPackage(a, _) => a.tenant
    case CreateNeutralPackage(p, _) => p.tenant
    case CreatePlan(n, _, _) => n.tenant
    case RecordReceipt(p, _, _) => p.tenant
  }

  function Ids(contents: seq<Content>): seq<string> {
    seq(|contents|, i requires 0 <= i < |contents| => contents[i].id)
  }

  function DecisionIds(members: seq<FamilyMember>): seq<string> {
    seq(|members|, i requires 0 <= i < |members| => members[i].authorizingDecisionId)
  }

  /** The record the call builds, None where a pure constructor throws. */
  function Build(id: string, c: Command): Option<Record> {
    match c
    case CreateKnowledgePackage(tenant, title, version) => Some(KnowledgeRecord(KnowledgePackage(id, tenant, version, title)))
    case CreateOpportunity(m, k, keyword) => Some(OpportunityRecord(Opportunity(id, k.tenant, m.id, keyword, k.id, k.version)))
    case ValidateOpportunity(o, p, note) => Some(ValidationRecord(Validation(id, o.tenant, o.id, p.id, p.gateLevel, note)))
    case Decide(v, verdict, reviewer, note) =>
      Some(DecisionRecord(Decision(id, v.tenant, v.opportunityId, v.id, verdict, reviewer,
                                   if verdict.Approved? then None else Some(note))))
    case CreateFamily(owner, members) => Some(FamilyRecord(Family(id, owner, members)))
    case CreateBrief(f, keywords, risk, title, outline) =>
      Some(BriefRecord(Brief(id, f.tenant, f.id, DecisionIds(f.members), keywords, risk, title, outline)))
    case RecordContent(b, envelope) => Some(ContentRecord(Content(id, b.tenant, b.id, envelope)))
    case CompileDraft(b, contents) =>
      if contents == [] || exists x <- contents :: x.briefId != b.id then None
      else Some(DraftRecord(Draft(id, b.tenant, b.id, Ids(contents), b.workingTitle, b.outline)))
    case ApproveArticle(d, approver, quality, platform, vertical) =>
      Some(ApprovalRecord(Approval(id, d.tenant, d.id, approver, quality.id, platform.id, vertical.id)))
    case CreatePublishPackage(a, d) =>
      if a.draftId != d.id then None else Some(PackageRecord(PublishPackage(id, a.tenant, a.id, d.id, d.title)))
    case CreateNeutralPackage(p, blocks) => Some(NeutralRecord(NeutralPackage(id, p.tenant, p.id, blocks, [])))
    case CreatePlan(n, channels, selectedBy) => Some(PlanRecord(Plan(id, n.tenant, n.id, channels, selectedBy)))
    case RecordReceipt(p, channel, actorId) =>
      if channel !in p.channelIds || AutomaticActor(actorId) then None
      else Some(ReceiptRecord(Receipt(id, p.tenant, p.id, channel, actorId)))
  }

  /** The audited action a record stands for: (action, target type, target id). */
  function Audited(r: Record): Option<(Action, string, string)> {
    match r
    case KnowledgeRecord(k) => Some((KnowledgePackageCreated, "KnowledgePackage", k.id))
    case OpportunityRecord(o) => Some((OpportunityCreated, "Opportunity", o.id))
    case DecisionRecord(d) => Some((VerdictAction(d.verdict), "HumanReviewDecision", d.id))
    case ApprovalRecord(a) => Some((ArticleApproved, "ArticleApproval", a.id))
    case PackageRecord(p) => Some((PublishPackageCreated, "PublishPackage", p.id))
    case ReceiptRecord(p) => Some((PublicationReceiptRecorded, "PublicationReceipt", p.id))
    case _ => None
  }

  function VerdictAction(v: Verdict): Action {
    match v
    case Approved => HumanReviewConfirmed
    case ChangesRequested => HumanReviewChangesRequested
    case Rejected => HumanReviewRejected
  }

  function Store(s: Chain, r: Record): Chain {
    match r
    case KnowledgeRecord(x) => s.(knowledge := s.knowledge + [x])
    case OpportunityRecord(x) => s.(opportunities := s.opportunities + [x])
    case ValidationRecord(x) => s.(validations := s.validations + [x])
    case DecisionRecord(x) => s.(decisions := s.decisions + [x])
    case FamilyRecord(x) => s.(families := s.families + [x])
    case BriefRecord(x) => s.(briefs := s.briefs + [x])
    case ContentRecord(x) => s.(contents := s.contents + [x])
    case DraftRecord(x) => s.(drafts := s.drafts + [x])
    case ApprovalRecord(x) => s.(approvals := s.approvals + [x])
    case PackageRecord(x) => s.(packages := s.packages + [x])
    case NeutralRecord(x) => s.(neutrals := s.neutrals + [x])
    case PlanRecord(x) => s.(plans := s.plans + [x])
    case ReceiptRecord(x) => s.(receipts := s.receipts + [x])
  }

  function TenantOf(r: Record): Tenant {
    match r
    case KnowledgeRecord(x) => x.tenant
    case OpportunityRecord(x) => x.tenant
    case ValidationRecord(x) => x.tenant
    case DecisionRecord(x) => x.tenant
    case FamilyRecord(x) => x.tenant
    case BriefRecord(x) => x.tenant
    case ContentRecord(x) => x.tenant
    case DraftRecord(x) => x.tenant
    case ApprovalRecord(x) => x.tenant
    case PackageRecord(x) => x.tenant
    case NeutralRecord(x) => x.tenant
    case PlanRecord(x) => x.tenant
    case ReceiptRecord(x) => x.tenant
  }

  function WithEvent(audit: seq<AuditEvent>, actor: AuthorizationContext, r: Record): seq<AuditEvent> {
    var a := Audited(r);
    if a.None? then audit
    else audit + [AuditEvent(actor.organizationId, actor.actorUserId, TenantOf(r), a.value.0, a.value.1, a.value.2)]
  }

  /** A call: refuse, throw, or store one record and append its audit event. */
  function Perform(s: Chain, call: Call): (Chain, Result) {
    if !CanAccessClientOrganization(call.actor, Target(call.command).clientOrganizationId) then (s, Denied)
    else
      var built := Build(call.id, call.command);
      if built.None? then (s, Threw)
      else
        var stored := Store(s, built.value);
        (stored.(audit := WithEvent(s.audit, call.actor, built.value)), Made(built.value))
  }

  function After(s: Chain, calls: seq<Call>): Chain {
    if calls == [] then s else Perform(After(s, calls[..|calls| - 1]), calls[|calls| - 1]).0
  }

  // ------------------------------------------------------------------ the services

  class TenancyRepository {
    var auditEvents: seq<AuditEvent>

    constructor ()
      ensures auditEvents == []
    {
      auditEvents := [];
    }

    method RecordAudit(actor: AuthorizationContext, tenant: Tenant, action: Action, targetType: string, targetId: string)
      modifies this
      ensures auditEvents == old(auditEvents) + [AuditEvent(actor.organizationId, actor.actorUserId, tenant, action, targetType, targetId)]
    {
      auditEvents := auditEvents + [AuditEvent(actor.organizationId, actor.actorUserId, tenant, action, targetType, targetId)];
    }
  }

  class GeoBusinessRepository {
    var knowledgePackages: seq<KnowledgePackage>
    var opportunities: seq<Opportunity>
    var validations: seq<Validation>
    var decisions: seq<Decision>
    var families: seq<Family>
    var briefs: seq<Brief>
    var contents: seq<Content>
    var drafts: seq<Draft>
    var approvals: seq<Approval>
    var packages: seq<PublishPackage>
    var neutrals: seq<NeutralPackage>
    var plans: seq<Plan>
    var receipts: seq<Receipt>

    constructor ()
      ensures knowledgePackages == [] && opportunities == [] && validations == [] && decisions == [] && families == []
      ensures briefs == [] && contents == [] && drafts == [] && approvals == [] && packages == []
      ensures neutrals == [] && plans == [] && receipts == []
    {
      knowledgePackages, opportunities, validations, decisions, families := [], [], [], [], [];
      briefs, contents, drafts, approvals, packages := [], [], [], [], [];
      neutrals, plans, receipts := [], [], [];
    }
  }

  function State(repository: GeoBusinessRepository, tenancy: TenancyRepository): Chain
    reads repository, tenancy
  {
    Chain(repository.knowledgePackages, repository.opportunities, repository.validations, repository.decisions,
          repository.families, repository.briefs, repository.contents, repository.drafts, repository.approvals,
          repository.packages, repository.neutrals, repository.plans, repository.receipts, tenancy.auditEvents)
  }

  class KnowledgeService {
    const repository: GeoBusinessRepository
    const tenancy: TenancyRepository

    constructor (repository: GeoBusinessRepository, tenancy: TenancyRepository)
      ensures this.repository == repository && this.tenancy == tenancy
    {
      this.repository, this.tenancy := repository, tenancy;
    }

    method CreatePackage(actor: AuthorizationContext, tenant: Tenant, title: string, version: int, id: string) returns (r: Result)
      modifies repository, tenancy
      ensures (State(repository, tenancy), r)
           == Perform(old(State(repository, tenancy)), Call(actor, id, CreateKnowledgePackage(tenant, title, version)))
    {
      if !CanAccessClientOrganization(actor, tenant.clientOrganizationId) { return Denied; }
      var kp := KnowledgePackage(id, tenant, version, title);
      repository.knowledgePackages := repository.knowledgePackages + [kp];
      tenancy.RecordAudit(actor, tenant, KnowledgePackageCreated, "KnowledgePackage", kp.id);
      r := Made(KnowledgeRecord(kp));
    }
  }

  class OpportunityService {
    const repository: GeoBusinessRepository
    const tenancy: TenancyRepository

    constructor (repository: GeoBusinessRepository, tenancy: TenancyRepository)
      ensures this.repository == repository && this.tenancy == tenancy
    {
      this.repository, this.tenancy := repository, tenancy;
    }

    method Create(actor: AuthorizationContext, keywordMap: KeywordMap, keyword: string, grounding: KnowledgePackage, id: string)
      returns (r: Result)
      modifies repository, tenancy
      ensures (State(repository, tenancy), r)
           == Perform(old(State(repository, tenancy)), Call(actor, id, CreateOpportunity(keywordMap, grounding, keyword)))
    {
      if !CanAccessClientOrganization(actor, grounding.tenant.clientOrganizationId) { return Denied; }
      var opportunity := Opportunity(id, grounding.tenant, keywordMap.id, keyword, grounding.id, grounding.version);
      repository.opportunities := repository.opportunities + [opportunity];
      tenancy.RecordAudit(actor, opportunity.tenant, OpportunityCreated, "Opportunity", opportunity.id);
      r := Made(OpportunityRecord(opportunity));
    }

    method Validate(actor: AuthorizationContext, opportunity: Opportunity, profile: IndustryProfile, reasonNote: string, id: string)
      returns (r: Result)
      modifies repository
      ensures (State(repository, tenancy), r)
           == Perform(old(State(repository, tenancy)), Call(actor, id, ValidateOpportunity(opportunity, profile, reasonNote)))
    {
      if !CanAccessClientOrganization(actor, opportunity.tenant.clientOrganizationId) { return Denied; }
      var validation := Validation(id, opportunity.tenant, opportunity.id, profile.id, profile.gateLevel, reasonNote);
      repository.validations := repository.validations + [validation];
      r := Made(ValidationRecord(validation));
    }
  }

  class HumanReviewService {
    const repository: GeoBusinessRepository
    const tenancy: TenancyRepository

    constructor (repository: GeoBusinessRepository, tenancy: TenancyRepository)
      ensures this.repository == repository && this.tenancy == tenancy
    {
      this.repository, this.tenancy := repository, tenancy;
    }

    method Confirm(actor: AuthorizationContext, validation: Validation, reviewerId: string, id: string) returns (r: Result)
      modifies repository, tenancy
      ensures (State(repository, tenancy), r)
           == Perform(old(State(repository, tenancy)), Call(actor, id, Decide(validation, Approved, reviewerId, "")))
    {
      if !CanAccessClientOrganization(actor, validation.tenant.clientOrganizationId) { return Denied; }
      var decision := Decision(id, validation.tenant, validation.opportunityId, validation.id, Approved, reviewerId, None);
      repository.decisions := repository.decisions + [decision];
      tenancy.RecordAudit(actor, decision.tenant, HumanReviewConfirmed, "HumanReviewDecision", decision.id);
      r := Made(DecisionRecord(decision));
    }

    method RequestChanges(actor: AuthorizationContext, validation: Validation, reviewerId: string, note: string, id: string) returns (r: Result)
      modifies repository, tenancy
      ensures (State(repository, tenancy), r)
           == Perform(old(State(repository, tenancy)), Call(actor, id, Decide(validation, ChangesRequested, reviewerId, note)))
    {
      if !CanAccessClientOrganization(actor, validation.tenant.clientOrganizationId) { return Denied; }
      var decision := Decision(id, validation.tenant, validation.opportunityId, validation.id, ChangesRequested, reviewerId, Some(note));
      repository.decisions := repository.decisions + [decision];
      tenancy.RecordAudit(actor, decision.tenant, HumanReviewChangesRequested, "HumanReviewDecision", decision.id);
      r := Made(DecisionRecord(decision));
    }

    method Reject(actor: AuthorizationContext, validation: Validation, reviewerId: string, note: string, id: string) returns (r: Result)
      modifies repository, tenancy
      ensures (State(repository, tenancy), r)
           == Perform(old(State(repository, tenancy)), Call(actor, id, Decide(validation, Rejected, reviewerId, note)))
    {
      if !CanAccessClientOrganization(actor, validation.tenant.clientOrganizationId) { return Denied; }
      var decision := Decision(id, validation.tenant, validation.opportunityId, validation.id, Rejected, reviewerId, Some(note));
      repository.decisions := repository.decisions + [decision];
      tenancy.RecordAudit(actor, decision.tenant, HumanReviewRejected, "HumanReviewDecision", decision.id);
      r := Made(DecisionRecord(decision));
    }
  }

  class ArticlePipelineService {
    const repository: GeoBusinessRepository
    const tenancy: TenancyRepository

    constructor (repository: GeoBusinessRepository, tenancy: TenancyRepository)
      ensures this.repository == repository && this.tenancy == tenancy
    {
      this.repository, this.tenancy := repository, tenancy;
    }

    method CreateOpportunityFamily(actor: AuthorizationContext, owner: Tenant, members: seq<FamilyMember>, id: string) returns (r: Result)
      modifies repository
      ensures (State(repository, tenancy), r)
           == Perform(old(State(repository, tenancy)), Call(actor, id, CreateFamily(owner, members)))
    {
      if !CanAccessClientOrganization(actor, owner.clientOrganizationId) { return Denied; }
      var family := Family(id, owner, members);
      repository.families := repository.families + [family];
      r := Made(FamilyRecord(family));
    }

    method CreateArticleBrief(actor: AuthorizationContext, family: Family, keywords: seq<string>, risk: RiskLevel,
        title: string, outline: seq<string>, id: string) returns (r: Result)
      modifies repository
      ensures (State(repository, tenancy), r)
           == Perform(old(State(repository, tenancy)), Call(actor, id, CreateBrief(family, keywords, risk, title, outline)))
    {
      if !CanAccessClientOrganization(actor, family.tenant.clientOrganizationId) { return Denied; }
      var brief := Brief(id, family.tenant, family.id, DecisionIds(family.members), keywords, risk, title, outline);
      repository.briefs := repository.briefs + [brief];
      r := Made(BriefRecord(brief));
    }

    method RecordProviderContent(actor: AuthorizationContext, brief: Brief, envelopeId: string, id: string) returns (r: Result)
      modifies repository
      ensures (State(repository, tenancy), r)
           == Perform(old(State(repository, tenancy)), Call(actor, id, RecordContent(brief, envelopeId)))
    {
      if !CanAccessClientOrganization(actor, brief.tenant.clientOrganizationId) { return Denied; }
      var content := Content(id, brief.tenant, brief.id, envelopeId);
      repository.contents := repository.contents + [content];
      r := Made(ContentRecord(content));
    }

    method Compile(actor: AuthorizationContext, brief: Brief, contents: seq<Content>, id: string) returns (r: Result)
      modifies repository
      ensures (State(repository, tenancy), r)
           == Perform(old(State(repository, tenancy)), Call(actor, id, CompileDraft(brief, contents)))
    {
      if !CanAccessClientOrganization(actor, brief.tenant.clientOrganizationId) { return Denied; }
      if |contents| == 0 { return Threw; }
      if exists x <- contents :: x.briefId != brief.id { return Threw; }
      var draft := Draft(id, brief.tenant, brief.id, Ids(contents), brief.workingTitle, brief.outline);
      repository.drafts := repository.drafts + [draft];
      r := Made(DraftRecord(draft));
    }

    method Approve(actor: AuthorizationContext, draft: Draft, approverId: string,
        quality: PassedGate, platform: PassedGate, vertical: PassedGate, id: string) returns (r: Result)
      modifies repository, tenancy
      ensures (State(repository, tenancy), r)
           == Perform(old(State(repository, tenancy)), Call(actor, id, ApproveArticle(draft, approverId, quality, platform, vertical)))
    {
      if !CanAccessClientOrganization(actor, draft.tenant.clientOrganizationId) { return Denied; }
      var approval := Approval(id, draft.tenant, draft.id, approverId, quality.id, platform.id, vertical.id);
      repository.approvals := repository.approvals + [approval];
      tenancy.RecordAudit(actor, approval.tenant, ArticleApproved, "ArticleApproval", approval.id);
      r := Made(ApprovalRecord(approval));
    }
  }

  class PublicationPackageService {
    const repository: GeoBusinessRepository
    const tenancy: TenancyRepository

    constructor (repository: GeoBusinessRepository, tenancy: TenancyRepository)
      ensures this.repository == repository && this.tenancy == tenancy
    {
      this.repository, this.tenancy := repository, tenancy;
    }

    method CreatePackage(actor: AuthorizationContext, approval: Approval, draft: Draft, id: string) returns (r: Result)
      modifies repository, tenancy
      ensures (State(repository, tenancy), r)
           == Perform(old(State(repository, tenancy)), Call(actor, id, CreatePublishPackage(approval, draft)))
    {
      if !CanAccessClientOrganization(actor, approval.tenant.clientOrganizationId) { return Denied; }
      if approval.draftId != draft.id { return Threw; }
      var package := PublishPackage(id, approval.tenant, approval.id, draft.id, draft.title);
      repository.packages := repository.packages + [package];
      tenancy.RecordAudit(actor, package.tenant, PublishPackageCreated, "PublishPackage", package.id);
      r := Made(PackageRecord(package));
    }

    method CreateChannelNeutralPackage(actor: AuthorizationContext, package: PublishPackage, blocks: seq<string>, id: string) returns (r: Result)
      modifies repository
      ensures (State(repository, tenancy), r)
           == Perform(old(State(repository, tenancy)), Call(actor, id, CreateNeutralPackage(package, blocks)))
    {
      if !CanAccessClientOrganization(actor, package.tenant.clientOrganizationId) { return Denied; }
      var neutral := NeutralPackage(id, package.tenant, package.id, blocks, []);
      repository.neutrals := repository.neutrals + [neutral];
      r := Made(NeutralRecord(neutral));
    }

    method CreateDistributionPlan(actor: AuthorizationContext, neutral: NeutralPackage, channelIds: Channels, selectedBy: string, id: string)
      returns (r: Result)
      modifies repository
      ensures (State(repository, tenancy), r)
           == Perform(old(State(repository, tenancy)), Call(actor, id, CreatePlan(neutral, channelIds, selectedBy)))
    {
      if !CanAccessClientOrganization(actor, neutral.tenant.clientOrganizationId) { return Denied; }
      var plan := Plan(id, neutral.tenant, neutral.id, channelIds, selectedBy);
      repository.plans := repository.plans + [plan];
      r := Made(PlanRecord(plan));
    }

    method RecordPublicationReceipt(actor: AuthorizationContext, plan: Plan, channelId: string, publishedBy: string, id: string)
      returns (r: Result)
      modifies repository, tenancy
      ensures (State(repository, tenancy), r)
           == Perform(old(State(repository, tenancy)), Call(actor, id, RecordReceipt(plan, channelId, publishedBy)))
    {
      if !CanAccessClientOrganization(actor, plan.tenant.clientOrganizationId) { return Denied; }
      if channelId !in plan.channelIds { return Threw; }
      if Lower(Trim(publishedBy)) in FORBIDDEN_AUTOMATIC_ACTOR_IDS { return Threw; }
      var receipt := Receipt(id, plan.tenant, plan.id, channelId, publishedBy);
      repository.receipts := repository.receipts + [receipt];
      tenancy.RecordAudit(actor, receipt.tenant, PublicationReceiptRecorded, "PublicationReceipt", receipt.id);
      r := Made(ReceiptRecord(receipt));
    }
  }
}
