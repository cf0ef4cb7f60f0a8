/**
 * The client delivery center: a publication status derived from plans and receipts, and what runs of
 * the business chain can and cannot do to it.
 */
module Delivery {
  import opened Options
  import opened Picks
  import opened Roles
  import opened Authorization
  import opened BusinessChain
  import opened ChainInvariants

  datatype Status = Packaged | ChannelsSelected | PartiallyPublished | Published

  datatype Item = Item(
    packageId: string, title: string, status: Status, selectedChannelCount: nat, publishedChannelCount: nat)

  /** getChannelNeutralContentPackageForPublishPackage: the first one stored. */
  function NeutralFor(neutrals: seq<NeutralPackage>, packageId: string): Option<NeutralPackage> {
    if neutrals == [] then None
    else
      var earlier := NeutralFor(neutrals[..|neutrals| - 1], packageId);
      var last := neutrals[|neutrals| - 1];
      if earlier.Some? then earlier else if last.publishPackageId == packageId then Some(last) else None
  }

  /** getDistributionPlanForPackage: the first one stored. */
  function PlanFor(plans: seq<Plan>, neutralId: string): Option<Plan> {
    if plans == [] then None
    else
      var earlier := PlanFor(plans[..|plans| - 1], neutralId);
      var last := plans[|plans| - 1];
      if earlier.Some? then earlier else if last.neutralPackageId == neutralId then Some(last) else None
  }

  function ReceiptsFor(receipts: seq<Receipt>, planId: string): seq<Receipt> {
    if receipts == [] then []
    else
      var last := receipts[|receipts| - 1];
      ReceiptsFor(receipts[..|receipts| - 1], planId) + if last.planId == planId then [last] else []
  }

  function PackagesOf(packages: seq<PublishPackage>, scope: Tenant): seq<PublishPackage> {
    if packages == [] then []
    else
      var last := packages[|packages| - 1];
      PackagesOf(packages[..|packages| - 1], scope) + if last.tenant == scope then [last] else []
  }

  function ChannelsOf(receipts: seq<Receipt>, planId: string): set<string> {
    set i | 0 <= i < |receipts| && receipts[i].planId == planId :: receipts[i].channelId
  }

  function Selected(plan: Plan): set<string> {
    set c | c in plan.channelIds
  }

  function DerivePublicationStatus(plan: Option<Plan>, receipts: seq<Receipt>): Status {
    if plan.None? then Packaged
    else
      var published := ChannelsOf(receipts, plan.value.id);
      if published == {} then ChannelsSelected
      else if forall c <- plan.value.channelIds :: c in published then Published
      else PartiallyPublished
  }

  /** The plan displayed for a package. */
  function PlanOf(s: Chain, packageId: string): Option<Plan> {
    var neutral := NeutralFor(s.neutrals, packageId);
    if neutral.None? then None else PlanFor(s.plans, neutral.value.id)
  }

  function ReceiptsOf(s: Chain, packageId: string): seq<Receipt> {
    var plan := PlanOf(s, packageId);
    if plan.None? then [] else ReceiptsFor(s.receipts, plan.value.id)
  }

  function StatusOf(s: Chain, packageId: string): Status {
    DerivePublicationStatus(PlanOf(s, packageId), ReceiptsOf(s, packageId))
  }

  function ItemOf(s: Chain, p: PublishPackage): Item {
    var plan := PlanOf(s, p.id);
    Item(p.id, p.title, StatusOf(s, p.id), if plan.Some? then |plan.value.channelIds| else 0, |ReceiptsOf(s, p.id)|)
  }

  /** clientDeliveryCenter; None when the actor may not access the client. */
  function ClientDeliveryCenter(s: Chain, actor: AuthorizationContext, scope: Tenant): Option<seq<Item>> {
    if !CanAccessClientOrganization(actor, scope.clientOrganizationId) then None
    else
      Some(ItemsOf(s, PackagesOf(s.packages, scope)))
  }

  function ItemsOf(s: Chain, packages: seq<PublishPackage>): (items: seq<Item>)
    ensures |items| == |packages| && forall i :: 0 <= i < |items| ==> items[i] == ItemOf(s, packages[i])
  {
    seq(|packages|, i requires 0 <= i < |packages| => ItemOf(s, packages[i]))
  }

  // ------------------------------------------------------------------ what the center shows, from positions in the tables

  /** The plan a package displays: the first stored plan of its first stored neutral package. */
  ghost predicate Displays(s: Chain, packageId: string, n: int, k: int) {
    && 0 <= n < |s.neutrals| && s.neutrals[n].publishPackageId == packageId
    && (forall j :: 0 <= j < n ==> s.neutrals[j].publishPackageId != packageId)
    && 0 <= k < |s.plans| && s.plans[k].neutralPackageId == s.neutrals[n].id
    && forall j :: 0 <= j < k ==> s.plans[j].neutralPackageId != s.neutrals[n].id
  }

  function ReceiptPositions(receipts: seq<Receipt>, planId: string): set<int> {
    set i | 0 <= i < |receipts| && receipts[i].planId == planId
  }

  predicate HasReceipt(receipts: seq<Receipt>, planId: string, channel: string) {
    exists i :: 0 <= i < |receipts| && receipts[i].planId == planId && receipts[i].channelId == channel
  }

  /** The status of a displayed plan: no receipt, a receipt for every channel, or some receipts. */
  ghost predicate StatusMatches(status: Status, plan: Plan, receipts: seq<Receipt>) {
    && !status.Packaged?
    && (status.ChannelsSelected? <==> ReceiptPositions(receipts, plan.id) == {})
    && (status.Published? <==>
          ReceiptPositions(receipts, plan.id) != {} && forall c <- plan.channelIds :: HasReceipt(receipts, plan.id, c))
  }

  /** What an item says of its package: its id and title, and from the displayed plan the status, the channels chosen and the receipts. */
  ghost predicate Shows(s: Chain, p: PublishPackage, item: Item) {
    && item.packageId == p.id && item.title == p.title
    && ((forall n, k :: !Displays(s, p.id, n, k)) ==>
          item.status.Packaged? && item.selectedChannelCount == 0 && item.publishedChannelCount == 0)
    && forall n, k :: Displays(s, p.id, n, k) ==>
         && item.selectedChannelCount == |s.plans[k].channelIds|
         && item.publishedChannelCount == |ReceiptPositions(s.receipts, s.plans[k].id)|
         && StatusMatches(item.status, s.plans[k], s.receipts)
  }

  lemma {:induction false} NeutralForIsFirst(neutrals: seq<NeutralPackage>, packageId: string)
    ensures var found := NeutralFor(neutrals, packageId);
            if found.None? then forall i :: 0 <= i < |neutrals| ==> neutrals[i].publishPackageId != packageId
            else exists i :: 0 <= i < |neutrals| && neutrals[i] == found.value && neutrals[i].publishPackageId == packageId
                             && forall j :: 0 <= j < i ==> neutrals[j].publishPackageId != packageId
  {
    if neutrals != [] {
      var n := |neutrals| - 1;
      var front := neutrals[..n];
      NeutralForIsFirst(front, packageId);
      assert forall i :: 0 <= i < n ==> neutrals[i] == front[i];
      if NeutralFor(front, packageId).None? && neutrals[n].publishPackageId == packageId {
        assert neutrals[n] == NeutralFor(neutrals, packageId).value;
      } else if NeutralFor(front, packageId).Some? {
        var i :| 0 <= i < |front| && front[i] == NeutralFor(front, packageId).value && front[i].publishPackageId == packageId
                 && forall j :: 0 <= j < i ==> front[j].publishPackageId != packageId;
        assert neutrals[i] == front[i];
      }
    }
  }

  lemma {:induction false} PlanForIsFirst(plans: seq<Plan>, neutralId: string)
    ensures var found := PlanFor(plans, neutralId);
            if found.None? then forall i :: 0 <= i < |plans| ==> plans[i].neutralPackageId != neutralId
            else exists i :: 0 <= i < |plans| && plans[i] == found.value && plans[i].neutralPackageId == neutralId
                             && forall j :: 0 <= j < i ==> plans[j].neutralPackageId != neutralId
  {
    if plans != [] {
      var n := |plans| - 1;
      var front := plans[..n];
      PlanForIsFirst(front, neutralId);
      assert forall i :: 0 <= i < n ==> plans[i] == front[i];
      if PlanFor(front, neutralId).None? && plans[n].neutralPackageId == neutralId {
        assert plans[n] == PlanFor(plans, neutralId).value;
      } else if PlanFor(front, neutralId).Some? {
        var i :| 0 <= i < |front| && front[i] == PlanFor(front, neutralId).value && front[i].neutralPackageId == neutralId
                 && forall j :: 0 <= j < i ==> front[j].neutralPackageId != neutralId;
        assert plans[i] == front[i];
      }
    }
  }

  lemma {:induction false} ReceiptsAreCounted(receipts: seq<Receipt>, planId: string)
    ensures |ReceiptsFor(receipts, planId)| == |ReceiptPositions(receipts, planId)|
  {
    if receipts != [] {
      var n := |receipts| - 1;
      ReceiptsAreCounted(receipts[..n], planId);
      var own: set<int> := if receipts[n].planId == planId then {n} else {};
      assert ReceiptPositions(receipts, planId) == ReceiptPositions(receipts[..n], planId) + own;
    }
  }

  /** The displayed plan is the one the lookups find, and there is none exactly when they find none. */
  lemma DisplayedIsFound(s: Chain, packageId: string)
    ensures PlanOf(s, packageId).None? ==> forall n, k :: !Displays(s, packageId, n, k)
    ensures PlanOf(s, packageId).Some? ==>
              && (exists n, k :: Displays(s, packageId, n, k))
              && forall n, k :: Displays(s, packageId, n, k) ==> s.plans[k] == PlanOf(s, packageId).value
  {
    NeutralForIsFirst(s.neutrals, packageId);
    var neutral := NeutralFor(s.neutrals, packageId);
    if neutral.Some? {
      PlanForIsFirst(s.plans, neutral.value.id);
      var n :| 0 <= n < |s.neutrals| && s.neutrals[n] == neutral.value && s.neutrals[n].publishPackageId == packageId
               && forall j :: 0 <= j < n ==> s.neutrals[j].publishPackageId != packageId;
      forall m, k | Displays(s, packageId, m, k) ensures m == n && PlanOf(s, packageId) == Some(s.plans[k]) {
        assert m == n;
      }
      if PlanOf(s, packageId).Some? {
        var k :| 0 <= k < |s.plans| && s.plans[k] == PlanOf(s, packageId).value && s.plans[k].neutralPackageId == neutral.value.id
                 && forall j :: 0 <= j < k ==> s.plans[j].neutralPackageId != neutral.value.id;
        assert Displays(s, packageId, n, k);
      }
    }
  }

  lemma DerivedStatusMatches(plan: Plan, receipts: seq<Receipt>)
    ensures StatusMatches(DerivePublicationStatus(Some(plan), receipts), plan, receipts)
  {
    var published := ChannelsOf(receipts, plan.id);
    forall c ensures c in published <==> HasReceipt(receipts, plan.id, c) {}
    forall i | i in ReceiptPositions(receipts, plan.id) ensures receipts[i].channelId in published {}
    if published != {} {
      var c :| c in published;
      var i :| 0 <= i < |receipts| && receipts[i].planId == plan.id && receipts[i].channelId == c;
      assert i in ReceiptPositions(receipts, plan.id);
    }
  }

  lemma ItemShows(s: Chain, p: PublishPackage)
    ensures Shows(s, p, ItemOf(s, p))
  {
    DisplayedIsFound(s, p.id);
    if PlanOf(s, p.id).Some? {
      var plan := PlanOf(s, p.id).value;
      ReceiptsAreCounted(s.receipts, plan.id);
      StatusByChannels(s, p.id);
      DerivedStatusMatches(plan, s.receipts);
    }
  }

  /** The positions of the tenant's packages. */
  function PackagePositions(packages: seq<PublishPackage>, scope: Tenant): set<int> {
    set i | 0 <= i < |packages| && packages[i].tenant == scope
  }

  lemma {:induction false} PackagesAreThere(packages: seq<PublishPackage>, scope: Tenant) returns (picks: seq<int>)
    ensures InOrder(picks, PackagePositions(packages, scope)) && |picks| == |PackagesOf(packages, scope)|
    ensures forall i :: 0 <= i < |picks| ==> 0 <= picks[i] < |packages| && PackagesOf(packages, scope)[i] == packages[picks[i]]
  {
    picks := [];
    if packages != [] {
      var n := |packages| - 1;
      var front := packages[..n];
      var before := PackagesAreThere(front, scope);
      picks := before;
      if packages[n].tenant == scope {
        OneMore(before, PackagePositions(front, scope), n);
        picks := before + [n];
        assert PackagePositions(packages, scope) == PackagePositions(front, scope) + {n};
      } else {
        assert PackagePositions(packages, scope) == PackagePositions(front, scope);
      }
    }
  }

  /**
   * The center is refused exactly without access to the client; otherwise it shows one item for each
   * package of the tenant and no other, in the order they were stored.
   */
  lemma CenterShows(s: Chain, actor: AuthorizationContext, scope: Tenant) returns (picks: seq<int>)
    ensures var center := ClientDeliveryCenter(s, actor, scope);
            && (center.None? <==> !CanAccessClientOrganization(actor, scope.clientOrganizationId))
            && (center.Some? ==>
                  && InOrder(picks, PackagePositions(s.packages, scope)) && |picks| == |center.value|
                  && forall i :: 0 <= i < |picks| ==> 0 <= picks[i] < |s.packages| && Shows(s, s.packages[picks[i]], center.value[i]))
  {
    picks := PackagesAreThere(s.packages, scope);
    var packages := PackagesOf(s.packages, scope);
    forall i | 0 <= i < |packages| ensures Shows(s, packages[i], ItemOf(s, packages[i])) { ItemShows(s, packages[i]); }
  }

  // ------------------------------------------------------------------ what one call changes

  lemma NeutralForAppend(neutrals: seq<NeutralPackage>, n: NeutralPackage, packageId: string)
    ensures NeutralFor(neutrals + [n], packageId) ==
            if NeutralFor(neutrals, packageId).Some? then NeutralFor(neutrals, packageId)
            else if n.publishPackageId == packageId then Some(n) else None
  {
    assert (neutrals + [n])[..|neutrals|] == neutrals;
  }

  lemma PlanForAppend(plans: seq<Plan>, p: Plan, neutralId: string)
    ensures PlanFor(plans + [p], neutralId) ==
            if PlanFor(plans, neutralId).Some? then PlanFor(plans, neutralId)
            else if p.neutralPackageId == neutralId then Some(p) else None
  {
    assert (plans + [p])[..|plans|] == plans;
  }

  lemma ReceiptsForAppend(receipts: seq<Receipt>, r: Receipt, planId: string)
    ensures ReceiptsFor(receipts + [r], planId) == ReceiptsFor(receipts, planId) + if r.planId == planId then [r] else []
  {
    assert (receipts + [r])[..|receipts|] == receipts;
  }

  lemma {:induction false} ReceiptsForIff(receipts: seq<Receipt>, planId: string, r: Receipt)
    ensures r in ReceiptsFor(receipts, planId) <==> r in receipts && r.planId == planId
  {
    if receipts != [] {
      var n := |receipts| - 1;
      ReceiptsForIff(receipts[..n], planId, r);
      assert receipts == receipts[..n] + [receipts[n]];
    }
  }

  lemma {:induction false} NeutralForFinds(neutrals: seq<NeutralPackage>, packageId: string)
    ensures var n := NeutralFor(neutrals, packageId);
            n.Some? ==> n.value in neutrals && n.value.publishPackageId == packageId
  {
    if neutrals != [] { NeutralForFinds(neutrals[..|neutrals| - 1], packageId); }
  }

  lemma {:induction false} PlanForFinds(plans: seq<Plan>, neutralId: string)
    ensures var p := PlanFor(plans, neutralId);
            p.Some? ==> p.value in plans && p.value.neutralPackageId == neutralId
  {
    if plans != [] { PlanForFinds(plans[..|plans| - 1], neutralId); }
  }

  lemma StorePlanStays(s: Chain, r: Record, packageId: string)
    requires PlanOf(s, packageId).Some?
    ensures PlanOf(Store(s, r), packageId) == PlanOf(s, packageId)
  {
    match r
    case NeutralRecord(n) => NeutralForAppend(s.neutrals, n, packageId);
    case PlanRecord(p) => PlanForAppend(s.plans, p, NeutralFor(s.neutrals, packageId).value.id);
    case _ =>
  }

  /** Once a package displays a plan, no later package, neutral package or plan displaces it. */
  lemma {:induction false} DisplayedPlanStays(s: Chain, calls: seq<Call>, packageId: string)
    requires PlanOf(s, packageId).Some?
    ensures PlanOf(After(s, calls), packageId) == PlanOf(s, packageId)
  {
    if calls != [] {
      var front, call := calls[..|calls| - 1], calls[|calls| - 1];
      DisplayedPlanStays(s, front, packageId);
      var before := After(s, front);
      if Perform(before, call).1.Made? {
        StorePlanStays(before, Perform(before, call).1.record, packageId);
        SamePlanRows(Perform(before, call).0, Store(before, Perform(before, call).1.record), packageId);
      }
    }
  }

  lemma SamePlanRows(s: Chain, t: Chain, packageId: string)
    requires s.neutrals == t.neutrals && s.plans == t.plans && s.receipts == t.receipts
    ensures PlanOf(s, packageId) == PlanOf(t, packageId) && ReceiptsOf(s, packageId) == ReceiptsOf(t, packageId)
  {
  }

  // ------------------------------------------------------------------ the status never regresses

  function Rank(status: Status): nat {
    match status
    case Packaged => 0
    case ChannelsSelected => 1
    case PartiallyPublished => 2
    case Published => 3
  }

  /** derivePublicationStatus read off the channels of all receipts of the displayed plan. */
  lemma StatusByChannels(s: Chain, packageId: string)
    ensures PlanOf(s, packageId).Some? ==>
              var plan := PlanOf(s, packageId).value;
              && ChannelsOf(ReceiptsOf(s, packageId), plan.id) == ChannelsOf(s.receipts, plan.id)
              && StatusOf(s, packageId) == DerivePublicationStatus(Some(plan), s.receipts)
  {
    if PlanOf(s, packageId).Some? {
      var plan := PlanOf(s, packageId).value;
      var all, own := s.receipts, ReceiptsFor(s.receipts, plan.id);
      forall r ensures r in own <==> r in all && r.planId == plan.id { ReceiptsForIff(all, plan.id, r); }
      assert forall i :: 0 <= i < |own| ==> own[i] in all;
      assert forall i :: 0 <= i < |all| && all[i].planId == plan.id ==> all[i] in own;
      assert ChannelsOf(own, plan.id) <= ChannelsOf(all, plan.id);
      assert ChannelsOf(all, plan.id) <= ChannelsOf(own, plan.id);
    }
  }

  lemma StoreNeverRegresses(s: Chain, r: Record, packageId: string)
    ensures Rank(StatusOf(s, packageId)) <= Rank(StatusOf(Store(s, r), packageId))
  {
    if PlanOf(s, packageId).Some? {
      StorePlanStays(s, r, packageId);
      StatusByChannels(s, packageId);
      StatusByChannels(Store(s, r), packageId);
      var t := Store(s, r);
      assert s.receipts <= t.receipts;
      assert forall i :: 0 <= i < |s.receipts| ==> t.receipts[i] == s.receipts[i];
      assert ChannelsOf(s.receipts, PlanOf(s, packageId).value.id) <= ChannelsOf(t.receipts, PlanOf(s, packageId).value.id);
    }
  }

  /** Along every run, whatever its calls, no package's displayed status goes back. */
  lemma {:induction false} StatusNeverRegresses(s: Chain, calls: seq<Call>, packageId: string)
    ensures Rank(StatusOf(s, packageId)) <= Rank(StatusOf(After(s, calls), packageId))
  {
    if calls != [] {
      var front, call := calls[..|calls| - 1], calls[|calls| - 1];
      StatusNeverRegresses(s, front, packageId);
      var before := After(s, front);
      if Perform(before, call).1.Made? {
        var stored := Store(before, Perform(before, call).1.record);
        StoreNeverRegresses(before, Perform(before, call).1.record, packageId);
        SamePlanRows(Perform(before, call).0, stored, packageId);
      }
    }
  }

  // ------------------------------------------------------------------ what PUBLISHED means

  /** In a sound state every receipt of the displayed plan names one of its channels. */
  lemma ReceiptsNamePlanChannels(s: Chain, packageId: string)
    requires Sound(s) && PlanOf(s, packageId).Some?
    ensures var plan := PlanOf(s, packageId).value;
            plan in s.plans && forall c <- ChannelsOf(s.receipts, plan.id) :: c in plan.channelIds
  {
    NeutralForFinds(s.neutrals, packageId);
    PlanForFinds(s.plans, NeutralFor(s.neutrals, packageId).value.id);
    var plan := PlanOf(s, packageId).value;
    forall c | c in ChannelsOf(s.receipts, plan.id) ensures c in plan.channelIds {
      var i :| 0 <= i < |s.receipts| && s.receipts[i].planId == plan.id && s.receipts[i].channelId == c;
      assert s.receipts[i] in s.receipts;
      var other :| other in s.plans && Executes(s.receipts[i], other);
      assert PlanId(other) == PlanId(plan);
    }
  }

  lemma StatusIff(s: Chain, packageId: string)
    requires Sound(s) && PlanOf(s, packageId).Some?
    ensures var plan := PlanOf(s, packageId).value;
            var done := ChannelsOf(s.receipts, plan.id);
            && (StatusOf(s, packageId).Published? <==> done == Selected(plan))
            && (StatusOf(s, packageId).PartiallyPublished? <==> {} < done < Selected(plan))
  {
    StatusByChannels(s, packageId);
    ReceiptsNamePlanChannels(s, packageId);
    var plan := PlanOf(s, packageId).value;
    var done := ChannelsOf(s.receipts, plan.id);
    assert plan.channelIds[0] in Selected(plan);
    assert done <= Selected(plan);
    assert (forall c <- plan.channelIds :: c in done) <==> Selected(plan) <= done;
  }

  /**
   * After any run on recorded values, a package is PUBLISHED exactly when the channels with receipts
   * are the channels of its plan, and PARTIALLY_PUBLISHED exactly when they are some but not all.
   */
  lemma PublishedIff(calls: seq<Call>, packageId: string)
    requires Proper(EMPTY, calls)
    ensures var s := After(EMPTY, calls);
            if PlanOf(s, packageId).None? then StatusOf(s, packageId).Packaged?
            else
              var plan := PlanOf(s, packageId).value;
              var done := ChannelsOf(s.receipts, plan.id);
              && (StatusOf(s, packageId).Published? <==> done == Selected(plan))
              && (StatusOf(s, packageId).PartiallyPublished? <==> {} < done < Selected(plan))
              && (StatusOf(s, packageId).ChannelsSelected? <==> done == {})
  {
    EmptyIsSound();
    RunKeepsSound(EMPTY, calls);
    var s := After(EMPTY, calls);
    StatusByChannels(s, packageId);
    if PlanOf(s, packageId).Some? { StatusIff(s, packageId); }
  }

  // ------------------------------------------------------------------ how many receipts are missing

  function Missing(s: Chain, packageId: string): set<string>
    requires PlanOf(s, packageId).Some?
  {
    var plan := PlanOf(s, packageId).value;
    Selected(plan) - ChannelsOf(s.receipts, plan.id)
  }

  lemma PublishedIffNothingMissing(s: Chain, packageId: string)
    requires PlanOf(s, packageId).Some?
    ensures StatusOf(s, packageId).Published? <==> Missing(s, packageId) == {}
  {
    StatusByChannels(s, packageId);
    var plan := PlanOf(s, packageId).value;
    assert plan.channelIds[0] in plan.channelIds;
    if Missing(s, packageId) == {} {
      forall c | c in plan.channelIds ensures c in ChannelsOf(s.receipts, plan.id) {
        assert c !in Missing(s, packageId);
      }
    }
  }

  lemma ChannelsAppend(receipts: seq<Receipt>, r: Receipt, planId: string)
    ensures ChannelsOf(receipts + [r], planId) == ChannelsOf(receipts, planId) + if r.planId == planId then {r.channelId} else {}
  {
    var all := receipts + [r];
    forall c | c in ChannelsOf(receipts, planId) ensures c in ChannelsOf(all, planId) {
      var i :| 0 <= i < |receipts| && receipts[i].planId == planId && receipts[i].channelId == c;
      assert all[i] == receipts[i];
    }
    assert all[|receipts|] == r;
  }

  /** One more stored record removes at most its own channel from what is missing. */
  lemma StoreAndMissing(s: Chain, r: Record, packageId: string)
    requires PlanOf(s, packageId).Some?
    ensures var t := Store(s, r);
            var plan := PlanOf(s, packageId).value;
            && PlanOf(t, packageId) == Some(plan)
            && Missing(t, packageId) == Missing(s, packageId)
                 - (if r.ReceiptRecord? && r.receipt.planId == plan.id then {r.receipt.channelId} else {})
            && |ReceiptsOf(t, packageId)| == |ReceiptsOf(s, packageId)|
                 + if r.ReceiptRecord? && r.receipt.planId == plan.id then 1 else 0
  {
    StorePlanStays(s, r, packageId);
    var plan := PlanOf(s, packageId).value;
    if r.ReceiptRecord? {
      ChannelsAppend(s.receipts, r.receipt, plan.id);
      ReceiptsForAppend(s.receipts, r.receipt, plan.id);
    }
  }

  lemma CallAndMissing(s: Chain, call: Call, packageId: string)
    requires PlanOf(s, packageId).Some?
    ensures var (t, result) := Perform(s, call);
            var plan := PlanOf(s, packageId).value;
            var own := result.Made? && result.record.ReceiptRecord? && result.record.receipt.planId == plan.id;
            && PlanOf(t, packageId) == Some(plan)
            && Missing(t, packageId) == Missing(s, packageId) - (if own then {result.record.receipt.channelId} else {})
            && |ReceiptsOf(t, packageId)| == |ReceiptsOf(s, packageId)| + if own then 1 else 0
  {
    var (t, result) := Perform(s, call);
    if result.Made? {
      StoreAndMissing(s, result.record, packageId);
      SamePlanRows(t, Store(s, result.record), packageId);
    }
  }

  /** No run reaches PUBLISHED with fewer new receipts than there are missing channels. */
  lemma {:induction false} EveryMissingChannelCostsAReceipt(s: Chain, calls: seq<Call>, packageId: string)
    requires PlanOf(s, packageId).Some?
    ensures PlanOf(After(s, calls), packageId) == PlanOf(s, packageId)
    ensures |ReceiptsOf(After(s, calls), packageId)| + |Missing(After(s, calls), packageId)|
         >= |ReceiptsOf(s, packageId)| + |Missing(s, packageId)|
    ensures StatusOf(After(s, calls), packageId).Published? ==>
              |ReceiptsOf(After(s, calls), packageId)| - |ReceiptsOf(s, packageId)| >= |Missing(s, packageId)|
  {
    if calls != [] {
      var front, call := calls[..|calls| - 1], calls[|calls| - 1];
      EveryMissingChannelCostsAReceipt(s, front, packageId);
      CallAndMissing(After(s, front), call, packageId);
    }
    PublishedIffNothingMissing(After(s, calls), packageId);
  }

  /** One receipt for each listed channel, by one actor. */
  function PublishCalls(actor: AuthorizationContext, plan: Plan, channels: seq<string>, ids: seq<string>, publisher: string): seq<Call>
    requires |channels| == |ids|
  {
    seq(|channels|, i requires 0 <= i < |channels| => Call(actor, ids[i], RecordReceipt(plan, channels[i], publisher)))
  }

  function Prefix(channels: seq<string>, n: nat): set<string>
    requires n <= |channels|
  {
    set i | 0 <= i < n :: channels[i]
  }

  /** An authorized, non-automatic actor's receipt for a plan channel is stored, and removes it from what is missing. */
  lemma OneReceipt(s: Chain, actor: AuthorizationContext, packageId: string, channel: string, id: string, publisher: string)
    requires PlanOf(s, packageId).Some? && channel in PlanOf(s, packageId).value.channelIds
    requires CanAccessClientOrganization(actor, PlanOf(s, packageId).value.tenant.clientOrganizationId) && !AutomaticActor(publisher)
    ensures var plan := PlanOf(s, packageId).value;
            var t := Perform(s, Call(actor, id, RecordReceipt(plan, channel, publisher))).0;
            && PlanOf(t, packageId) == Some(plan)
            && Missing(t, packageId) == Missing(s, packageId) - {channel}
            && |ReceiptsOf(t, packageId)| == |ReceiptsOf(s, packageId)| + 1
  {
    CallAndMissing(s, Call(actor, id, RecordReceipt(PlanOf(s, packageId).value, channel, publisher)), packageId);
  }

  lemma AfterOneMore(s: Chain, calls: seq<Call>, n: nat)
    requires 0 < n <= |calls|
    ensures After(s, calls[..n]) == Perform(After(s, calls[..n - 1]), calls[n - 1]).0
  {
    assert calls[..n][..n - 1] == calls[..n - 1];
  }

  lemma PrefixGrows(channels: seq<string>, n: nat)
    requires 0 < n <= |channels|
    ensures Prefix(channels, n) == Prefix(channels, n - 1) + {channels[n - 1]}
  {
  }

  lemma {:induction false} AfterSomeReceipts(
      s: Chain, actor: AuthorizationContext, packageId: string, channels: seq<string>, ids: seq<string>, publisher: string, n: nat)
    requires PlanOf(s, packageId).Some? && |channels| == |ids| && n <= |channels|
    requires forall c <- channels :: c in PlanOf(s, packageId).value.channelIds
    requires CanAccessClientOrganization(actor, PlanOf(s, packageId).value.tenant.clientOrganizationId) && !AutomaticActor(publisher)
    ensures var plan := PlanOf(s, packageId).value;
            var t := After(s, PublishCalls(actor, plan, channels, ids, publisher)[..n]);
            && PlanOf(t, packageId) == Some(plan)
            && Missing(t, packageId) == Missing(s, packageId) - Prefix(channels, n)
            && |ReceiptsOf(t, packageId)| == |ReceiptsOf(s, packageId)| + n
  {
    if n > 0 {
      var plan := PlanOf(s, packageId).value;
      var calls := PublishCalls(actor, plan, channels, ids, publisher);
      AfterSomeReceipts(s, actor, packageId, channels, ids, publisher, n - 1);
      assert channels[n - 1] in channels;
      OneReceipt(After(s, calls[..n - 1]), actor, packageId, channels[n - 1], ids[n - 1], publisher);
      AfterOneMore(s, calls, n);
      PrefixGrows(channels, n);
    }
  }

  /**
   * Publishing each missing channel once, in any order, reaches PUBLISHED in exactly as many receipts
   * as there are missing channels, and not before the last of them.
   */
  lemma PublishingTheMissingChannels(
      s: Chain, actor: AuthorizationContext, packageId: string, channels: seq<string>, ids: seq<string>, publisher: string, n: nat)
    requires PlanOf(s, packageId).Some? && |channels| == |ids| && n <= |channels|
    requires (set c | c in channels) == Missing(s, packageId) && forall i, j :: 0 <= i < j < |channels| ==> channels[i] != channels[j]
    requires CanAccessClientOrganization(actor, PlanOf(s, packageId).value.tenant.clientOrganizationId) && !AutomaticActor(publisher)
    ensures var t := After(s, PublishCalls(actor, PlanOf(s, packageId).value, channels, ids, publisher)[..n]);
            && (StatusOf(t, packageId).Published? <==> n == |Missing(s, packageId)|)
            && |ReceiptsOf(t, packageId)| == |ReceiptsOf(s, packageId)| + n
  {
    assert forall c <- channels :: c in Missing(s, packageId);
    AfterSomeReceipts(s, actor, packageId, channels, ids, publisher, n);
    var t := After(s, PublishCalls(actor, PlanOf(s, packageId).value, channels, ids, publisher)[..n]);
    PublishedIffNothingMissing(t, packageId);
    DistinctSize(channels);
    if n < |channels| {
      assert channels[n] in Missing(t, packageId);
    } else {
      assert forall c <- channels :: c in Prefix(channels, n);
    }
  }

  lemma {:induction false} DistinctSize(channels: seq<string>)
    requires forall i, j :: 0 <= i < j < |channels| ==> channels[i] != channels[j]
    ensures |set c | c in channels| == |channels|
  {
    if channels != [] {
      var n := |channels| - 1;
      DistinctSize(channels[..n]);
      assert (set c | c in channels) == (set c | c in channels[..n]) + {channels[n]};
    }
  }

  // ------------------------------------------------------------------ other clients cannot disturb it

  lemma PackagesOfAppend(packages: seq<PublishPackage>, p: PublishPackage, scope: Tenant)
    ensures PackagesOf(packages + [p], scope) == PackagesOf(packages, scope) + if p.tenant == scope then [p] else []
  {
    assert (packages + [p])[..|packages|] == packages;
  }

  lemma {:induction false} PackagesOfFinds(packages: seq<PublishPackage>, scope: Tenant)
    ensures forall p <- PackagesOf(packages, scope) :: p in packages && p.tenant == scope
  {
    if packages != [] { PackagesOfFinds(packages[..|packages| - 1], scope); }
  }

  /** The displayed neutral package and plan belong to the package's own client. */
  lemma DisplayedTenant(s: Chain, p: PublishPackage)
    requires Sound(s) && p in s.packages
    ensures var n := NeutralFor(s.neutrals, p.id);
            n.Some? ==> n.value in s.neutrals && n.value.publishPackageId == p.id && n.value.tenant == p.tenant
    ensures var plan := PlanOf(s, p.id);
            plan.Some? ==> plan.value in s.plans && plan.value.tenant == p.tenant
  {
    var neutral := NeutralFor(s.neutrals, p.id);
    NeutralForFinds(s.neutrals, p.id);
    if neutral.Some? {
      var owner :| owner in s.packages && Neutralizes(neutral.value, owner);
      assert PackageId(owner) == PackageId(p);
      PlanForFinds(s.plans, neutral.value.id);
      if PlanOf(s, p.id).Some? {
        var base :| base in s.neutrals && Distributes(PlanOf(s, p.id).value, base);
        assert NeutralId(base) == NeutralId(neutral.value);
      }
    }
  }

  lemma NeutralOfAnotherClient(s: Chain, p: PublishPackage, owner: PublishPackage, n: NeutralPackage)
    requires Sound(s) && p in s.packages && owner in s.packages && n.publishPackageId == owner.id
    requires owner.tenant.clientOrganizationId != p.tenant.clientOrganizationId
    ensures NeutralFor(s.neutrals + [n], p.id) == NeutralFor(s.neutrals, p.id)
  {
    assert PackageId(owner) != PackageId(p);
    NeutralForAppend(s.neutrals, n, p.id);
  }

  lemma PlanOfAnotherClient(s: Chain, p: PublishPackage, base: NeutralPackage, plan: Plan)
    requires Sound(s) && p in s.packages && base in s.neutrals && plan.neutralPackageId == base.id
    requires base.tenant.clientOrganizationId != p.tenant.clientOrganizationId
    ensures PlanOf(s.(plans := s.plans + [plan]), p.id) == PlanOf(s, p.id)
  {
    var neutral := NeutralFor(s.neutrals, p.id);
    if neutral.Some? {
      DisplayedTenant(s, p);
      assert NeutralId(base) != NeutralId(neutral.value);
      PlanForAppend(s.plans, plan, neutral.value.id);
    }
  }

  lemma ReceiptOfAnotherClient(s: Chain, p: PublishPackage, plan: Plan, r: Receipt)
    requires Sound(s) && p in s.packages && plan in s.plans && r.planId == plan.id
    requires plan.tenant.clientOrganizationId != p.tenant.clientOrganizationId
    ensures ReceiptsOf(s.(receipts := s.receipts + [r]), p.id) == ReceiptsOf(s, p.id)
  {
    var shown := PlanOf(s, p.id);
    if shown.Some? {
      DisplayedTenant(s, p);
      assert PlanId(plan) != PlanId(shown.value);
      ReceiptsForAppend(s.receipts, r, shown.value.id);
    }
  }

  lemma SameShown(s: Chain, t: Chain, p: PublishPackage)
    requires PlanOf(s, p.id) == PlanOf(t, p.id) && ReceiptsOf(s, p.id) == ReceiptsOf(t, p.id)
    ensures ItemOf(s, p) == ItemOf(t, p)
  {
  }

  /** A record of another client, built from recorded values, does not show in a package's item. */
  lemma StoreLeavesItem(s: Chain, id: string, c: Command, p: PublishPackage)
    requires Sound(s) && Recorded(s, c) && Build(id, c).Some? && p in s.packages
    requires Target(c).clientOrganizationId != p.tenant.clientOrganizationId
    ensures ItemOf(Store(s, Build(id, c).value), p) == ItemOf(s, p)
  {
    var t := Store(s, Build(id, c).value);
    if c.CreateNeutralPackage? {
      NeutralOfAnotherClient(s, p, c.package, Build(id, c).value.neutral);
    } else if c.CreatePlan? {
      PlanOfAnotherClient(s, p, c.neutral, Build(id, c).value.plan);
    } else if c.RecordReceipt? {
      ReceiptOfAnotherClient(s, p, c.plan, Build(id, c).value.receipt);
    } else {
      SamePlanRows(s, t, p.id);
    }
    SameShown(s, t, p);
  }

  /**
   * A client's delivery center shows the same after any run on recorded values by actors who cannot
   * access that client, whichever plans and packages of other clients they made.
   */
  lemma {:induction false} DeliveryCenterIsUndisturbed(s: Chain, calls: seq<Call>, reader: AuthorizationContext, scope: Tenant)
    requires Sound(s) && Proper(s, calls)
    requires forall i :: 0 <= i < |calls| ==> !CanAccessClientOrganization(calls[i].actor, scope.clientOrganizationId)
    ensures ClientDeliveryCenter(After(s, calls), reader, scope) == ClientDeliveryCenter(s, reader, scope)
  {
    if calls != [] {
      ProperPrefix(s, calls);
      var front, call := calls[..|calls| - 1], calls[|calls| - 1];
      DeliveryCenterIsUndisturbed(s, front, reader, scope);
      RunKeepsSound(s, front);
      CallLeavesCenter(After(s, front), call, reader, scope);
    }
  }

  lemma StoreLeavesPackages(s: Chain, r: Record, scope: Tenant)
    requires TenantOf(r).clientOrganizationId != scope.clientOrganizationId
    ensures PackagesOf(Store(s, r).packages, scope) == PackagesOf(s.packages, scope)
  {
    if r.PackageRecord? { PackagesOfAppend(s.packages, r.package, scope); }
  }

  lemma StoreLeavesItems(s: Chain, id: string, c: Command, scope: Tenant)
    requires Sound(s) && Recorded(s, c) && Build(id, c).Some? && Target(c).clientOrganizationId != scope.clientOrganizationId
    ensures ItemsOf(Store(s, Build(id, c).value), PackagesOf(s.packages, scope)) == ItemsOf(s, PackagesOf(s.packages, scope))
  {
    var packages := PackagesOf(s.packages, scope);
    PackagesOfFinds(s.packages, scope);
    forall i | 0 <= i < |packages| ensures ItemOf(Store(s, Build(id, c).value), packages[i]) == ItemOf(s, packages[i]) {
      assert packages[i] in packages;
      StoreLeavesItem(s, id, c, packages[i]);
    }
  }

  lemma SameCenter(s: Chain, t: Chain, packages: seq<PublishPackage>)
    requires s.neutrals == t.neutrals && s.plans == t.plans && s.receipts == t.receipts
    ensures ItemsOf(s, packages) == ItemsOf(t, packages)
  {
    forall i | 0 <= i < |packages| ensures ItemOf(s, packages[i]) == ItemOf(t, packages[i]) {
      SamePlanRows(s, t, packages[i].id);
      SameShown(s, t, packages[i]);
    }
  }

  lemma CallLeavesCenter(s: Chain, call: Call, reader: AuthorizationContext, scope: Tenant)
    requires Sound(s) && Recorded(s, call.command)
    requires !CanAccessClientOrganization(call.actor, scope.clientOrganizationId)
    ensures ClientDeliveryCenter(Perform(s, call).0, reader, scope) == ClientDeliveryCenter(s, reader, scope)
  {
    var (t, result) := Perform(s, call);
    if result.Made? {
      BuiltInTarget(call.id, call.command);
      StoreLeavesPackages(s, result.record, scope);
      StoreLeavesItems(s, call.id, call.command, scope);
      SameCenter(t, Store(s, result.record), PackagesOf(s.packages, scope));
    }
  }
}
