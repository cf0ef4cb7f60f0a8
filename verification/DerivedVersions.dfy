/**
 * Version numbers the database derives: ROW_NUMBER over a tenant's knowledge packages, and MAX + 1
 * over a brief's provider contents.
 */
module DerivedVersions {
  import opened Options
  import opened Roles

  // ------------------------------------------------------------------ ORDER BY two columns

  predicate Before(a: (int, int), b: (int, int)) {
    a.0 < b.0 || (a.0 == b.0 && a.1 < b.1)
  }

  function Insert<T>(s: seq<T>, x: T, key: T -> (int, int)): seq<T> {
    if s == [] then [x]
    else
      var n := |s| - 1;
      if Before(key(x), key(s[n])) then Insert(s[..n], x, key) + [s[n]] else s + [x]
  }

  function OrderBy<T>(s: seq<T>, key: T -> (int, int)): seq<T> {
    if s == [] then [] else Insert(OrderBy(s[..|s| - 1], key), s[|s| - 1], key)
  }

  ghost predicate Ascending<T>(s: seq<T>, key: T -> (int, int)) {
    forall i, j :: 0 <= i < j < |s| ==> Before(key(s[i]), key(s[j]))
  }

  lemma {:induction false} InsertAdds<T>(s: seq<T>, x: T, key: T -> (int, int))
    ensures multiset(Insert(s, x, key)) == multiset(s) + multiset{x}
  {
    if s != [] && Before(key(x), key(s[|s| - 1])) {
      InsertAdds(s[..|s| - 1], x, key);
      assert s == s[..|s| - 1] + [s[|s| - 1]];
    }
  }

  lemma InsertHas<T>(s: seq<T>, x: T, key: T -> (int, int), y: T)
    requires y in Insert(s, x, key)
    ensures y == x || y in s
  {
    InsertAdds(s, x, key);
    assert y in multiset(Insert(s, x, key));
  }

  lemma {:induction false} InsertKeepsOrder<T>(s: seq<T>, x: T, key: T -> (int, int))
    requires Ascending(s, key) && forall i :: 0 <= i < |s| ==> key(s[i]) != key(x)
    ensures Ascending(Insert(s, x, key), key)
  {
    if s != [] {
      var n := |s| - 1;
      if Before(key(x), key(s[n])) {
        InsertKeepsOrder(s[..n], x, key);
        var t := Insert(s[..n], x, key);
        forall i | 0 <= i < |t| ensures Before(key(t[i]), key(s[n])) {
          InsertHas(s[..n], x, key, t[i]);
        }
      } else {
        forall i | 0 <= i < n ensures Before(key(s[i]), key(x)) { assert Before(key(s[i]), key(s[n])); }
      }
    }
  }

  lemma {:induction false} OrderByOrders<T>(s: seq<T>, key: T -> (int, int))
    requires forall i, j :: 0 <= i < j < |s| ==> key(s[i]) != key(s[j])
    ensures Ascending(OrderBy(s, key), key)
    ensures multiset(OrderBy(s, key)) == multiset(s)
  {
    if s != [] {
      var n := |s| - 1;
      assert s == s[..n] + [s[n]];
      OrderByOrders(s[..n], key);
      var t := OrderBy(s[..n], key);
      forall i | 0 <= i < |t| ensures key(t[i]) != key(s[n]) {
        assert t[i] in multiset(s[..n]);
      }
      InsertKeepsOrder(t, s[n], key);
      InsertAdds(t, s[n], key);
    }
  }

  lemma {:induction false} OrderByIsIdentity<T>(s: seq<T>, key: T -> (int, int))
    requires Ascending(s, key)
    ensures OrderBy(s, key) == s
  {
    if s != [] {
      var n := |s| - 1;
      OrderByIsIdentity(s[..n], key);
      assert s == s[..n] + [s[n]];
    }
  }

  // ------------------------------------------------------------------ the knowledge package bridge

  /** A knowledge_package row; an id stands for a UUID by its rank in the database's order. */
  datatype Row = Row(
    id: int, tenant: Tenant, title: string, confirmed: bool, classification: string, createdAt: int, confirmedAt: Option<int>)

  datatype View = View(
    id: int, tenant: Tenant, version: nat, title: string, sourceDescription: string, createdAt: int, sealedAt: Option<int>)

  function KeyOf(r: Row): (int, int) { (r.createdAt, r.id) }

  function InScope(rows: seq<Row>, scope: Tenant): seq<Row> {
    if rows == [] then []
    else InScope(rows[..|rows| - 1], scope) + if rows[|rows| - 1].tenant == scope then [rows[|rows| - 1]] else []
  }

  /** ROW_NUMBER() OVER (PARTITION BY tenant ORDER BY created_at, id). */
  function Version(rows: seq<Row>, r: Row): nat {
    1 + |set x | x in rows && x.tenant == r.tenant && Before(KeyOf(x), KeyOf(r))|
  }

  function ViewOf(rows: seq<Row>, r: Row): View {
    View(r.id, r.tenant, Version(rows, r), r.title,
         "Enterprise knowledge package (classification " + r.classification + ") \U{2014} canonical knowledge_package (migration 0002).",
         r.createdAt,
         if !r.confirmed then None else if r.confirmedAt.Some? then r.confirmedAt else Some(r.createdAt))
  }

  function Find(rows: seq<Row>, id: int): Option<Row> {
    if rows == [] then None
    else if rows[0].id == id then Some(rows[0])
    else Find(rows[1..], id)
  }

  function GetById(rows: seq<Row>, id: int): Option<View> {
    var r := Find(rows, id);
    if r.None? then None else Some(ViewOf(rows, r.value))
  }

  function ListByScope(rows: seq<Row>, scope: Tenant): seq<View> {
    var ordered := OrderBy(InScope(rows, scope), KeyOf);
    seq(|ordered|, i requires 0 <= i < |ordered| => ViewOf(rows, ordered[i]))
  }

  /** What add is given: the package's own version is not stored. */
  datatype NewPackage = NewPackage(id: int, tenant: Tenant, version: int, title: string, createdAt: int, sealedAt: Option<int>)

  datatype AddResult = Stored(view: View) | NoPrincipal | AlreadyExists

  class KnowledgePackageBridge {
    var rows: seq<Row>
    const createdByUserId: Option<string>
    const classification: Option<string>

    constructor (createdByUserId: Option<string>, classification: Option<string>)
      ensures rows == [] && this.createdByUserId == createdByUserId && this.classification == classification
    {
      rows := [];
      this.createdByUserId, this.classification := createdByUserId, classification;
    }

    method Add(p: NewPackage) returns (result: AddResult)
      modifies this
      ensures result.NoPrincipal? <==> createdByUserId.None? || createdByUserId.value == ""
      ensures result.AlreadyExists? <==> !result.NoPrincipal? && exists r <- old(rows) :: r.id == p.id
      ensures !result.Stored? ==> rows == old(rows)
      ensures result.Stored? ==>
                && (exists r: Row :: rows == old(rows) + [r] && r.id == p.id && r.tenant == p.tenant && r.createdAt == p.createdAt
                                     && r.title == p.title && r.confirmed == p.sealedAt.Some? && r.confirmedAt == p.sealedAt
                                     && r.classification == if classification.Some? then classification.value else "INTERNAL")
                && GetById(rows, p.id) == Some(result.view)
    {
      if createdByUserId.None? || createdByUserId.value == "" { return NoPrincipal; }
      var row := Row(p.id, p.tenant, p.title, p.sealedAt.Some?,
                     if classification.Some? then classification.value else "INTERNAL", p.createdAt, p.sealedAt);
      if exists r <- rows :: r.id == p.id { return AlreadyExists; }
      FindAppended(rows, row);
      rows := rows + [row];
      result := Stored(GetById(rows, p.id).value);
    }
  }

  lemma {:induction false} FindAppended(rows: seq<Row>, row: Row)
    requires forall r <- rows :: r.id != row.id
    ensures Find(rows + [row], row.id) == Some(row)
  {
    if rows != [] {
      assert (rows + [row])[1..] == rows[1..] + [row];
      FindAppended(rows[1..], row);
    }
  }

  /** Ids are the primary key. */
  ghost predicate DistinctIds(rows: seq<Row>) {
    forall i, j :: 0 <= i < j < |rows| ==> rows[i].id != rows[j].id
  }

  lemma {:induction false} FindFinds(rows: seq<Row>, r: Row)
    requires DistinctIds(rows) && r in rows
    ensures Find(rows, r.id) == Some(r)
  {
    if rows[0] != r {
      assert DistinctIds(rows[1..]);
      FindFinds(rows[1..], r);
    }
  }

  lemma {:induction false} InScopeIff(rows: seq<Row>, scope: Tenant)
    requires DistinctIds(rows)
    ensures forall r :: r in InScope(rows, scope) <==> r in rows && r.tenant == scope
    ensures DistinctIds(InScope(rows, scope))
  {
    if rows != [] {
      var n := |rows| - 1;
      InScopeIff(rows[..n], scope);
      assert rows == rows[..n] + [rows[n]];
      var front := InScope(rows[..n], scope);
      forall i | 0 <= i < |front| ensures front[i].id != rows[n].id {
        assert front[i] in rows[..n];
      }
    }
  }

  lemma {:induction false} DistinctCount(s: seq<Row>)
    requires Ascending(s, KeyOf)
    ensures |set x | x in s| == |s|
  {
    if s != [] {
      var n := |s| - 1;
      DistinctCount(s[..n]);
      assert s == s[..n] + [s[n]];
      assert (set x | x in s) == (set x | x in s[..n]) + {s[n]};
    }
  }

  /** The scope's rows in (created_at, id) order: all of them, once each. */
  lemma OrderedScope(rows: seq<Row>, scope: Tenant)
    requires DistinctIds(rows)
    ensures var ordered := OrderBy(InScope(rows, scope), KeyOf);
            && Ascending(ordered, KeyOf) && |ordered| == |InScope(rows, scope)|
            && forall x :: x in ordered <==> x in rows && x.tenant == scope
  {
    InScopeIff(rows, scope);
    var own := InScope(rows, scope);
    OrderByOrders(own, KeyOf);
    var ordered := OrderBy(own, KeyOf);
    assert |multiset(ordered)| == |multiset(own)|;
    forall x ensures x in ordered <==> x in own { assert x in multiset(ordered) <==> x in multiset(own); }
  }

  lemma EarlierArePrefix(ordered: seq<Row>, i: nat, x: Row)
    requires Ascending(ordered, KeyOf) && i < |ordered|
    ensures x in ordered[..i] <==> x in ordered && Before(KeyOf(x), KeyOf(ordered[i]))
  {
    if x in ordered {
      var j :| 0 <= j < |ordered| && ordered[j] == x;
      if j < i { assert ordered[..i][j] == x; }
    }
  }

  /** The i-th row of a scope in (created_at, id) order has exactly i scope rows before it. */
  lemma PositionIsVersion(rows: seq<Row>, scope: Tenant, i: nat)
    requires DistinctIds(rows)
    requires i < |OrderBy(InScope(rows, scope), KeyOf)|
    ensures var r := OrderBy(InScope(rows, scope), KeyOf)[i]; r in rows && r.tenant == scope && Version(rows, r) == i + 1
  {
    OrderedScope(rows, scope);
    var ordered := OrderBy(InScope(rows, scope), KeyOf);
    var r := ordered[i];
    assert r in ordered;
    var earlier := set x | x in rows && x.tenant == r.tenant && Before(KeyOf(x), KeyOf(r));
    forall x ensures x in earlier <==> x in ordered[..i] { EarlierArePrefix(ordered, i, x); }
    assert earlier == set x | x in ordered[..i];
    DistinctCount(ordered[..i]);
  }

  /** A view is of its own row: id, scope, title and creation time, sealed exactly when confirmed, at the confirmation or failing one at creation. */
  lemma ViewShowsRow(rows: seq<Row>, r: Row)
    ensures var v := ViewOf(rows, r);
            && v.id == r.id && v.tenant == r.tenant && v.title == r.title && v.createdAt == r.createdAt
            && (v.sealedAt.Some? <==> r.confirmed)
            && (r.confirmed && r.confirmedAt.Some? ==> v.sealedAt == r.confirmedAt)
            && (r.confirmed && r.confirmedAt.None? ==> v.sealedAt == Some(r.createdAt))
            && v.version >= 1
  {
  }

  /** Reading by id finds exactly the stored row of that id. */
  lemma {:induction false} GetByIdReads(rows: seq<Row>, id: int)
    requires DistinctIds(rows)
    ensures GetById(rows, id).None? <==> forall r <- rows :: r.id != id
    ensures forall r <- rows :: r.id == id ==> GetById(rows, id) == Some(ViewOf(rows, r))
  {
    FindIsInRows(rows, id);
    forall r | r in rows && r.id == id ensures Find(rows, id) == Some(r) { FindFinds(rows, r); }
  }

  lemma {:induction false} FindIsInRows(rows: seq<Row>, id: int)
    ensures Find(rows, id).Some? ==> Find(rows, id).value in rows && Find(rows, id).value.id == id
  {
    if rows != [] && rows[0].id != id { FindIsInRows(rows[1..], id); }
  }

  /**
   * Within a scope the versions are exactly 1 to n in list order, the list holds exactly the scope's
   * packages, and reading one by id gives the list's own entry.
   */
  lemma VersionsAreListPositions(rows: seq<Row>, scope: Tenant)
    requires DistinctIds(rows)
    ensures var list := ListByScope(rows, scope);
            && (forall i :: 0 <= i < |list| ==> list[i].version == i + 1 && GetById(rows, list[i].id) == Some(list[i]))
            && (forall r <- rows :: r.tenant == scope ==> ViewOf(rows, r) in list)
            && (forall i, j :: 0 <= i < j < |list| ==>
                  list[i].createdAt < list[j].createdAt || (list[i].createdAt == list[j].createdAt && list[i].id < list[j].id))
            && |list| == |InScope(rows, scope)|
  {
    var ordered := OrderBy(InScope(rows, scope), KeyOf);
    OrderedScope(rows, scope);
    var list := ListByScope(rows, scope);
    forall i, j | 0 <= i < j < |list|
      ensures list[i].createdAt < list[j].createdAt || (list[i].createdAt == list[j].createdAt && list[i].id < list[j].id)
    {
      assert Before(KeyOf(ordered[i]), KeyOf(ordered[j]));
    }
    forall i | 0 <= i < |list| ensures list[i].version == i + 1 && GetById(rows, list[i].id) == Some(list[i]) {
      PositionIsVersion(rows, scope, i);
      FindFinds(rows, ordered[i]);
    }
    forall r | r in rows && r.tenant == scope ensures ViewOf(rows, r) in list {
      var i :| 0 <= i < |ordered| && ordered[i] == r;
      assert list[i] == ViewOf(rows, r);
    }
  }

  lemma VersionAfterInsert(rows: seq<Row>, row: Row, r: Row)
    requires row !in rows
    ensures Version(rows + [row], r)
         == Version(rows, r) + if row.tenant == r.tenant && Before(KeyOf(row), KeyOf(r)) then 1 else 0
  {
    var older := set x | x in rows && x.tenant == r.tenant && Before(KeyOf(x), KeyOf(r));
    var backDated := set x | x in rows + [row] && x.tenant == r.tenant && Before(KeyOf(x), KeyOf(r));
    if row.tenant == r.tenant && Before(KeyOf(row), KeyOf(r)) {
      assert backDated == older + {row};
    } else {
      assert backDated == older;
    }
  }

  /**
   * An insert leaves every existing version as it was exactly when it is not ordered before an
   * existing package of its scope; created_at comes from the caller, so a back-dated package renumbers.
   */
  lemma InsertKeepsVersionsIff(rows: seq<Row>, row: Row)
    requires row !in rows
    ensures (forall r <- rows :: Version(rows + [row], r) == Version(rows, r))
            <==> (forall r <- rows :: r.tenant == row.tenant ==>
                    r.createdAt < row.createdAt || (r.createdAt == row.createdAt && r.id <= row.id))
  {
    forall r | r in rows
      ensures Version(rows + [row], r) == Version(rows, r) <==> !(row.tenant == r.tenant && Before(KeyOf(row), KeyOf(r)))
    {
      VersionAfterInsert(rows, row, r);
    }
  }

  /** Concretely: a package dated before the scope's only one takes version 1, and that one becomes 2. */
  lemma BackDatedPackageRenumbers(scope: Tenant)
    ensures var older := Row(1, scope, "a", false, "INTERNAL", 10, None);
            var backDated := Row(2, scope, "b", false, "INTERNAL", 5, None);
            Version([older], older) == 1 && Version([older] + [backDated], older) == 2 && Version([older] + [backDated], backDated) == 1
  {
    var older := Row(1, scope, "a", false, "INTERNAL", 10, None);
    var backDated := Row(2, scope, "b", false, "INTERNAL", 5, None);
    assert (set x | x in [older] && x.tenant == older.tenant && Before(KeyOf(x), KeyOf(older))) == {};
    assert (set x | x in [older] && x.tenant == backDated.tenant && Before(KeyOf(x), KeyOf(backDated))) == {};
    VersionAfterInsert([older], backDated, older);
    VersionAfterInsert([older], backDated, backDated);
  }

  // ------------------------------------------------------------------ provider contents

  datatype ContentRow = ContentRow(id: int, tenant: Tenant, briefId: string, envelopeId: string, version: nat, receivedAt: int)

  function ContentKey(r: ContentRow): (int, int) { (r.version, r.id) }

  /** COALESCE(MAX(version), 0) over the brief's rows. */
  function MaxVersion(rows: seq<ContentRow>, briefId: string): nat {
    if rows == [] then 0
    else
      var front, last := MaxVersion(rows[..|rows| - 1], briefId), rows[|rows| - 1];
      if last.briefId == briefId && last.version > front then last.version else front
  }

  function OfBrief(rows: seq<ContentRow>, briefId: string): seq<ContentRow> {
    if rows == [] then []
    else OfBrief(rows[..|rows| - 1], briefId) + if rows[|rows| - 1].briefId == briefId then [rows[|rows| - 1]] else []
  }

  function ListByArticleBrief(rows: seq<ContentRow>, briefId: string): seq<ContentRow> {
    OrderBy(OfBrief(rows, briefId), ContentKey)
  }

  class ProviderArticleContentRepository {
    var rows: seq<ContentRow>

    constructor ()
      ensures rows == []
    {
      rows := [];
    }

    /** The version of the argument is ignored; a used id refuses the insert. */
    method Add(content: ContentRow) returns (stored: Option<ContentRow>)
      modifies this
      ensures rows == Added(old(rows), content)
      ensures stored.None? <==> exists r <- old(rows) :: r.id == content.id
      ensures stored.Some? ==> rows == old(rows) + [stored.value]
    {
      if exists r <- rows :: r.id == content.id { return None; }
      var row := content.(version := MaxVersion(rows, content.briefId) + 1);
      rows := rows + [row];
      stored := Some(row);
    }
  }

  function Added(rows: seq<ContentRow>, content: ContentRow): seq<ContentRow> {
    if exists r <- rows :: r.id == content.id then rows
    else rows + [content.(version := MaxVersion(rows, content.briefId) + 1)]
  }

  function AfterAdds(contents: seq<ContentRow>): seq<ContentRow> {
    if contents == [] then [] else Added(AfterAdds(contents[..|contents| - 1]), contents[|contents| - 1])
  }

  lemma ContentAppend(rows: seq<ContentRow>, row: ContentRow, briefId: string)
    ensures OfBrief(rows + [row], briefId) == OfBrief(rows, briefId) + if row.briefId == briefId then [row] else []
    ensures MaxVersion(rows + [row], briefId)
         == if row.briefId == briefId && row.version > MaxVersion(rows, briefId) then row.version else MaxVersion(rows, briefId)
  {
    assert (rows + [row])[..|rows|] == rows;
  }

  /** In append order the i-th content of the brief has version i + 1. */
  ghost predicate CountsUp(rows: seq<ContentRow>, briefId: string) {
    var own := OfBrief(rows, briefId);
    && (forall i :: 0 <= i < |own| ==> own[i].version == i + 1)
    && MaxVersion(rows, briefId) == |own|
  }

  lemma AddedCountsUp(rows: seq<ContentRow>, content: ContentRow, briefId: string)
    requires CountsUp(rows, briefId)
    ensures CountsUp(Added(rows, content), briefId)
  {
    if Added(rows, content) != rows {
      ContentAppend(rows, content.(version := MaxVersion(rows, content.briefId) + 1), briefId);
    }
  }

  /** An add stores the content as given but for its version, the next of its brief; a used id stores nothing. */
  lemma AddStores(rows: seq<ContentRow>, content: ContentRow)
    requires CountsUp(rows, content.briefId)
    ensures var after := Added(rows, content);
            if exists r <- rows :: r.id == content.id then after == rows
            else && |after| == |rows| + 1 && rows <= after
                 && var x := after[|rows|];
                    && x.id == content.id && x.tenant == content.tenant && x.briefId == content.briefId
                    && x.envelopeId == content.envelopeId && x.receivedAt == content.receivedAt
                    && x.version == |OfBrief(rows, content.briefId)| + 1
  {
  }

  lemma {:induction false} VersionsCountUp(contents: seq<ContentRow>, briefId: string)
    ensures CountsUp(AfterAdds(contents), briefId)
  {
    if contents != [] {
      VersionsCountUp(contents[..|contents| - 1], briefId);
      AddedCountsUp(AfterAdds(contents[..|contents| - 1]), contents[|contents| - 1], briefId);
    }
  }

  /** After any sequence of adds, a brief's list is its contents in append order, versioned 1 to n. */
  lemma ListIsAppendOrder(contents: seq<ContentRow>, briefId: string)
    ensures var rows := AfterAdds(contents);
            var list := ListByArticleBrief(rows, briefId);
            && list == OfBrief(rows, briefId)
            && forall i :: 0 <= i < |list| ==> list[i].version == i + 1
  {
    VersionsCountUp(contents, briefId);
    OrderByIsIdentity(OfBrief(AfterAdds(contents), briefId), ContentKey);
  }
}
