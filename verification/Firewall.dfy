/**
 * The governance firewall on provider output: a deep but depth-bounded search for governance keys
 * and verdict literals, then a whitelist of the content shape.
 */
module Firewall {
  import opened Options
  import opened ProviderContract
  import opened Texts

  const GOVERNANCE_KEY_FRAGMENTS: seq<string> := [
    "gate", "approv", "reviewer", "humanreview", "authorizing", "status", "publish", "publication",
    "channel", "selectedby", "selectedat", "distributionplan", "sealed", "evidencehash", "eventhash",
    "decisionhash", "contenthash", "payloadhash", "envelopeid", "evidenceid", "validation"]

  const GOVERNANCE_VALUE_LITERALS: seq<string> := [
    "APPROVED", "CHANGES_REQUESTED", "REJECTED", "PENDING_VALIDATION", "VALIDATED", "PASSED", "FAILED",
    "SEALED", "PACKAGED", "CHANNELS_SELECTED", "PARTIALLY_PUBLISHED", "PUBLISHED", "PLATFORM_WIDE_GATE",
    "INDUSTRY_VERTICAL_GATE", "PLATFORM_GATE", "VERTICAL_GATE", "ESCALATED_FOR_HUMAN_REVIEW", "NEEDS_HUMAN_REVIEW"]

  const ALLOWED_CONTENT_KEYS: seq<string> := ["schemaVersion", "title", "summary", "sections"]
  const ALLOWED_SECTION_KEYS: seq<string> := ["heading", "body"]

  /** The bound of containsGovernance. */
  const MAX_DEPTH: nat := 20

  predicate Contains(s: string, fragment: string) {
    exists i :: 0 <= i <= |s| - |fragment| && s[i..][..|fragment|] == fragment
  }

  predicate IsGovernanceKey(key: string) {
    exists f <- GOVERNANCE_KEY_FRAGMENTS :: Contains(Lower(key), f)
  }

  predicate IsVerdict(s: string) {
    Trim(s) in GOVERNANCE_VALUE_LITERALS
  }

  /** containsGovernance: the search gives up below MAX_DEPTH. */
  predicate ContainsGovernance(v: Json, depth: nat)
    decreases v
  {
    if depth > MAX_DEPTH then false
    else match v
      case Str(s) => IsVerdict(s)
      case Arr(items) => exists i :: 0 <= i < |items| && ContainsGovernance(items[i], depth + 1)
      case Obj(fields) =>
        exists i :: 0 <= i < |fields| && (IsGovernanceKey(fields[i].key) || ContainsGovernance(fields[i].value, depth + 1))
      case _ => false
  }

  /** The same search with no bound. */
  predicate DeepGovernance(v: Json) {
    match v
    case Str(s) => IsVerdict(s)
    case Arr(items) => exists i :: 0 <= i < |items| && DeepGovernance(items[i])
    case Obj(fields) =>
      exists i :: 0 <= i < |fields| && (IsGovernanceKey(fields[i].key) || DeepGovernance(fields[i].value))
    case _ => false
  }

  /** validateProviderContent. None stands for an absent value. */
  method ValidateContent(raw: Option<Json>) returns (result: ProviderResult)
    ensures result == Verdict(raw)
  {
    if raw.None? || raw.value.Null? || (raw.value.Str? && Blank(raw.value.s)) {
      return Err(PROVIDER_EMPTY_RESPONSE);
    }
    if !raw.value.Obj? { return Err(PROVIDER_CONTRACT_INVALID); }
    var obj := raw.value.fields;
    if |obj| == 0 { return Err(PROVIDER_EMPTY_RESPONSE); }
    if ContainsGovernance(raw.value, 0) { return Err(PROVIDER_CONTRACT_INVALID); }
    for i := 0 to |obj|
      invariant forall j :: 0 <= j < i ==> obj[j].key in ALLOWED_CONTENT_KEYS
    {
      if obj[i].key !in ALLOWED_CONTENT_KEYS { return Err(PROVIDER_CONTRACT_INVALID); }
    }
    if Lookup(obj, "schemaVersion") != Some(Str(PROVIDER_ARTICLE_CONTENT_V1)) { return Err(PROVIDER_CONTRACT_INVALID); }
    var title, summary, sections := Lookup(obj, "title"), Lookup(obj, "summary"), Lookup(obj, "sections");
    if title.None? || !title.value.Str? || summary.None? || !summary.value.Str? { return Err(PROVIDER_CONTRACT_INVALID); }
    if sections.None? || !sections.value.Arr? { return Err(PROVIDER_CONTRACT_INVALID); }
    var items := sections.value.items;
    var normalized: seq<Section> := [];
    for i := 0 to |items|
      invariant forall j :: 0 <= j < i ==> SectionShape(items[j])
      invariant |normalized| == i && forall j :: 0 <= j < i ==> normalized[j] == SectionOf(items[j])
    {
      if !items[i].Obj? { return Err(PROVIDER_CONTRACT_INVALID); }
      var section := items[i].fields;
      for k := 0 to |section|
        invariant forall j :: 0 <= j < k ==> section[j].key in ALLOWED_SECTION_KEYS
      {
        if section[k].key !in ALLOWED_SECTION_KEYS { return Err(PROVIDER_CONTRACT_INVALID); }
      }
      var heading, body := Lookup(section, "heading"), Lookup(section, "body");
      if heading.None? || !heading.value.Str? || body.None? || !body.value.Str? { return Err(PROVIDER_CONTRACT_INVALID); }
      normalized := normalized + [Section(heading.value.s, body.value.s)];
    }
    if |normalized| == 0 { return Err(PROVIDER_EMPTY_RESPONSE); }
    var hasVisibleText := !Blank(title.value.s);
    for i := 0 to |normalized|
      invariant hasVisibleText <==> !Blank(title.value.s) || exists j :: 0 <= j < i && VisibleSection(normalized[j])
    {
      if VisibleSection(normalized[i]) { hasVisibleText := true; }
    }
    assert normalized == ContentOf(raw.value).sections;
    if !hasVisibleText { return Err(PROVIDER_EMPTY_RESPONSE); }
    result := Ok(Content(title.value.s, summary.value.s, normalized));
  }

  // ------------------------------------------------------------------ the shape, declaratively

  predicate SectionShape(v: Json) {
    && v.Obj? && (forall f <- v.fields :: f.key in ALLOWED_SECTION_KEYS)
    && var heading, body := Lookup(v.fields, "heading"), Lookup(v.fields, "body");
       heading.Some? && heading.value.Str? && body.Some? && body.value.Str?
  }

  function SectionOf(v: Json): Section
    requires SectionShape(v)
  {
    Section(Lookup(v.fields, "heading").value.s, Lookup(v.fields, "body").value.s)
  }

  predicate ContentShape(v: Json) {
    && v.Obj? && (forall f <- v.fields :: f.key in ALLOWED_CONTENT_KEYS)
    && Lookup(v.fields, "schemaVersion") == Some(Str(PROVIDER_ARTICLE_CONTENT_V1))
    && var title, summary, sections := Lookup(v.fields, "title"), Lookup(v.fields, "summary"), Lookup(v.fields, "sections");
    && title.Some? && title.value.Str? && summary.Some? && summary.value.Str?
    && sections.Some? && sections.value.Arr?
    && forall i :: 0 <= i < |sections.value.items| ==> SectionShape(sections.value.items[i])
  }

  function ContentOf(v: Json): Content
    requires ContentShape(v)
  {
    var items := Lookup(v.fields, "sections").value.items;
    Content(Lookup(v.fields, "title").value.s, Lookup(v.fields, "summary").value.s,
            seq(|items|, i requires 0 <= i < |items| && SectionShape(items[i]) => SectionOf(items[i])))
  }

  predicate VisibleSection(s: Section) {
    !Blank(s.heading) || !Blank(s.body)
  }

  predicate Visible(c: Content) {
    c.sections != [] && (!Blank(c.title) || exists i :: 0 <= i < |c.sections| && VisibleSection(c.sections[i]))
  }

  /** The outcome for every input: blank input, off-contract input, empty content, or content. */
  function Verdict(raw: Option<Json>): ProviderResult {
    if raw.None? || raw.value.Null? || raw.value == Obj([]) || (raw.value.Str? && Blank(raw.value.s)) then Err(PROVIDER_EMPTY_RESPONSE)
    else if ContainsGovernance(raw.value, 0) || !ContentShape(raw.value) then Err(PROVIDER_CONTRACT_INVALID)
    else if !Visible(ContentOf(raw.value)) then Err(PROVIDER_EMPTY_RESPONSE)
    else Ok(ContentOf(raw.value))
  }

  // ------------------------------------------------------------------ the depth bound loses nothing

  ghost function Depth(v: Json): nat {
    match v
    case Arr(items) => 1 + DepthItems(items)
    case Obj(fields) => 1 + DepthFields(fields)
    case _ => 0
  }

  ghost function DepthItems(items: seq<Json>): (d: nat)
    ensures forall i :: 0 <= i < |items| ==> Depth(items[i]) <= d
  {
    if items == [] then 0
    else
      var first, rest := Depth(items[0]), DepthItems(items[1..]);
      assert forall i :: 1 <= i < |items| ==> items[i] == items[1..][i - 1];
      if first > rest then first else rest
  }

  ghost function DepthFields(fields: seq<Field>): (d: nat)
    ensures forall i :: 0 <= i < |fields| ==> Depth(fields[i].value) <= d
  {
    if fields == [] then 0
    else
      var first, rest := Depth(fields[0].value), DepthFields(fields[1..]);
      assert forall i :: 1 <= i < |fields| ==> fields[i] == fields[1..][i - 1];
      if first > rest then first else rest
  }

  /** Where the value is no deeper than the levels left, the bounded search is the full search. */
  lemma {:induction false} BoundedIsDeep(v: Json, depth: nat)
    requires depth + Depth(v) <= MAX_DEPTH
    ensures ContainsGovernance(v, depth) == DeepGovernance(v)
    decreases v
  {
    match v
    case Arr(items) =>
      forall i | 0 <= i < |items| ensures ContainsGovernance(items[i], depth + 1) == DeepGovernance(items[i]) {
        assert Depth(items[i]) <= DepthItems(items);
        BoundedIsDeep(items[i], depth + 1);
      }
    case Obj(fields) =>
      forall i | 0 <= i < |fields| ensures ContainsGovernance(fields[i].value, depth + 1) == DeepGovernance(fields[i].value) {
        assert Depth(fields[i].value) <= DepthFields(fields);
        BoundedIsDeep(fields[i].value, depth + 1);
      }
    case _ =>
  }

  /** An object's own keys are distinct, at every depth. */
  ghost predicate DistinctKeys(v: Json) {
    match v
    case Arr(items) => forall i :: 0 <= i < |items| ==> DistinctKeys(items[i])
    case Obj(fields) =>
      && (forall i, j :: 0 <= i < j < |fields| ==> fields[i].key != fields[j].key)
      && (forall i :: 0 <= i < |fields| ==> DistinctKeys(fields[i].value))
    case _ => true
  }

  lemma {:induction false} LookupIs(fields: seq<Field>, i: nat)
    requires i < |fields| && forall a, b :: 0 <= a < b < |fields| ==> fields[a].key != fields[b].key
    ensures Lookup(fields, fields[i].key) == Some(fields[i].value)
  {
    if i > 0 { LookupIs(fields[1..], i - 1); }
  }

  lemma {:induction false} ShallowItems(items: seq<Json>, d: nat)
    requires forall i :: 0 <= i < |items| ==> Depth(items[i]) <= d
    ensures DepthItems(items) <= d
  {
    if items != [] { ShallowItems(items[1..], d); }
  }

  lemma {:induction false} ShallowFields(fields: seq<Field>, d: nat)
    requires forall i :: 0 <= i < |fields| ==> Depth(fields[i].value) <= d
    ensures DepthFields(fields) <= d
  {
    if fields != [] { ShallowFields(fields[1..], d); }
  }

  lemma SectionIsShallow(v: Json)
    requires DistinctKeys(v) && SectionShape(v)
    ensures Depth(v) <= 1
  {
    forall i | 0 <= i < |v.fields| ensures Depth(v.fields[i].value) <= 0 {
      LookupIs(v.fields, i);
      assert v.fields[i].key in ALLOWED_SECTION_KEYS;
    }
    ShallowFields(v.fields, 0);
  }

  lemma ShapeIsShallow(v: Json)
    requires DistinctKeys(v) && ContentShape(v)
    ensures Depth(v) <= 3
  {
    forall i | 0 <= i < |v.fields| ensures Depth(v.fields[i].value) <= 2 {
      LookupIs(v.fields, i);
      assert v.fields[i].key in ALLOWED_CONTENT_KEYS;
      if v.fields[i].value.Arr? {
        var items := v.fields[i].value.items;
        forall k | 0 <= k < |items| ensures Depth(items[k]) <= 1 { SectionIsShallow(items[k]); }
        ShallowItems(items, 1);
      }
    }
    ShallowFields(v.fields, 2);
  }

  /** The verdict of a validator whose search has no depth bound. */
  ghost function UnboundedVerdict(raw: Option<Json>): ProviderResult {
    if raw.None? || raw.value.Null? || raw.value == Obj([]) || (raw.value.Str? && Blank(raw.value.s)) then Err(PROVIDER_EMPTY_RESPONSE)
    else if DeepGovernance(raw.value) || !ContentShape(raw.value) then Err(PROVIDER_CONTRACT_INVALID)
    else if !Visible(ContentOf(raw.value)) then Err(PROVIDER_EMPTY_RESPONSE)
    else Ok(ContentOf(raw.value))
  }

  /**
   * The depth bound changes no verdict: whatever it fails to search is too deep to have the content
   * shape. In particular an accepted value holds no governance key or verdict at any depth.
   */
  lemma DepthBoundNeverMatters(raw: Option<Json>)
    requires raw.Some? ==> DistinctKeys(raw.value)
    ensures Verdict(raw) == UnboundedVerdict(raw)
    ensures Verdict(raw).Ok? ==> !DeepGovernance(raw.value)
  {
    if raw.Some? && ContentShape(raw.value) {
      ShapeIsShallow(raw.value);
      BoundedIsDeep(raw.value, 0);
    }
  }

  // ------------------------------------------------------------------ acceptance without key fragments

  lemma NotContained(s: string, fragment: string, k: nat)
    requires k < |fragment| && fragment[k] !in s
    ensures !Contains(s, fragment)
  {
    forall i | 0 <= i <= |s| - |fragment| ensures s[i..][..|fragment|] != fragment {
      assert s[i..][..|fragment|][k] == s[i + k];
    }
  }

  predicate HasOneOf(s: string, a: char, b: char, c: char, d: char, e: char) {
    a in s || b in s || c in s || d in s || e in s
  }

  /** A key is plain when five letters it lacks include one of every fragment. */
  lemma PlainKey(key: string, a: char, b: char, c: char, d: char, e: char)
    requires !HasOneOf(Lower(key), a, b, c, d, e)
    requires forall f <- GOVERNANCE_KEY_FRAGMENTS :: HasOneOf(f, a, b, c, d, e)
    ensures !IsGovernanceKey(key)
  {
    forall f | f in GOVERNANCE_KEY_FRAGMENTS ensures !Contains(Lower(key), f) {
      var k :| 0 <= k < |f| && f[k] in [a, b, c, d, e];
      NotContained(Lower(key), f, k);
    }
  }

  lemma SchemaVersionIsPlain()
    ensures !IsGovernanceKey("schemaVersion")
  {
    assert Lower("schemaVersion") == "schemaversion";
    SchemaVersionHasGap();
    FragmentsHaveSchemaVersionGap();
    PlainKey("schemaVersion", 't', 'p', 'w', 'l', 'd');
  }

  lemma SchemaVersionHasGap()
    ensures !HasOneOf("schemaversion", 't', 'p', 'w', 'l', 'd')
  {
  }

  lemma FragmentsHaveSchemaVersionGap()
    ensures forall f <- GOVERNANCE_KEY_FRAGMENTS :: HasOneOf(f, 't', 'p', 'w', 'l', 'd')
  {
  }

  lemma TitleIsPlain()
    ensures !IsGovernanceKey("title")
  {
    assert Lower("title") == "title";
    FragmentsHaveTitleGap();
    PlainKey("title", 'a', 'r', 'p', 'd', 'd');
  }

  lemma FragmentsHaveTitleGap()
    ensures !HasOneOf("title", 'a', 'r', 'p', 'd', 'd')
    ensures forall f <- GOVERNANCE_KEY_FRAGMENTS :: HasOneOf(f, 'a', 'r', 'p', 'd', 'd')
  {
  }

  lemma SummaryIsPlain()
    ensures !IsGovernanceKey("summary")
  {
    assert Lower("summary") == "summary";
    FragmentsHaveSummaryGap();
    PlainKey("summary", 'e', 'p', 't', 't', 't');
  }

  lemma FragmentsHaveSummaryGap()
    ensures !HasOneOf("summary", 'e', 'p', 't', 't', 't')
    ensures forall f <- GOVERNANCE_KEY_FRAGMENTS :: HasOneOf(f, 'e', 'p', 't', 't', 't')
  {
  }

  lemma SectionsIsPlain()
    ensures !IsGovernanceKey("sections")
  {
    assert Lower("sections") == "sections";
    FragmentsHaveSectionsGap();
    PlainKey("sections", 'a', 'r', 'p', 'l', 'd');
  }

  lemma FragmentsHaveSectionsGap()
    ensures !HasOneOf("sections", 'a', 'r', 'p', 'l', 'd')
    ensures forall f <- GOVERNANCE_KEY_FRAGMENTS :: HasOneOf(f, 'a', 'r', 'p', 'l', 'd')
  {
  }

  lemma HeadingIsPlain()
    ensures !IsGovernanceKey("heading")
  {
    assert Lower("heading") == "heading";
    FragmentsHaveHeadingGap();
    PlainKey("heading", 't', 'p', 'r', 'c', 's');
  }

  lemma FragmentsHaveHeadingGap()
    ensures !HasOneOf("heading", 't', 'p', 'r', 'c', 's')
    ensures forall f <- GOVERNANCE_KEY_FRAGMENTS :: HasOneOf(f, 't', 'p', 'r', 'c', 's')
  {
  }

  lemma BodyIsPlain()
    ensures !IsGovernanceKey("body")
  {
    assert Lower("body") == "body";
    FragmentsHaveBodyGap();
    PlainKey("body", 'a', 'e', 'i', 'i', 'i');
  }

  lemma FragmentsHaveBodyGap()
    ensures !HasOneOf("body", 'a', 'e', 'i', 'i', 'i')
    ensures forall f <- GOVERNANCE_KEY_FRAGMENTS :: HasOneOf(f, 'a', 'e', 'i', 'i', 'i')
  {
  }

  lemma AllowedKeysArePlain(key: string)
    requires key in ALLOWED_CONTENT_KEYS || key in ALLOWED_SECTION_KEYS
    ensures !IsGovernanceKey(key)
  {
    SchemaVersionIsPlain();
    TitleIsPlain();
    SummaryIsPlain();
    SectionsIsPlain();
    HeadingIsPlain();
    BodyIsPlain();
  }

  // ------------------------------------------------------------------ acceptance, and accepting again

  predicate NoVerdictText(c: Content) {
    && !IsVerdict(c.title) && !IsVerdict(c.summary)
    && forall i :: 0 <= i < |c.sections| ==> !IsVerdict(c.sections[i].heading) && !IsVerdict(c.sections[i].body)
  }

  /** A text with something other than spaces in it. */
  predicate Legible(s: string) {
    exists k :: 0 <= k < |s| && !IsSpace(s[k])
  }

  /** Content is visible when it has a section, and its title, a heading or a body is legible; the summary does not count. */
  lemma VisibleIff(c: Content)
    ensures Visible(c) <==>
              |c.sections| > 0
              && (Legible(c.title) || exists i :: 0 <= i < |c.sections| && (Legible(c.sections[i].heading) || Legible(c.sections[i].body)))
  {
    BlankIff(c.title);
    forall i | 0 <= i < |c.sections| ensures VisibleSection(c.sections[i]) <==> Legible(c.sections[i].heading) || Legible(c.sections[i].body) {
      BlankIff(c.sections[i].heading);
      BlankIff(c.sections[i].body);
    }
  }

  /** The text is g with nothing but spaces around it. */
  predicate PaddedAt(s: string, g: string, i: int, j: int) {
    && 0 <= i <= j <= |s| && s[i..j] == g
    && (forall k :: 0 <= k < i ==> IsSpace(s[k])) && (forall k :: j <= k < |s| ==> IsSpace(s[k]))
  }

  ghost predicate Padded(s: string, g: string) {
    exists i, j :: PaddedAt(s, g, i, j)
  }

  lemma SliceOfTail(s: string, i: nat, j: nat)
    requires 0 < i <= j <= |s|
    ensures s[1..][i - 1..j - 1] == s[i..j]
  {
    var inner := s[1..][i - 1..j - 1];
    assert |inner| == j - i;
    forall k | 0 <= k < j - i ensures inner[k] == s[i..j][k] {
      assert inner[k] == s[1..][i - 1 + k] == s[i + k];
    }
  }

  lemma {:induction false} TrimOfPadded(s: string, i: nat, j: nat)
    requires i < j <= |s| && !IsSpace(s[i]) && !IsSpace(s[j - 1])
    requires (forall k :: 0 <= k < i ==> IsSpace(s[k])) && (forall k :: j <= k < |s| ==> IsSpace(s[k]))
    ensures Trim(s) == s[i..j]
    decreases |s|
  {
    if i > 0 {
      SliceOfTail(s, i, j);
      TrimOfPadded(s[1..], i - 1, j - 1);
    } else if j < |s| {
      assert s[..|s| - 1][i..j] == s[i..j];
      TrimOfPadded(s[..|s| - 1], i, j);
    }
  }

  predicate Tight(g: string) {
    g != "" && 'A' <= g[0] <= 'Z' && 'A' <= g[|g| - 1] <= 'Z'
  }

  lemma LiteralsAreTight()
    ensures forall g <- GOVERNANCE_VALUE_LITERALS :: Tight(g)
  {
  }

  lemma TrimsTo(s: string, g: string)
    requires Tight(g)
    ensures Trim(s) == g <==> Padded(s, g)
  {
    if Trim(s) == g {
      var i, j := TrimTakesSpaces(s);
      assert PaddedAt(s, g, i, j);
    }
    if i, j :| PaddedAt(s, g, i, j) {
      assert s[i] == g[0] && s[j - 1] == g[|g| - 1];
      TrimOfPadded(s, i, j);
    }
  }

  /** A verdict text is one of the listed words with nothing but spaces around it. */
  lemma VerdictIff(s: string)
    ensures IsVerdict(s) <==> exists g <- GOVERNANCE_VALUE_LITERALS :: Padded(s, g)
  {
    LiteralsAreTight();
    forall g | g in GOVERNANCE_VALUE_LITERALS ensures Trim(s) == g <==> Padded(s, g) { TrimsTo(s, g); }
  }

  /** A letter matches its small form. */
  predicate Matches(c: char, small: char) {
    c == small || ('A' <= c <= 'Z' && c as int + 32 == small as int)
  }

  /** The fragment occurs in the key, capitals or not. */
  predicate OccursAt(key: string, fragment: string, i: int) {
    0 <= i <= |key| - |fragment| && forall k :: 0 <= k < |fragment| ==> Matches(key[i + k], fragment[k])
  }

  ghost predicate Occurs(key: string, fragment: string) {
    exists i :: OccursAt(key, fragment, i)
  }

  predicate Small(f: string) {
    forall k :: 0 <= k < |f| ==> !('A' <= f[k] <= 'Z')
  }

  lemma LowerMatches(key: string, f: string, i: nat)
    requires i + |f| <= |key| && Small(f)
    ensures Lower(key)[i..][..|f|] == f <==> OccursAt(key, f, i)
  {
    var part := Lower(key)[i..][..|f|];
    forall k | 0 <= k < |f| ensures part[k] == f[k] <==> Matches(key[i + k], f[k]) {
      LowerAt(key, i + k);
    }
    if part == f { assert forall k :: 0 <= k < |f| ==> part[k] == f[k]; }
  }

  lemma ContainsIff(key: string, f: string)
    requires Small(f)
    ensures Contains(Lower(key), f) <==> Occurs(key, f)
  {
    forall i: nat | i + |f| <= |key| ensures Lower(key)[i..][..|f|] == f <==> OccursAt(key, f, i) { LowerMatches(key, f, i); }
    if Occurs(key, f) {
      var i :| OccursAt(key, f, i);
      assert Lower(key)[i..][..|f|] == f;
    }
    if Contains(Lower(key), f) {
      var i :| 0 <= i <= |key| - |f| && Lower(key)[i..][..|f|] == f;
      assert OccursAt(key, f, i);
    }
  }

  lemma FirstFragmentsAreSmall()
    ensures forall i :: 0 <= i < 11 ==> Small(GOVERNANCE_KEY_FRAGMENTS[i])
  {
  }

  lemma LastFragmentsAreSmall()
    ensures forall i :: 11 <= i < |GOVERNANCE_KEY_FRAGMENTS| ==> Small(GOVERNANCE_KEY_FRAGMENTS[i])
  {
  }

  /** A governance key is one in which a listed fragment occurs, capitals or not. */
  lemma GovernanceKeyIff(key: string)
    ensures IsGovernanceKey(key) <==> exists f <- GOVERNANCE_KEY_FRAGMENTS :: Occurs(key, f)
  {
    FirstFragmentsAreSmall();
    LastFragmentsAreSmall();
    forall f | f in GOVERNANCE_KEY_FRAGMENTS ensures Contains(Lower(key), f) <==> Occurs(key, f) {
      ContainsIff(key, f);
    }
  }

  /** A section's field is under a plain key, and holds its heading or its body. */
  lemma SectionField(v: Json, i: nat)
    requires DistinctKeys(v) && SectionShape(v) && i < |v.fields|
    ensures !IsGovernanceKey(v.fields[i].key)
    ensures v.fields[i].value == Str(SectionOf(v).heading) || v.fields[i].value == Str(SectionOf(v).body)
  {
    assert v.fields[i].key in ALLOWED_SECTION_KEYS;
    AllowedKeysArePlain(v.fields[i].key);
    LookupIs(v.fields, i);
  }

  lemma SectionGovernance(v: Json)
    requires DistinctKeys(v) && SectionShape(v)
    ensures DeepGovernance(v) <==> IsVerdict(SectionOf(v).heading) || IsVerdict(SectionOf(v).body)
  {
    LookupFinds(v.fields, "heading");
    LookupFinds(v.fields, "body");
    forall i | 0 <= i < |v.fields|
      ensures !IsGovernanceKey(v.fields[i].key)
      ensures v.fields[i].value == Str(SectionOf(v).heading) || v.fields[i].value == Str(SectionOf(v).body)
    {
      SectionField(v, i);
    }
  }

  lemma SchemaVersionIsNoVerdict()
    ensures !IsVerdict(PROVIDER_ARTICLE_CONTENT_V1)
  {
    var s := PROVIDER_ARTICLE_CONTENT_V1;
    assert s[0] == 'P' && s[1] == 'r' && s[|s| - 1] == '1';
    assert Trim(s) == s;
    assert forall g <- GOVERNANCE_VALUE_LITERALS :: g[1] != 'r';
  }

  lemma ShapeFields(v: Json, i: nat)
    requires DistinctKeys(v) && ContentShape(v) && i < |v.fields|
    ensures !IsGovernanceKey(v.fields[i].key)
    ensures var c := ContentOf(v);
            v.fields[i].value in [Str(PROVIDER_ARTICLE_CONTENT_V1), Str(c.title), Str(c.summary),
                                  Lookup(v.fields, "sections").value]
  {
    assert v.fields[i].key in ALLOWED_CONTENT_KEYS;
    AllowedKeysArePlain(v.fields[i].key);
    LookupIs(v.fields, i);
  }

  lemma ItemsGovernance(items: seq<Json>)
    requires forall i :: 0 <= i < |items| ==> DistinctKeys(items[i]) && SectionShape(items[i])
    ensures DeepGovernance(Arr(items)) <==>
            exists i :: 0 <= i < |items| && (IsVerdict(SectionOf(items[i]).heading) || IsVerdict(SectionOf(items[i]).body))
  {
    forall i | 0 <= i < |items|
      ensures DeepGovernance(items[i]) <==> IsVerdict(SectionOf(items[i]).heading) || IsVerdict(SectionOf(items[i]).body)
    {
      SectionGovernance(items[i]);
    }
  }

  /** The content's texts are free of verdicts exactly when title, summary and sections are. */
  lemma ContentVerdicts(v: Json)
    requires DistinctKeys(v) && ContentShape(v)
    ensures var c := ContentOf(v);
            NoVerdictText(c) <==> !IsVerdict(c.title) && !IsVerdict(c.summary) && !DeepGovernance(Lookup(v.fields, "sections").value)
  {
    var c := ContentOf(v);
    var sections := Lookup(v.fields, "sections").value;
    assert DistinctKeys(sections) by {
      LookupFinds(v.fields, "sections");
      assert Field("sections", sections) in v.fields;
    }
    ItemsGovernance(sections.items);
    assert |c.sections| == |sections.items|;
    assert forall i :: 0 <= i < |c.sections| ==> c.sections[i] == SectionOf(sections.items[i]);
  }

  lemma ShapeGovernance(v: Json)
    requires DistinctKeys(v) && ContentShape(v)
    ensures DeepGovernance(v) <==> !NoVerdictText(ContentOf(v))
  {
    var fields, c := v.fields, ContentOf(v);
    ContentVerdicts(v);
    if NoVerdictText(c) {
      forall i | 0 <= i < |fields| ensures !IsGovernanceKey(fields[i].key) && !DeepGovernance(fields[i].value) {
        ShapeFields(v, i);
        SchemaVersionIsNoVerdict();
      }
    } else {
      var key := if IsVerdict(c.title) then "title" else if IsVerdict(c.summary) then "summary" else "sections";
      LookupFinds(fields, key);
      var i :| 0 <= i < |fields| && fields[i] == Field(key, Lookup(fields, key).value);
      assert DeepGovernance(fields[i].value);
    }
  }

  /**
   * What the firewall accepts, with no mention of key fragments or depth: the content shape, with
   * visible text, in which no text is a bare verdict.
   */
  lemma AcceptedIff(v: Json)
    requires DistinctKeys(v)
    ensures Verdict(Some(v)).Ok? <==> ContentShape(v) && Visible(ContentOf(v)) && NoVerdictText(ContentOf(v))
  {
    DepthBoundNeverMatters(Some(v));
    if ContentShape(v) { ShapeGovernance(v); }
  }

  function SectionJson(s: Section): Json {
    Obj([Field("heading", Str(s.heading)), Field("body", Str(s.body))])
  }

  function ToJson(c: Content): Json {
    Obj([Field("schemaVersion", Str(PROVIDER_ARTICLE_CONTENT_V1)), Field("title", Str(c.title)),
         Field("summary", Str(c.summary)),
         Field("sections", Arr(seq(|c.sections|, i requires 0 <= i < |c.sections| => SectionJson(c.sections[i]))))])
  }

  lemma SectionJsonShape(s: Section)
    ensures var v := SectionJson(s); DistinctKeys(v) && SectionShape(v) && SectionOf(v) == s
  {
    var f := SectionJson(s).fields;
    assert Lookup(f, "heading") == Some(Str(s.heading));
    LookupIs(f, 1);
  }

  lemma ToJsonShape(c: Content)
    ensures var v := ToJson(c); DistinctKeys(v) && ContentShape(v) && ContentOf(v) == c
  {
    var f := ToJson(c).fields;
    var items := f[3].value.items;
    LookupIs(f, 0);
    LookupIs(f, 1);
    LookupIs(f, 2);
    LookupIs(f, 3);
    forall i | 0 <= i < |items| ensures DistinctKeys(items[i]) && SectionShape(items[i]) && SectionOf(items[i]) == c.sections[i] {
      SectionJsonShape(c.sections[i]);
    }
    assert DistinctKeys(Arr(items));
    assert ContentOf(ToJson(c)).sections == c.sections;
  }

  /** Visible content with no bare verdict is accepted as it is. */
  lemma PlainContentIsAccepted(c: Content)
    requires Visible(c) && NoVerdictText(c)
    ensures Verdict(Some(ToJson(c))) == Ok(c)
  {
    ToJsonShape(c);
    AcceptedIff(ToJson(c));
  }

  /** Accepted content, serialised and validated again, comes back unchanged. */
  lemma AcceptedContentIsStable(v: Json)
    requires DistinctKeys(v) && Verdict(Some(v)).Ok?
    ensures Verdict(Some(ToJson(Verdict(Some(v)).content))) == Verdict(Some(v))
  {
    AcceptedIff(v);
    PlainContentIsAccepted(Verdict(Some(v)).content);
  }
}
