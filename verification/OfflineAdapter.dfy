/**
 * The deterministic offline provider: content derived from a hash of the request, held to the same
 * firewall as a model's output.
 */
module OfflineAdapter {
  import opened Options
  import opened ProviderContract
  import opened Texts
  import opened Firewall

  const SEPARATOR: string := "\U{241F}"

  // ------------------------------------------------------------------ FNV-1a

  const FNV_OFFSET: bv32 := 0x811c9dc5
  const FNV_PRIME: bv32 := 0x01000193

  /** One character as UTF-16: itself, or a surrogate pair. */
  function UnitNumbers(c: char): (units: seq<nat>)
    ensures forall u <- units :: u < 0x10000
  {
    var n := c as int;
    if n < 0x10000 then [n] else [0xD800 + (n - 0x10000) / 0x400, 0xDC00 + (n - 0x10000) % 0x400]
  }

  /** A character outside the basic plane is a high and a low surrogate that give it back. */
  lemma SurrogatesRead(c: char)
    ensures var units := UnitNumbers(c);
            if c as int < 0x10000 then units == [c as int]
            else && |units| == 2 && 0xD800 <= units[0] < 0xDC00 && 0xDC00 <= units[1] < 0xE000
                 && 0x10000 + (units[0] - 0xD800) * 0x400 + (units[1] - 0xDC00) == c as int
  {
  }

  function UnitsOf(c: char): seq<bv32> {
    var units := UnitNumbers(c);
    seq(|units|, i requires 0 <= i < |units| => units[i] as bv32)
  }

  /** What charCodeAt reads at each index of the text. */
  function CodeUnits(s: string): seq<bv32> {
    if s == "" then [] else CodeUnits(s[..|s| - 1]) + UnitsOf(s[|s| - 1])
  }

  function Fold(hash: bv32, unit: bv32): bv32 {
    (hash ^ unit) * FNV_PRIME
  }

  function Hash(units: seq<bv32>): bv32 {
    if units == [] then FNV_OFFSET else Fold(Hash(units[..|units| - 1]), units[|units| - 1])
  }

  /** The hash as an unsigned number, `hash >>> 0`. */
  function HashNumber(s: string): nat {
    Hash(CodeUnits(s)) as nat
  }

  /** fnv1a. */
  method Fnv1a(input: string) returns (n: nat)
    ensures n == HashNumber(input)
  {
    var units := CodeUnits(input);
    var hash := FNV_OFFSET;
    for i := 0 to |units|
      invariant hash == Hash(units[..i])
    {
      assert units[..i + 1][..i] == units[..i];
      hash := Fold(hash, units[i]);
    }
    assert units[..|units|] == units;
    n := hash as nat;
  }

  // ------------------------------------------------------------------ number texts

  /** Number.prototype.toString(base), for the three bases in use. */
  function ShowBase(n: nat, base: nat): string
    requires base == 10 || base == 16 || base == 36
  {
    var digit := DigitOf(n % base);
    if n < base then [digit] else ShowBase(n / base, base) + [digit]
  }

  function DigitOf(d: nat): char
    requires d < 36
  {
    if d < 10 then '0' + d as char else 'a' + (d - 10) as char
  }

  function DigitValue(c: char): nat {
    if '0' <= c <= '9' then (c - '0') as nat else if 'a' <= c <= 'z' then 10 + (c - 'a') as nat else 0
  }

  predicate Numeral(s: string) {
    s != "" && forall c <- s :: '0' <= c <= '9' || 'a' <= c <= 'z'
  }

  /** The number a numeral stands for. */
  function ReadBase(s: string, base: nat): nat {
    if s == "" then 0 else ReadBase(s[..|s| - 1], base) * base + DigitValue(s[|s| - 1])
  }

  lemma ReadAppend(s: string, c: char, base: nat)
    ensures ReadBase(s + [c], base) == ReadBase(s, base) * base + DigitValue(c)
  {
    assert (s + [c])[..|s|] == s;
  }

  lemma {:induction false} ShowsNumeral(n: nat, base: nat)
    requires base == 10 || base == 16 || base == 36
    ensures Numeral(ShowBase(n, base))
  {
    DigitReads(n % base);
    if n >= base {
      ShowsNumeral(n / base, base);
      NumeralAppend(ShowBase(n / base, base), DigitOf(n % base));
    }
  }

  lemma {:induction false} ShowReads(n: nat, base: nat)
    requires base == 10 || base == 16 || base == 36
    ensures ReadBase(ShowBase(n, base), base) == n
  {
    if n < base {
      Quotient(n, base);
      DigitReads(n);
      ReadDigit(DigitOf(n), base);
    } else {
      var q, d := n / base, n % base;
      Quotient(n, base);
      ShowReads(q, base);
      ReadStep(ShowBase(q, base), q, d, base);
    }
  }

  lemma ReadStep(front: string, q: nat, d: nat, base: nat)
    requires d < 36 && ReadBase(front, base) == q
    ensures ReadBase(front + [DigitOf(d)], base) == q * base + d
  {
    DigitReads(d);
    ReadAppend(front, DigitOf(d), base);
  }

  lemma ReadDigit(c: char, base: nat)
    ensures ReadBase([c], base) == DigitValue(c)
  {
    ReadAppend("", c, base);
    assert "" + [c] == [c];
  }

  /** A printed number reads back as itself, in each base. */
  lemma ShowBaseReads(n: nat, base: nat)
    requires base == 10 || base == 16 || base == 36
    ensures Numeral(ShowBase(n, base)) && ReadBase(ShowBase(n, base), base) == n
  {
    ShowsNumeral(n, base);
    ShowReads(n, base);
  }

  lemma NumeralAppend(s: string, c: char)
    requires Numeral(s) && ('0' <= c <= '9' || 'a' <= c <= 'z')
    ensures Numeral(s + [c])
  {
  }

  lemma Quotient(n: nat, base: nat)
    requires base == 10 || base == 16 || base == 36
    ensures n / base * base + n % base == n && n % base < base && (n < base ==> n % base == n) && (n >= base ==> n / base < n)
  {
  }

  lemma DigitReads(d: nat)
    requires d < 36
    ensures var c := DigitOf(d); ('0' <= c <= '9' || 'a' <= c <= 'z') && DigitValue(c) == d
  {
  }

  // ------------------------------------------------------------------ the adapter

  function SeedText(adapterLabel: string, r: Request): string {
    adapterLabel + SEPARATOR + r.projectId + SEPARATOR + r.articleBriefId + SEPARATOR + r.model + SEPARATOR
    + ShowBase(r.maxTokens, 10) + SEPARATOR + ShowBase(r.timeoutMs, 10) + SEPARATOR
    + r.requestId + SEPARATOR + r.idempotencyKey
  }

  function Around(first: string, middle: string, last: string): string {
    first + middle + last
  }

  function SectionOfSeed(briefId: string, index: nat, sectionSeed: nat): Section {
    Section(
      Around("Section ", ShowBase(index + 1, 10) + " (" + ShowBase(sectionSeed, 16), ")"),
      Around("Deterministic offline content for brief ",
             briefId + ", section " + ShowBase(index + 1, 10) + ". Derived token " + ShowBase(sectionSeed, 36), "."))
  }

  function SectionSeedText(seed: nat, index: nat): string {
    ShowBase(seed, 10) + SEPARATOR + ShowBase(index, 10)
  }

  function SectionAt(seed: nat, briefId: string, index: nat): Section {
    SectionOfSeed(briefId, index, HashNumber(SectionSeedText(seed, index)))
  }

  function Title(r: Request, seed: nat): string {
    Around("Draft for brief ", r.articleBriefId + " (" + ShowBase(seed, 16), ")")
  }

  function Summary(r: Request): string {
    Around("Offline deterministic draft for project ", r.projectId + ", model " + r.model, ".")
  }

  /** The first n sections. */
  function Sections(seed: nat, briefId: string, n: nat): (sections: seq<Section>)
    ensures |sections| == n && forall i :: 0 <= i < n ==> sections[i] == SectionAt(seed, briefId, i)
  {
    if n == 0 then [] else Sections(seed, briefId, n - 1) + [SectionAt(seed, briefId, n - 1)]
  }

  function Candidate(adapterLabel: string, r: Request): Content {
    var seed := HashNumber(SeedText(adapterLabel, r));
    Content(Title(r, seed), Summary(r), Sections(seed, r.articleBriefId, seed % 3 + 2))
  }

  /** DeterministicOfflineProviderAdapter.generateArticleContent. */
  method Generate(adapterLabel: string, raw: RawRequest) returns (result: ProviderResult)
    ensures !WellFormed(raw) ==> result == Err(PROVIDER_CONTRACT_INVALID)
    ensures WellFormed(raw) ==>
              && result == Ok(Candidate(adapterLabel, RequestOf(raw)))
              && |result.content.sections| == 2 + HashNumber(SeedText(adapterLabel, RequestOf(raw))) % 3
  {
    var validated := ValidateRequest(raw);
    if validated.Invalid? { return Err(PROVIDER_CONTRACT_INVALID); }
    var candidate := Build(adapterLabel, validated.request);
    CandidateIsAccepted(adapterLabel, validated.request);
    result := ValidateContent(Some(ToJson(candidate)));
  }

  method Build(adapterLabel: string, r: Request) returns (candidate: Content)
    ensures candidate == Candidate(adapterLabel, r)
  {
    var seed := Fnv1a(SeedText(adapterLabel, r));
    var sectionCount := seed % 3 + 2;
    var sections: seq<Section> := [];
    for index := 0 to sectionCount
      invariant sections == Sections(seed, r.articleBriefId, index)
    {
      var sectionSeed := Fnv1a(SectionSeedText(seed, index));
      sections := sections + [SectionOfSeed(r.articleBriefId, index, sectionSeed)];
    }
    candidate := Content(Title(r, seed), Summary(r), sections);
  }

  // ------------------------------------------------------------------ every field takes part in the seed

  const MARK: char := '\U{241F}'

  lemma FirstField(a: string, x: string, b: string, y: string)
    requires MARK !in a && MARK !in b && a + SEPARATOR + x == b + SEPARATOR + y
    ensures a == b && x == y
  {
    var s, t := a + SEPARATOR + x, b + SEPARATOR + y;
    assert SEPARATOR == [MARK];
    assert s[|a|] == MARK && t[|b|] == MARK;
    assert a == s[..|a|] && b == t[..|b|];
    assert x == s[|a| + 1..] && y == t[|b| + 1..];
  }

  predicate NoMark(adapterLabel: string, r: Request) {
    MARK !in adapterLabel && MARK !in r.projectId && MARK !in r.articleBriefId && MARK !in r.model && MARK !in r.requestId
  }

  lemma NumberHasNoMark(n: nat)
    ensures MARK !in ShowBase(n, 10)
  {
    ShowBaseReads(n, 10);
  }

  /** The fields from the model on, as the seed text ends. */
  function SeedTail(r: Request): string {
    r.model + SEPARATOR + (ShowBase(r.maxTokens, 10) + SEPARATOR + (ShowBase(r.timeoutMs, 10) + SEPARATOR
    + (r.requestId + SEPARATOR + r.idempotencyKey)))
  }

  lemma SeedTextIs(adapterLabel: string, r: Request)
    ensures SeedText(adapterLabel, r) ==
            adapterLabel + SEPARATOR + (r.projectId + SEPARATOR + (r.articleBriefId + SEPARATOR + SeedTail(r)))
  {
  }

  lemma TailIsInjective(r: Request, q: Request)
    requires MARK !in r.model && MARK !in r.requestId && MARK !in q.model && MARK !in q.requestId && SeedTail(r) == SeedTail(q)
    ensures r.model == q.model && r.maxTokens == q.maxTokens && r.timeoutMs == q.timeoutMs
            && r.requestId == q.requestId && r.idempotencyKey == q.idempotencyKey
  {
    var key, otherKey := r.requestId + SEPARATOR + r.idempotencyKey, q.requestId + SEPARATOR + q.idempotencyKey;
    var timeout, otherTimeout := ShowBase(r.timeoutMs, 10), ShowBase(q.timeoutMs, 10);
    var tokens, otherTokens := ShowBase(r.maxTokens, 10), ShowBase(q.maxTokens, 10);
    FirstField(r.model, tokens + SEPARATOR + (timeout + SEPARATOR + key), q.model, otherTokens + SEPARATOR + (otherTimeout + SEPARATOR + otherKey));
    NumberHasNoMark(r.maxTokens);
    NumberHasNoMark(q.maxTokens);
    FirstField(tokens, timeout + SEPARATOR + key, otherTokens, otherTimeout + SEPARATOR + otherKey);
    NumberHasNoMark(r.timeoutMs);
    NumberHasNoMark(q.timeoutMs);
    FirstField(timeout, key, otherTimeout, otherKey);
    FirstField(r.requestId, r.idempotencyKey, q.requestId, q.idempotencyKey);
    ShowBaseReads(r.maxTokens, 10);
    ShowBaseReads(q.maxTokens, 10);
    ShowBaseReads(r.timeoutMs, 10);
    ShowBaseReads(q.timeoutMs, 10);
  }

  /** Every field of the request takes part in the seed: two requests free of the separator share a seed text only if equal. */
  lemma SeedTextIsInjective(adapterLabel: string, r: Request, otherLabel: string, q: Request)
    requires NoMark(adapterLabel, r) && NoMark(otherLabel, q)
    ensures SeedText(adapterLabel, r) == SeedText(otherLabel, q) <==> adapterLabel == otherLabel && r == q
  {
    if SeedText(adapterLabel, r) == SeedText(otherLabel, q) {
      SeedTextIs(adapterLabel, r);
      SeedTextIs(otherLabel, q);
      FirstField(adapterLabel, r.projectId + SEPARATOR + (r.articleBriefId + SEPARATOR + SeedTail(r)),
                 otherLabel, q.projectId + SEPARATOR + (q.articleBriefId + SEPARATOR + SeedTail(q)));
      FirstField(r.projectId, r.articleBriefId + SEPARATOR + SeedTail(r), q.projectId, q.articleBriefId + SEPARATOR + SeedTail(q));
      FirstField(r.articleBriefId, SeedTail(r), q.articleBriefId, SeedTail(q));
      TailIsInjective(r, q);
    }
  }

  /** Five parts, one after the other. */
  predicate Reads(s: string, first: string, a: string, middle: string, b: string, last: string) {
    s == first + a + middle + b + last
  }

  ghost predicate TitleShows(title: string, briefId: string, seed: nat) {
    exists hex :: Reads(title, "Draft for brief ", briefId, " (", hex, ")") && Numeral(hex) && ReadBase(hex, 16) == seed
  }

  lemma TitleReads(r: Request, seed: nat)
    ensures TitleShows(Title(r, seed), r.articleBriefId, seed)
  {
    ShowBaseReads(seed, 16);
    assert Reads(Title(r, seed), "Draft for brief ", r.articleBriefId, " (", ShowBase(seed, 16), ")");
  }

  predicate SummaryShows(summary: string, r: Request) {
    Reads(summary, "Offline deterministic draft for project ", r.projectId, ", model ", r.model, ".")
  }

  lemma SummaryReads(r: Request)
    ensures SummaryShows(Summary(r), r)
  {
  }

  /**
   * The draft's texts: the title shows the brief and the seed in hexadecimal, the summary the project
   * and the model, and section k its number and its own token, each numeral reading back as its number.
   */
  lemma CandidateShows(adapterLabel: string, r: Request, k: nat)
    ensures var c := Candidate(adapterLabel, r);
            var seed := HashNumber(SeedText(adapterLabel, r));
            && |c.sections| == 2 + seed % 3
            && TitleShows(c.title, r.articleBriefId, seed)
            && SummaryShows(c.summary, r)
            && (k < |c.sections| ==>
                  SectionShows(c.sections[k], r.articleBriefId, k, HashNumber(ShowBase(seed, 10) + "\U{241F}" + ShowBase(k, 10))))
  {
    var seed := HashNumber(SeedText(adapterLabel, r));
    TitleReads(r, seed);
    SummaryReads(r);
    SectionReads(r.articleBriefId, k, HashNumber(SectionSeedText(seed, k)));
  }

  ghost predicate SectionShows(s: Section, briefId: string, k: nat, token: nat) {
    && (exists number, hex :: Reads(s.heading, "Section ", number, " (", hex, ")")
                              && Numeral(number) && ReadBase(number, 10) == k + 1 && Numeral(hex) && ReadBase(hex, 16) == token)
    && (exists number, base36 ::
          s.body == "Deterministic offline content for brief " + briefId + ", section " + number + ". Derived token " + base36 + "."
          && Numeral(number) && ReadBase(number, 10) == k + 1 && Numeral(base36) && ReadBase(base36, 36) == token)
  }

  lemma SectionReads(briefId: string, k: nat, token: nat)
    ensures SectionShows(SectionOfSeed(briefId, k, token), briefId, k, token)
  {
    ShowBaseReads(k + 1, 10);
    ShowBaseReads(token, 16);
    ShowBaseReads(token, 36);
    var s := SectionOfSeed(briefId, k, token);
    assert Reads(s.heading, "Section ", ShowBase(k + 1, 10), " (", ShowBase(token, 16), ")");
    assert s.body == "Deterministic offline content for brief " + briefId + ", section " + ShowBase(k + 1, 10)
                     + ". Derived token " + ShowBase(token, 36) + ".";
  }

  // ------------------------------------------------------------------ the hash

  /** The published FNV-1a vectors of the empty text and of "a". */
  lemma HashVectors()
    ensures HashNumber("") == 0x811c9dc5 && HashNumber("a") == 0xe40c292c
  {
    var none: seq<bv32> := [];
    assert UnitsOf('a') == [0x61];
    assert "a"[..0] == "" && CodeUnits("") == none && CodeUnits("a") == [0x61];
    assert [0x61 as bv32][..0] == none;
    assert Fold(FNV_OFFSET, 0x61) == 0xe40c292c;
  }

  // ------------------------------------------------------------------ it passes the firewall

  /** Text that starts and ends in visible characters, the second one lower-case, is no verdict. */
  lemma ProseIsNoVerdict(first: string, middle: string, last: string)
    requires |first| >= 2 && !IsSpace(first[0]) && 'a' <= first[1] <= 'z'
    requires |last| == 1 && !IsSpace(last[0])
    ensures !IsVerdict(Around(first, middle, last)) && !Blank(Around(first, middle, last))
  {
    var s := Around(first, middle, last);
    assert s[0] == first[0] && s[1] == first[1] && s[|s| - 1] == last[0];
    assert Trim(s) == s;
    assert forall g <- GOVERNANCE_VALUE_LITERALS :: g[1] < 'a';
  }

  lemma HeadingIsProse(sectionSeed: nat, briefId: string, index: nat)
    ensures !IsVerdict(SectionOfSeed(briefId, index, sectionSeed).heading)
  {
    ProseIsNoVerdict("Section ", ShowBase(index + 1, 10) + " (" + ShowBase(sectionSeed, 16), ")");
  }

  lemma BodyIsProse(sectionSeed: nat, briefId: string, index: nat)
    ensures !IsVerdict(SectionOfSeed(briefId, index, sectionSeed).body)
  {
    ProseIsNoVerdict("Deterministic offline content for brief ",
                     briefId + ", section " + ShowBase(index + 1, 10) + ". Derived token " + ShowBase(sectionSeed, 36), ".");
  }

  lemma SectionIsProse(seed: nat, briefId: string, index: nat)
    ensures var s := SectionAt(seed, briefId, index); !IsVerdict(s.heading) && !IsVerdict(s.body)
  {
    var sectionSeed := HashNumber(SectionSeedText(seed, index));
    HeadingIsProse(sectionSeed, briefId, index);
    BodyIsProse(sectionSeed, briefId, index);
  }

  lemma TitleIsProse(r: Request, seed: nat)
    ensures !IsVerdict(Title(r, seed)) && !Blank(Title(r, seed))
  {
    ProseIsNoVerdict("Draft for brief ", r.articleBriefId + " (" + ShowBase(seed, 16), ")");
  }

  lemma SummaryIsProse(r: Request)
    ensures !IsVerdict(Summary(r))
  {
    ProseIsNoVerdict("Offline deterministic draft for project ", r.projectId + ", model " + r.model, ".");
  }

  lemma ProseContent(c: Content)
    requires c.sections != [] && !Blank(c.title) && !IsVerdict(c.title) && !IsVerdict(c.summary)
    requires forall i :: 0 <= i < |c.sections| ==> !IsVerdict(c.sections[i].heading) && !IsVerdict(c.sections[i].body)
    ensures NoVerdictText(c) && Visible(c)
  {
  }

  lemma CandidateIsProse(adapterLabel: string, r: Request)
    ensures var c := Candidate(adapterLabel, r); NoVerdictText(c) && Visible(c)
  {
    var seed := HashNumber(SeedText(adapterLabel, r));
    var c := Candidate(adapterLabel, r);
    TitleIsProse(r, seed);
    SummaryIsProse(r);
    forall i | 0 <= i < |c.sections| ensures !IsVerdict(c.sections[i].heading) && !IsVerdict(c.sections[i].body) {
      SectionIsProse(seed, r.articleBriefId, i);
    }
    ProseContent(c);
  }

  /** For every request and label, the offline content passes the firewall unchanged. */
  lemma CandidateIsAccepted(adapterLabel: string, r: Request)
    ensures Verdict(Some(ToJson(Candidate(adapterLabel, r)))) == Ok(Candidate(adapterLabel, r))
  {
    CandidateIsProse(adapterLabel, r);
    PlainContentIsAccepted(Candidate(adapterLabel, r));
  }
}
