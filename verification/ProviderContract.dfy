/**
 * The provider boundary's data: JSON values, the content shape a model may return, the error
 * taxonomy and the request guard.
 */
module ProviderContract {
  import opened Options
  import opened Picks
  import opened Texts

  /** What JSON.parse can return. An object's fields are its own entries, with distinct keys. */
  datatype Json =
    | Null
    | Bool(b: bool)
    | Num(n: real)
    | Str(s: string)
    | Arr(items: seq<Json>)
    | Obj(fields: seq<Field>)

  datatype Field = Field(key: string, value: Json)

  /** `obj.key`, None standing for undefined. */
  function Lookup(fields: seq<Field>, key: string): Option<Json> {
    if fields == [] then None
    else if fields[0].key == key then Some(fields[0].value)
    else Lookup(fields[1..], key)
  }

  lemma {:induction false} LookupFinds(fields: seq<Field>, key: string)
    ensures Lookup(fields, key).Some? ==> Field(key, Lookup(fields, key).value) in fields
    ensures Lookup(fields, key).None? ==> forall f <- fields :: f.key != key
  {
    if fields != [] { LookupFinds(fields[1..], key); }
  }

  datatype ErrorCode =
    | PROVIDER_TIMEOUT
    | PROVIDER_RATE_LIMIT
    | PROVIDER_AUTH_FAILED
    | PROVIDER_CONTRACT_INVALID
    | PROVIDER_EMPTY_RESPONSE
    | PROVIDER_TOKEN_LIMIT
    | PROVIDER_UNAVAILABLE

  const PROVIDER_ARTICLE_CONTENT_V1 := "ProviderArticleContentV1"

  datatype Section = Section(heading: string, body: string)

  datatype Content = Content(title: string, summary: string, sections: seq<Section>)

  datatype ProviderResult = Ok(content: Content) | Err(error: ErrorCode)

  // ------------------------------------------------------------------ requests

  /** A request as it arrives: any field may be missing, of another type, blank, or not a positive integer. */
  datatype RawField = Missing | Text(s: string) | Number(n: int) | OtherType

  datatype RawRequest = RawRequest(
    isObject: bool, projectId: RawField, articleBriefId: RawField, model: RawField,
    maxTokens: RawField, timeoutMs: RawField, requestId: RawField, idempotencyKey: RawField)

  datatype Request = Request(
    projectId: string, articleBriefId: string, model: string, maxTokens: nat, timeoutMs: nat,
    requestId: string, idempotencyKey: string)

  predicate NonEmptyText(f: RawField) {
    f.Text? && !Blank(f.s)
  }

  predicate PositiveInteger(f: RawField) {
    f.Number? && f.n > 0
  }

  predicate WellFormed(raw: RawRequest) {
    && raw.isObject
    && NonEmptyText(raw.projectId) && NonEmptyText(raw.articleBriefId) && NonEmptyText(raw.model)
    && PositiveInteger(raw.maxTokens) && PositiveInteger(raw.timeoutMs)
    && NonEmptyText(raw.requestId) && NonEmptyText(raw.idempotencyKey)
  }

  function RequestOf(raw: RawRequest): Request
    requires WellFormed(raw)
  {
    Request(raw.projectId.s, raw.articleBriefId.s, raw.model.s, raw.maxTokens.n, raw.timeoutMs.n,
            raw.requestId.s, raw.idempotencyKey.s)
  }

  datatype RequestValidation = Valid(request: Request) | Invalid(invalidFields: seq<string>)

  const REQUIRED_FIELDS: seq<string> :=
    ["projectId", "articleBriefId", "model", "maxTokens", "timeoutMs", "requestId", "idempotencyKey"]

  predicate FieldOk(raw: RawRequest, i: nat)
    requires i < 7
  {
    match i
    case 0 => NonEmptyText(raw.projectId)
    case 1 => NonEmptyText(raw.articleBriefId)
    case 2 => NonEmptyText(raw.model)
    case 3 => PositiveInteger(raw.maxTokens)
    case 4 => PositiveInteger(raw.timeoutMs)
    case 5 => NonEmptyText(raw.requestId)
    case _ => NonEmptyText(raw.idempotencyKey)
  }

  /** The offending ones of the first n required fields, in declaration order. */
  function InvalidFields(raw: RawRequest, n: nat): seq<string>
    requires n <= 7
  {
    if n == 0 then []
    else InvalidFields(raw, n - 1) + if FieldOk(raw, n - 1) then [] else [REQUIRED_FIELDS[n - 1]]
  }

  /** validateProviderGenerateRequest. */
  method ValidateRequest(raw: RawRequest) returns (v: RequestValidation)
    ensures v == if WellFormed(raw) then Valid(RequestOf(raw))
                 else Invalid(if raw.isObject then InvalidFields(raw, 7) else REQUIRED_FIELDS)
  {
    if !raw.isObject { return Invalid(REQUIRED_FIELDS); }
    var bad: seq<string> := [];
    for i := 0 to 7
      invariant bad == InvalidFields(raw, i)
      invariant bad == [] <==> forall j :: 0 <= j < i ==> FieldOk(raw, j)
    {
      if !FieldOk(raw, i) { bad := bad + [REQUIRED_FIELDS[i]]; }
    }
    if |bad| > 0 {
      assert exists j :: 0 <= j < 7 && !FieldOk(raw, j);
      return Invalid(bad);
    }
    assert FieldOk(raw, 0) && FieldOk(raw, 1) && FieldOk(raw, 2) && FieldOk(raw, 3);
    assert FieldOk(raw, 4) && FieldOk(raw, 5) && FieldOk(raw, 6);
    v := Valid(RequestOf(raw));
  }

  // ------------------------------------------------------------------ what the guard accepts

  /** A text with something other than spaces in it. */
  predicate HasText(f: RawField) {
    f.Text? && exists k :: 0 <= k < |f.s| && !IsSpace(f.s[k])
  }

  lemma NonEmptyTextIff(f: RawField)
    ensures NonEmptyText(f) <==> HasText(f)
  {
    if f.Text? { BlankIff(f.s); }
  }

  /** A request is well-formed exactly when its five texts hold more than spaces and its two numbers are positive. */
  lemma WellFormedIff(raw: RawRequest)
    ensures WellFormed(raw) <==>
              && raw.isObject
              && HasText(raw.projectId) && HasText(raw.articleBriefId) && HasText(raw.model)
              && HasText(raw.requestId) && HasText(raw.idempotencyKey)
              && raw.maxTokens.Number? && raw.maxTokens.n >= 1 && raw.timeoutMs.Number? && raw.timeoutMs.n >= 1
  {
    NonEmptyTextIff(raw.projectId);
    NonEmptyTextIff(raw.articleBriefId);
    NonEmptyTextIff(raw.model);
    NonEmptyTextIff(raw.requestId);
    NonEmptyTextIff(raw.idempotencyKey);
  }

  /** The seven field names differ in length or in one of their first two letters. */
  lemma RequiredFieldsDiffer()
    ensures forall i, j :: 0 <= i < j < 7 ==> REQUIRED_FIELDS[i] != REQUIRED_FIELDS[j]
  {
    assert forall i :: 0 <= i < 7 ==> |REQUIRED_FIELDS[i]| >= 2;
    assert forall i, j :: 0 <= i < j < 7 ==>
      REQUIRED_FIELDS[i][0] != REQUIRED_FIELDS[j][0] || REQUIRED_FIELDS[i][1] != REQUIRED_FIELDS[j][1];
  }

  /** The positions of the offending ones of the first n fields. */
  function Offending(raw: RawRequest, n: nat): set<int>
    requires n <= 7
  {
    set i | 0 <= i < n && !FieldOk(raw, i)
  }

  /** The offending fields are listed once each, in declaration order. */
  lemma {:induction false} OffendersInOrder(raw: RawRequest, n: nat) returns (picks: seq<int>)
    requires n <= 7
    ensures InOrder(picks, Offending(raw, n)) && |picks| == |InvalidFields(raw, n)|
    ensures forall i :: 0 <= i < |picks| ==> 0 <= picks[i] < n && InvalidFields(raw, n)[i] == REQUIRED_FIELDS[picks[i]]
  {
    picks := [];
    if n > 0 {
      var before := OffendersInOrder(raw, n - 1);
      picks := before;
      if FieldOk(raw, n - 1) {
        assert Offending(raw, n) == Offending(raw, n - 1);
      } else {
        OneMore(before, Offending(raw, n - 1), n - 1);
        picks := before + [n - 1];
        assert Offending(raw, n) == Offending(raw, n - 1) + {n - 1};
      }
    }
  }

  lemma InvalidFieldsAre(raw: RawRequest, i: nat)
    requires i < 7
    ensures REQUIRED_FIELDS[i] in InvalidFields(raw, 7) <==> !FieldOk(raw, i)
  {
    RequiredFieldsDiffer();
    var picks := OffendersInOrder(raw, 7);
    if !FieldOk(raw, i) {
      assert i in picks;
      var k :| 0 <= k < |picks| && picks[k] == i;
      assert InvalidFields(raw, 7)[k] == REQUIRED_FIELDS[i];
    }
    if REQUIRED_FIELDS[i] in InvalidFields(raw, 7) {
      var k :| 0 <= k < |picks| && InvalidFields(raw, 7)[k] == REQUIRED_FIELDS[i];
      assert picks[k] == i && i in picks;
    }
  }

  /** The offending fields are named, each exactly when it holds no text or no positive number. */
  lemma OffendersAreNamed(raw: RawRequest)
    ensures var bad := InvalidFields(raw, 7);
            && ("projectId" in bad <==> !HasText(raw.projectId)) && ("articleBriefId" in bad <==> !HasText(raw.articleBriefId))
            && ("model" in bad <==> !HasText(raw.model)) && ("requestId" in bad <==> !HasText(raw.requestId))
            && ("idempotencyKey" in bad <==> !HasText(raw.idempotencyKey))
            && ("maxTokens" in bad <==> !(raw.maxTokens.Number? && raw.maxTokens.n >= 1))
            && ("timeoutMs" in bad <==> !(raw.timeoutMs.Number? && raw.timeoutMs.n >= 1))
  {
    forall i | 0 <= i < 7 ensures REQUIRED_FIELDS[i] in InvalidFields(raw, 7) <==> !FieldOk(raw, i) {
      InvalidFieldsAre(raw, i);
    }
    assert REQUIRED_FIELDS[0] == "projectId" && REQUIRED_FIELDS[1] == "articleBriefId" && REQUIRED_FIELDS[2] == "model";
    assert REQUIRED_FIELDS[3] == "maxTokens" && REQUIRED_FIELDS[4] == "timeoutMs";
    assert REQUIRED_FIELDS[5] == "requestId" && REQUIRED_FIELDS[6] == "idempotencyKey";
    NonEmptyTextIff(raw.projectId);
    NonEmptyTextIff(raw.articleBriefId);
    NonEmptyTextIff(raw.model);
    NonEmptyTextIff(raw.requestId);
    NonEmptyTextIff(raw.idempotencyKey);
  }
}
