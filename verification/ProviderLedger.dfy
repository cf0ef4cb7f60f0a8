/**
 * The network-shaped provider adapter (flag gate, model allow-list, caps, one retry, firewall), the
 * records it emits, and the write-once execution ledger that observes them.
 */
module ProviderLedger {
  import opened Options
  import opened ProviderContract
  import opened Texts
  import opened Firewall

  // ------------------------------------------------------------------ records

  datatype Identity = Identity(gatewayVendor: string, modelVendor: string, protocol: string)

  datatype Metadata = Metadata(
    requestId: string, idempotencyKey: string, projectId: string, articleBriefId: string,
    model: string, identity: Identity, latencyMs: nat)

  datatype Usage = Usage(
    requestId: string, idempotencyKey: string, model: string,
    promptTokens: nat, completionTokens: nat, totalTokens: nat, latencyMs: nat)

  datatype Outcome = OK | ERROR

  datatype Execution = Execution(
    requestId: string, idempotencyKey: string, projectId: string, articleBriefId: string,
    model: string, identity: Identity, outcome: Outcome, latencyMs: nat,
    usage: Option<Usage>, errorCode: Option<ErrorCode>)

  datatype Failure = Failure(
    requestId: string, idempotencyKey: string, model: string, errorCode: ErrorCode, latencyMs: nat)

  function UsageRecord(m: Metadata, promptTokens: nat, completionTokens: nat): Usage {
    Usage(m.requestId, m.idempotencyKey, m.model, promptTokens, completionTokens,
          promptTokens + completionTokens, m.latencyMs)
  }

  function SuccessRecord(m: Metadata, usage: Usage): Execution {
    Execution(m.requestId, m.idempotencyKey, m.projectId, m.articleBriefId, m.model, m.identity,
              OK, m.latencyMs, Some(usage), None)
  }

  function FailureRecord(m: Metadata, error: ErrorCode): Execution {
    Execution(m.requestId, m.idempotencyKey, m.projectId, m.articleBriefId, m.model, m.identity,
              ERROR, m.latencyMs, None, Some(error))
  }

  // ------------------------------------------------------------------ the ledger

  datatype Row = Row(
    requestId: string, idempotencyKey: string, projectId: string, clientOrganizationId: string,
    articleBriefId: string, model: string, identity: Identity, status: Outcome, errorCode: Option<ErrorCode>,
    promptTokens: Option<nat>, completionTokens: Option<nat>, totalTokens: Option<nat>, latencyMs: nat)

  /** The project table: each project's owning client organization. */
  type Projects = map<string, string>

  function RowOf(e: Execution, owner: string): Row {
    Row(e.requestId, e.idempotencyKey, e.projectId, owner, e.articleBriefId, e.model, e.identity, e.outcome, e.errorCode,
        if e.usage.Some? then Some(e.usage.value.promptTokens) else None,
        if e.usage.Some? then Some(e.usage.value.completionTokens) else None,
        if e.usage.Some? then Some(e.usage.value.totalTokens) else None,
        e.latencyMs)
  }

  predicate HasKey(rows: seq<Row>, key: string) {
    exists i :: 0 <= i < |rows| && rows[i].idempotencyKey == key
  }

  /** INSERT ... SELECT FROM project ... ON CONFLICT (idempotency_key) DO NOTHING. */
  function Insert(rows: seq<Row>, projects: Projects, e: Execution): seq<Row> {
    if e.projectId in projects && !HasKey(rows, e.idempotencyKey) then rows + [RowOf(e, projects[e.projectId])] else rows
  }

  function InsertAll(rows: seq<Row>, projects: Projects, es: seq<Execution>): seq<Row> {
    if es == [] then rows else Insert(InsertAll(rows, projects, es[..|es| - 1]), projects, es[|es| - 1])
  }

  /** Whether an enqueued write rejects: no row was written and none exists for the key. */
  predicate Rejects(rows: seq<Row>, projects: Projects, e: Execution) {
    e.projectId !in projects && !HasKey(rows, e.idempotencyKey)
  }

  /** One call of the observer. */
  datatype Emission = UsageEmitted(usage: Usage) | ExecutionEmitted(execution: Execution) | FailureEmitted(failure: Failure)

  function Executions(emissions: seq<Emission>): seq<Execution> {
    if emissions == [] then []
    else
      var last := emissions[|emissions| - 1];
      Executions(emissions[..|emissions| - 1]) + if last.ExecutionEmitted? then [last.execution] else []
  }

  /** The writes these emissions enqueue, in order: true where the write rejects at its turn. */
  function Writes(rows: seq<Row>, projects: Projects, emissions: seq<Emission>): seq<bool> {
    if emissions == [] then []
    else
      var front, last := emissions[..|emissions| - 1], emissions[|emissions| - 1];
      Writes(rows, projects, front)
      + [last.ExecutionEmitted? && Rejects(InsertAll(rows, projects, Executions(front)), projects, last.execution)]
  }

  /** PgProviderLedger, with the observer bridge. A pending write is true when it rejected. */
  class PgProviderLedger {
    const projects: Projects
    var rows: seq<Row>
    var pending: seq<bool>
    ghost var emissions: seq<Emission> // everything the observer was called with

    constructor (projects: Projects)
      ensures rows == [] && pending == [] && emissions == [] && this.projects == projects
    {
      this.projects := projects;
      rows, pending, emissions := [], [], [];
    }

    method RecordExecution(e: Execution) returns (rejected: bool)
      modifies this`rows
      ensures rows == Insert(old(rows), projects, e)
      ensures rejected == Rejects(old(rows), projects, e)
    {
      var inserted := false;
      if e.projectId in projects && !HasKey(rows, e.idempotencyKey) {
        rows := rows + [RowOf(e, projects[e.projectId])];
        inserted := true;
      }
      if inserted { return false; }
      rejected := !HasKey(rows, e.idempotencyKey);
    }

    method OnExecution(e: Execution)
      modifies this
      ensures emissions == old(emissions) + [ExecutionEmitted(e)]
      ensures rows == Insert(old(rows), projects, e)
      ensures pending == old(pending) + [Rejects(old(rows), projects, e)]
    {
      emissions := emissions + [ExecutionEmitted(e)];
      var rejected := RecordExecution(e);
      pending := pending + [rejected];
    }

    /** recordUsage and recordFailure write no row; their writes never reject. */
    method OnUsage(u: Usage)
      modifies this
      ensures emissions == old(emissions) + [UsageEmitted(u)]
      ensures rows == old(rows) && pending == old(pending) + [false]
    {
      emissions := emissions + [UsageEmitted(u)];
      pending := pending + [false];
    }

    method OnFailure(f: Failure)
      modifies this
      ensures emissions == old(emissions) + [FailureEmitted(f)]
      ensures rows == old(rows) && pending == old(pending) + [false]
    {
      emissions := emissions + [FailureEmitted(f)];
      pending := pending + [false];
    }

    /** Awaits every write since the last drain; it rejects when one of them did. */
    method Drain() returns (rejected: bool)
      modifies this
      ensures rows == old(rows) && emissions == old(emissions) && pending == []
      ensures rejected <==> true in old(pending)
    {
      var inFlight := pending;
      pending := [];
      rejected := true in inFlight;
    }
  }

  // ------------------------------------------------------------------ configuration

  /** Environment values arrive parsed: an absent or non-integer ceiling is None. */
  datatype Settings = Settings(
    runtimeEnabled: Option<string>, apiKey: Option<string>, fallbackApiKey: Option<string>,
    explicitAllowedModels: Option<seq<string>>, configuredModel: Option<string>, allowedModelList: Option<seq<string>>,
    maxTokensOverride: Option<int>, maxTokensEnv: Option<int>,
    timeoutOverride: Option<int>, timeoutEnv: Option<int>, identity: Identity)

  const DEFAULT_ALLOWED_MODELS: seq<string> := ["deepseek-chat", "deepseek-reasoner"]
  const DEFAULT_MAX_TOKENS_CEILING: nat := 4096
  const DEFAULT_TIMEOUT_MS_CEILING: nat := 60000

  function Usable(s: Option<string>): Option<string> {
    if s.Some? && !Blank(s.value) then Some(Trim(s.value)) else None
  }

  function FirstUsable(a: Option<string>, b: Option<string>): Option<string> {
    if Usable(a).Some? then Usable(a) else Usable(b)
  }

  function Ceiling(override: Option<int>, fromEnv: Option<int>, fallback: nat): nat
    requires fallback > 0
  {
    if override.Some? && override.value > 0 then override.value
    else if fromEnv.Some? && fromEnv.value > 0 then fromEnv.value
    else fallback
  }

  /** isProviderRuntimeEnabled. */
  predicate RuntimeEnabled(s: Settings) {
    s.runtimeEnabled.Some? && Lower(Trim(s.runtimeEnabled.value)) in ["true", "1"]
  }

  function TrimmedModels(models: seq<string>): set<string> {
    set i | 0 <= i < |models| && !Blank(models[i]) :: Trim(models[i])
  }

  function AllowedModels(s: Settings): set<string> {
    if s.explicitAllowedModels.Some? then TrimmedModels(s.explicitAllowedModels.value)
    else
      (set m | m in DEFAULT_ALLOWED_MODELS)
      + (if Usable(s.configuredModel).Some? then {Usable(s.configuredModel).value} else {})
      + (if s.allowedModelList.Some? then TrimmedModels(s.allowedModelList.value) else {})
  }

  method AddTrimmed(start: set<string>, models: seq<string>) returns (all: set<string>)
    ensures all == start + TrimmedModels(models)
  {
    all := start;
    for i := 0 to |models|
      invariant all == start + set j | 0 <= j < i && !Blank(models[j]) :: Trim(models[j])
    {
      if !Blank(models[i]) { all := all + {Trim(models[i])}; }
    }
  }

  method ResolveAllowedModels(s: Settings) returns (allowed: set<string>)
    ensures allowed == AllowedModels(s)
  {
    if s.explicitAllowedModels.Some? {
      allowed := AddTrimmed({}, s.explicitAllowedModels.value);
    } else {
      allowed := set m | m in DEFAULT_ALLOWED_MODELS;
      var configured := Usable(s.configuredModel);
      if configured.Some? { allowed := allowed + {configured.value}; }
      if s.allowedModelList.Some? { allowed := AddTrimmed(allowed, s.allowedModelList.value); }
    }
  }

  // ------------------------------------------------------------------ one attempt

  datatype Attempt = Response(status: int, body: Json) | TransportError(timedOut: bool)

  datatype Classified =
    | Success(content: Content, promptTokens: nat, completionTokens: nat)
    | Failed(error: ErrorCode, retryable: bool)

  /** `v.key` for an object, undefined for anything else. */
  function Get(v: Option<Json>, key: string): Option<Json> {
    if v.Some? && v.value.Obj? then Lookup(v.value.fields, key) else None
  }

  function FirstItem(v: Option<Json>): Option<Json> {
    if v.Some? && v.value.Arr? && v.value.items != [] then Some(v.value.items[0]) else None
  }

  function TextOf(v: Option<Json>): seq<string> {
    if v.Some? && v.value.Str? then [v.value.s] else []
  }

  function JoinSpace(parts: seq<string>): string {
    if parts == [] then "" else if |parts| == 1 then parts[0] else parts[0] + " " + JoinSpace(parts[1..])
  }

  const TOKEN_LIMIT_PHRASES: seq<string> := [
    "context_length", "context length", "contextlength", "max_tokens", "max tokens", "maxtokens",
    "token limit", "too many tokens"]

  predicate TokenLimitSignal(body: Json) {
    var reason := Get(FirstItem(Get(Some(body), "choices")), "finish_reason");
    var error := Get(Some(body), "error");
    var haystack := Lower(JoinSpace(TextOf(Get(error, "code")) + TextOf(Get(error, "type")) + TextOf(Get(error, "message"))));
    || reason == Some(Str("length")) || reason == Some(Str("max_tokens"))
    || (error.Some? && error.value.Obj? && exists p <- TOKEN_LIMIT_PHRASES :: Contains(haystack, p))
  }

  function MessageContent(body: Json): Option<string> {
    var content := Get(Get(FirstItem(Get(Some(body), "choices")), "message"), "content");
    if content.Some? && content.value.Str? then Some(content.value.s) else None
  }

  function TokenCount(v: Option<Json>): nat {
    if v.Some? && v.value.Num? && v.value.n >= 0.0 then v.value.n.Floor else 0
  }

  function Classify(a: Attempt, parse: string -> Option<Json>): Classified {
    if a.TransportError? then Failed(if a.timedOut then PROVIDER_TIMEOUT else PROVIDER_UNAVAILABLE, false)
    else if a.status == 401 || a.status == 403 then Failed(PROVIDER_AUTH_FAILED, false)
    else if a.status == 429 then Failed(PROVIDER_RATE_LIMIT, true)
    else if a.status >= 500 then Failed(PROVIDER_UNAVAILABLE, true)
    else if a.status < 200 || a.status >= 300 then
      Failed(if TokenLimitSignal(a.body) then PROVIDER_TOKEN_LIMIT else PROVIDER_CONTRACT_INVALID, false)
    else if TokenLimitSignal(a.body) then Failed(PROVIDER_TOKEN_LIMIT, false)
    else
      var text := MessageContent(a.body);
      if text.None? || Blank(text.value) then Failed(PROVIDER_EMPTY_RESPONSE, false)
      else if parse(text.value).None? then Failed(PROVIDER_CONTRACT_INVALID, false)
      else
        var verdict := Verdict(parse(text.value));
        if verdict.Err? then Failed(verdict.error, false)
        else
          var usage := Get(Some(a.body), "usage");
          Success(verdict.content, TokenCount(Get(usage, "prompt_tokens")), TokenCount(Get(usage, "completion_tokens")))
  }

  // ------------------------------------------------------------------ one call

  datatype Fetch = Fetch(model: string, maxTokens: nat, timeoutMs: nat)

  /** A call's input, and what the network would answer to a first and to a second fetch. */
  datatype Call = Call(raw: RawRequest, first: Attempt, second: Attempt, latencyMs: nat)

  /** What one call returns, fetches and tells the observer, in order. */
  datatype Answer = Answer(result: ProviderResult, fetches: seq<Fetch>, emissions: seq<Emission>)

  function MetadataFor(s: Settings, r: Request, latencyMs: nat): Metadata {
    Metadata(r.requestId, r.idempotencyKey, r.projectId, r.articleBriefId, r.model, s.identity, latencyMs)
  }

  function Min(a: nat, b: nat): nat {
    if a <= b then a else b
  }

  function FetchFor(s: Settings, r: Request): Fetch {
    Fetch(r.model,
          Min(r.maxTokens, Ceiling(s.maxTokensOverride, s.maxTokensEnv, DEFAULT_MAX_TOKENS_CEILING)),
          Min(r.timeoutMs, Ceiling(s.timeoutOverride, s.timeoutEnv, DEFAULT_TIMEOUT_MS_CEILING)))
  }

  function FailureFor(m: Metadata, error: ErrorCode): Failure {
    Failure(m.requestId, m.idempotencyKey, m.model, error, m.latencyMs)
  }

  function Concluded(s: Settings, r: Request, latencyMs: nat, c: Classified, fetches: seq<Fetch>): Answer {
    var m := MetadataFor(s, r, latencyMs);
    match c
    case Success(content, prompt, completion) =>
      var usage := UsageRecord(m, prompt, completion);
      Answer(Ok(content), fetches, [UsageEmitted(usage), ExecutionEmitted(SuccessRecord(m, usage))])
    case Failed(error, _) =>
      Answer(Err(error), fetches, [ExecutionEmitted(FailureRecord(m, error)), FailureEmitted(FailureFor(m, error))])
  }

  function AnswerTo(s: Settings, c: Call, parse: string -> Option<Json>): Answer {
    if !WellFormed(c.raw) then Answer(Err(PROVIDER_CONTRACT_INVALID), [], [])
    else
      var r := RequestOf(c.raw);
      if !RuntimeEnabled(s) then Concluded(s, r, c.latencyMs, Failed(PROVIDER_UNAVAILABLE, false), [])
      else if r.model !in AllowedModels(s) then Concluded(s, r, c.latencyMs, Failed(PROVIDER_CONTRACT_INVALID, false), [])
      else if FirstUsable(s.apiKey, s.fallbackApiKey).None? then
        Concluded(s, r, c.latencyMs, Failed(PROVIDER_AUTH_FAILED, false), [])
      else
        var once := Classify(c.first, parse);
        if once.Failed? && once.retryable then
          Concluded(s, r, c.latencyMs, Classify(c.second, parse), [FetchFor(s, r), FetchFor(s, r)])
        else Concluded(s, r, c.latencyMs, once, [FetchFor(s, r)])
  }

  class OpenAICompatibleAdapter {
    const settings: Settings
    const parse: string -> Option<Json>
    const observer: PgProviderLedger
    var fetches: seq<Fetch>

    constructor (settings: Settings, parse: string -> Option<Json>, observer: PgProviderLedger)
      ensures this.settings == settings && this.parse == parse && this.observer == observer && fetches == []
    {
      this.settings, this.parse, this.observer := settings, parse, observer;
      fetches := [];
    }

    method GenerateArticleContent(c: Call) returns (result: ProviderResult)
      modifies this, observer
      ensures var answer := AnswerTo(settings, c, parse);
              && result == answer.result
              && fetches == old(fetches) + answer.fetches
              && observer.emissions == old(observer.emissions) + answer.emissions
              && observer.rows == InsertAll(old(observer.rows), observer.projects, Executions(answer.emissions))
              && observer.pending == old(observer.pending) + Writes(old(observer.rows), observer.projects, answer.emissions)
    {
      var validated := ValidateRequest(c.raw);
      if validated.Invalid? { return Err(PROVIDER_CONTRACT_INVALID); }
      var r := validated.request;
      if !RuntimeEnabled(settings) {
        result := FinishError(r, c.latencyMs, PROVIDER_UNAVAILABLE);
        return;
      }
      var allowed := ResolveAllowedModels(settings);
      if r.model !in allowed {
        result := FinishError(r, c.latencyMs, PROVIDER_CONTRACT_INVALID);
        return;
      }
      if FirstUsable(settings.apiKey, settings.fallbackApiKey).None? {
        result := FinishError(r, c.latencyMs, PROVIDER_AUTH_FAILED);
        return;
      }
      var classified := RunAttempts(c, FetchFor(settings, r));
      match classified
      case Failed(error, _) => result := FinishError(r, c.latencyMs, error);
      case Success(content, prompt, completion) => result := FinishSuccess(r, c.latencyMs, content, prompt, completion);
    }

    /** One attempt, and exactly one retry after a retryable failure. */
    method RunAttempts(c: Call, fetch: Fetch) returns (classified: Classified)
      modifies this`fetches
      ensures var once := Classify(c.first, parse);
              if once.Failed? && once.retryable
              then classified == Classify(c.second, parse) && fetches == old(fetches) + [fetch, fetch]
              else classified == once && fetches == old(fetches) + [fetch]
    {
      fetches := fetches + [fetch];
      classified := Classify(c.first, parse);
      if classified.Failed? && classified.retryable {
        fetches := fetches + [fetch];
        classified := Classify(c.second, parse);
      }
    }

    method FinishSuccess(r: Request, latencyMs: nat, content: Content, prompt: nat, completion: nat) returns (result: ProviderResult)
      modifies observer
      ensures var emitted := Concluded(settings, r, latencyMs, Success(content, prompt, completion), []).emissions;
              && result == Ok(content)
              && observer.emissions == old(observer.emissions) + emitted
              && observer.rows == InsertAll(old(observer.rows), observer.projects, Executions(emitted))
              && observer.pending == old(observer.pending) + Writes(old(observer.rows), observer.projects, emitted)
    {
      var m := MetadataFor(settings, r, latencyMs);
      var usage := UsageRecord(m, prompt, completion);
      TwoEmissions(UsageEmitted(usage), ExecutionEmitted(SuccessRecord(m, usage)), observer.rows, observer.projects);
      observer.OnUsage(usage);
      observer.OnExecution(SuccessRecord(m, usage));
      result := Ok(content);
    }

    method FinishError(r: Request, latencyMs: nat, error: ErrorCode) returns (result: ProviderResult)
      modifies observer
      ensures var emitted := Concluded(settings, r, latencyMs, Failed(error, false), []).emissions;
              && result == Err(error)
              && observer.emissions == old(observer.emissions) + emitted
              && observer.rows == InsertAll(old(observer.rows), observer.projects, Executions(emitted))
              && observer.pending == old(observer.pending) + Writes(old(observer.rows), observer.projects, emitted)
    {
      var m := MetadataFor(settings, r, latencyMs);
      TwoEmissions(ExecutionEmitted(FailureRecord(m, error)), FailureEmitted(FailureFor(m, error)), observer.rows, observer.projects);
      observer.OnExecution(FailureRecord(m, error));
      observer.OnFailure(FailureFor(m, error));
      result := Err(error);
    }

    /** A run of calls, one after the other, and a drain. */
    method RunAndDrain(calls: seq<Call>) returns (results: seq<ProviderResult>, rejected: bool)
      modifies this, observer
      ensures results == Results(settings, calls, parse)
      ensures observer.emissions == old(observer.emissions) + Emitted(settings, calls, parse)
      ensures observer.rows == InsertAll(old(observer.rows), observer.projects, Executions(Emitted(settings, calls, parse)))
      ensures observer.pending == []
      ensures rejected <==> true in old(observer.pending)
                            || SomeRejects(old(observer.rows), observer.projects, Executions(Emitted(settings, calls, parse)))
    {
      ghost var start, queued := observer.rows, observer.pending;
      results := [];
      for i := 0 to |calls|
        invariant results == Results(settings, calls[..i], parse)
        invariant observer.emissions == old(observer.emissions) + Emitted(settings, calls[..i], parse)
        invariant observer.rows == InsertAll(start, observer.projects, Executions(Emitted(settings, calls[..i], parse)))
        invariant observer.pending == queued + Writes(start, observer.projects, Emitted(settings, calls[..i], parse))
      {
        ghost var done := Emitted(settings, calls[..i], parse);
        ghost var more := AnswerTo(settings, calls[i], parse).emissions;
        OneMoreCall(settings, calls, i, parse, start, observer.projects);
        Associates(old(observer.emissions), done, more);
        Associates(queued, Writes(start, observer.projects, done), Writes(observer.rows, observer.projects, more));
        var result := GenerateArticleContent(calls[i]);
        results := results + [result];
      }
      assert calls[..|calls|] == calls;
      WritesRejectIff(start, observer.projects, Emitted(settings, calls, parse));
      rejected := observer.Drain();
    }
  }

  /** What a run of calls answers, in order. */
  function Results(s: Settings, calls: seq<Call>, parse: string -> Option<Json>): seq<ProviderResult> {
    if calls == [] then []
    else Results(s, calls[..|calls| - 1], parse) + [AnswerTo(s, calls[|calls| - 1], parse).result]
  }

  /** What a run of calls tells the observer, in order. */
  function Emitted(s: Settings, calls: seq<Call>, parse: string -> Option<Json>): seq<Emission> {
    if calls == [] then []
    else Emitted(s, calls[..|calls| - 1], parse) + AnswerTo(s, calls[|calls| - 1], parse).emissions
  }

  /** Some record is for an unknown project, with no row under its key when its turn comes. */
  ghost predicate SomeRejects(rows: seq<Row>, projects: Projects, es: seq<Execution>) {
    exists k :: 0 <= k < |es| && Rejects(InsertAll(rows, projects, es[..k]), projects, es[k])
  }

  lemma OneEmission(a: Emission, rows: seq<Row>, projects: Projects)
    ensures Executions([a]) == (if a.ExecutionEmitted? then [a.execution] else [])
    ensures Writes(rows, projects, [a]) == [a.ExecutionEmitted? && Rejects(rows, projects, a.execution)]
  {
    var none: seq<Emission> := [];
    assert [a][..0] == none;
    assert Executions(none) == [] && Writes(rows, projects, none) == [];
  }

  lemma ExecutionsOfTwo(a: Emission, b: Emission)
    ensures Executions([a, b]) == (if a.ExecutionEmitted? then [a.execution] else []) + if b.ExecutionEmitted? then [b.execution] else []
  {
    assert [a, b][..1] == [a];
    OneEmission(a, [], map[]);
  }

  lemma InsertsOne(rows: seq<Row>, projects: Projects, e: Execution)
    ensures InsertAll(rows, projects, [e]) == Insert(rows, projects, e)
  {
    var none: seq<Execution> := [];
    assert [e][..0] == none;
    assert InsertAll(rows, projects, none) == rows;
  }

  /** Two emissions of which one is an execution: one insertion, and one write that may reject. */
  lemma TwoEmissions(a: Emission, b: Emission, rows: seq<Row>, projects: Projects)
    ensures a.ExecutionEmitted? && !b.ExecutionEmitted? ==>
              && InsertAll(rows, projects, Executions([a, b])) == Insert(rows, projects, a.execution)
              && Writes(rows, projects, [a, b]) == [Rejects(rows, projects, a.execution), false]
    ensures !a.ExecutionEmitted? && b.ExecutionEmitted? ==>
              && InsertAll(rows, projects, Executions([a, b])) == Insert(rows, projects, b.execution)
              && Writes(rows, projects, [a, b]) == [false, Rejects(rows, projects, b.execution)]
  {
    assert [a, b][..1] == [a];
    OneEmission(a, rows, projects);
    ExecutionsOfTwo(a, b);
    if a.ExecutionEmitted? { InsertsOne(rows, projects, a.execution); }
    if b.ExecutionEmitted? { InsertsOne(rows, projects, b.execution); }
    if !a.ExecutionEmitted? { assert InsertAll(rows, projects, Executions([a])) == rows; }
  }

  lemma {:induction false} ExecutionsConcat(a: seq<Emission>, b: seq<Emission>)
    ensures Executions(a + b) == Executions(a) + Executions(b)
  {
    if b == [] {
      assert a + b == a;
    } else {
      var n := |b| - 1;
      assert (a + b)[..|a + b| - 1] == a + b[..n];
      ExecutionsConcat(a, b[..n]);
    }
  }

  lemma {:induction false} InsertAllConcat(rows: seq<Row>, projects: Projects, a: seq<Execution>, b: seq<Execution>)
    ensures InsertAll(rows, projects, a + b) == InsertAll(InsertAll(rows, projects, a), projects, b)
  {
    if b == [] {
      assert a + b == a;
    } else {
      var n := |b| - 1;
      assert (a + b)[..|a + b| - 1] == a + b[..n];
      InsertAllConcat(rows, projects, a, b[..n]);
    }
  }

  lemma {:induction false} WritesConcat(rows: seq<Row>, projects: Projects, a: seq<Emission>, b: seq<Emission>)
    ensures Writes(rows, projects, a + b)
         == Writes(rows, projects, a) + Writes(InsertAll(rows, projects, Executions(a)), projects, b)
  {
    if b == [] {
      assert a + b == a;
    } else {
      var n := |b| - 1;
      assert (a + b)[..|a + b| - 1] == a + b[..n];
      WritesConcat(rows, projects, a, b[..n]);
      ExecutionsConcat(a, b[..n]);
      InsertAllConcat(rows, projects, Executions(a), Executions(b[..n]));
    }
  }

  lemma Associates<T>(a: seq<T>, b: seq<T>, c: seq<T>)
    ensures a + b + c == a + (b + c)
  {
  }

  lemma OneMoreCall(s: Settings, calls: seq<Call>, i: nat, parse: string -> Option<Json>, rows: seq<Row>, projects: Projects)
    requires i < |calls|
    ensures var before, more := Emitted(s, calls[..i], parse), AnswerTo(s, calls[i], parse).emissions;
            var mid := InsertAll(rows, projects, Executions(before));
            && Results(s, calls[..i + 1], parse) == Results(s, calls[..i], parse) + [AnswerTo(s, calls[i], parse).result]
            && Emitted(s, calls[..i + 1], parse) == before + more
            && InsertAll(rows, projects, Executions(before + more)) == InsertAll(mid, projects, Executions(more))
            && Writes(rows, projects, before + more) == Writes(rows, projects, before) + Writes(mid, projects, more)
  {
    assert calls[..i + 1][..i] == calls[..i];
    var before, more := Emitted(s, calls[..i], parse), AnswerTo(s, calls[i], parse).emissions;
    ExecutionsConcat(before, more);
    InsertAllConcat(rows, projects, Executions(before), Executions(more));
    WritesConcat(rows, projects, before, more);
  }

  /** A queue of writes holds a rejected one exactly when some record rejects at its turn. */
  lemma {:induction false} WritesRejectIff(rows: seq<Row>, projects: Projects, emissions: seq<Emission>)
    ensures true in Writes(rows, projects, emissions) <==> SomeRejects(rows, projects, Executions(emissions))
  {
    if emissions != [] {
      var front, last := emissions[..|emissions| - 1], emissions[|emissions| - 1];
      WritesRejectIff(rows, projects, front);
      if last.ExecutionEmitted? {
        SomeRejectsAppend(rows, projects, Executions(front), last.execution);
      } else {
        assert Executions(emissions) == Executions(front);
      }
    }
  }

  lemma SomeRejectsAppend(rows: seq<Row>, projects: Projects, es: seq<Execution>, e: Execution)
    ensures SomeRejects(rows, projects, es + [e]) <==>
            SomeRejects(rows, projects, es) || Rejects(InsertAll(rows, projects, es), projects, e)
  {
    var all := es + [e];
    forall k | 0 <= k < |es| ensures all[..k] == es[..k] && all[k] == es[k] {}
    assert all[..|es|] == es && all[|es|] == e;
    if SomeRejects(rows, projects, es) {
      var k :| 0 <= k < |es| && Rejects(InsertAll(rows, projects, es[..k]), projects, es[k]);
      assert Rejects(InsertAll(rows, projects, all[..k]), projects, all[k]);
    }
    if Rejects(InsertAll(rows, projects, es), projects, e) {
      assert Rejects(InsertAll(rows, projects, all[..|es|]), projects, all[|es|]);
    }
  }

  // ------------------------------------------------------------------ which attempt decides

  /** The runtime is on for exactly "true" and "1", trimmed and in any case; either key is usable when it is not blank. */
  lemma GatesAre(s: Settings)
    ensures RuntimeEnabled(s) <==>
              s.runtimeEnabled.Some? && (Lower(Trim(s.runtimeEnabled.value)) == "true" || Lower(Trim(s.runtimeEnabled.value)) == "1")
    ensures FirstUsable(s.apiKey, s.fallbackApiKey).Some? <==>
              (s.apiKey.Some? && !Blank(s.apiKey.value)) || (s.fallbackApiKey.Some? && !Blank(s.fallbackApiKey.value))
  {
  }

  /** The call reaches the network: the request is well-formed, the runtime on, the model allowed and a key set. */
  predicate Opens(s: Settings, raw: RawRequest) {
    WellFormed(raw) && RuntimeEnabled(s) && raw.model.s in AllowedModels(s) && FirstUsable(s.apiKey, s.fallbackApiKey).Some?
  }

  /** The attempt that settles the call: the second exactly when the first was answered 429 or 5xx. */
  function Deciding(c: Call): Attempt {
    if c.first.Response? && (c.first.status == 429 || c.first.status >= 500) then c.second else c.first
  }

  /** A call that is not let through to the network: no fetch, and the code of the first gate it fails. */
  lemma GateAnswers(s: Settings, c: Call, parse: string -> Option<Json>)
    requires !Opens(s, c.raw)
    ensures var answer := AnswerTo(s, c, parse);
            && answer.fetches == []
            && answer.result == Err(
                 if !WellFormed(c.raw) then PROVIDER_CONTRACT_INVALID
                 else if !RuntimeEnabled(s) then PROVIDER_UNAVAILABLE
                 else if c.raw.model.s !in AllowedModels(s) then PROVIDER_CONTRACT_INVALID
                 else PROVIDER_AUTH_FAILED)
  {
  }

  /** The answer to an attempt that got no 2xx: from its status, and for another 4xx from a token limit in its body. */
  predicate AnswersFailedAttempt(a: Attempt, result: ProviderResult) {
    && (a.TransportError? ==> result == Err(if a.timedOut then PROVIDER_TIMEOUT else PROVIDER_UNAVAILABLE))
    && (a.Response? && (a.status == 401 || a.status == 403) ==> result == Err(PROVIDER_AUTH_FAILED))
    && (a.Response? && a.status == 429 ==> result == Err(PROVIDER_RATE_LIMIT))
    && (a.Response? && a.status >= 500 ==> result == Err(PROVIDER_UNAVAILABLE))
    && (a.Response? && a.status < 500 && a.status !in [401, 403, 429] ==>
          result == Err(if TokenLimitSignal(a.body) then PROVIDER_TOKEN_LIMIT else PROVIDER_CONTRACT_INVALID))
  }

  /** The answer to a 2xx body: a token limit, no message text, text that does not parse, or the firewall's verdict on it. */
  predicate AnswersBody(body: Json, parse: string -> Option<Json>, result: ProviderResult) {
    var text := MessageContent(body);
    && (TokenLimitSignal(body) ==> result == Err(PROVIDER_TOKEN_LIMIT))
    && (!TokenLimitSignal(body) && (text.None? || Blank(text.value)) ==> result == Err(PROVIDER_EMPTY_RESPONSE))
    && (!TokenLimitSignal(body) && text.Some? && !Blank(text.value) ==>
          && (parse(text.value).None? ==> result == Err(PROVIDER_CONTRACT_INVALID))
          && (parse(text.value).Some? ==> result == Verdict(parse(text.value))))
  }

  lemma RetryableIff(a: Attempt, parse: string -> Option<Json>)
    ensures Classify(a, parse).Failed? && Classify(a, parse).retryable <==>
            a.Response? && (a.status == 429 || a.status >= 500)
  {
  }

  function ResultOf(classified: Classified): ProviderResult {
    if classified.Success? then Ok(classified.content) else Err(classified.error)
  }

  lemma ClassifyFailed(a: Attempt, parse: string -> Option<Json>)
    requires !(a.Response? && 200 <= a.status < 300)
    ensures AnswersFailedAttempt(a, ResultOf(Classify(a, parse)))
  {
  }

  lemma ClassifyBody(a: Attempt, parse: string -> Option<Json>)
    requires a.Response? && 200 <= a.status < 300
    ensures AnswersBody(a.body, parse, ResultOf(Classify(a, parse)))
  {
  }

  lemma DecidingAttemptConcludes(s: Settings, c: Call, parse: string -> Option<Json>)
    requires Opens(s, c.raw)
    ensures AnswerTo(s, c, parse).result == ResultOf(Classify(Deciding(c), parse))
  {
    RetryableIff(c.first, parse);
  }

  /** A call that reaches the network is answered from its deciding attempt alone. */
  lemma DecidingAttemptAnswers(s: Settings, c: Call, parse: string -> Option<Json>)
    requires Opens(s, c.raw)
    ensures var a := Deciding(c);
            if a.Response? && 200 <= a.status < 300 then AnswersBody(a.body, parse, AnswerTo(s, c, parse).result)
            else AnswersFailedAttempt(a, AnswerTo(s, c, parse).result)
  {
    var a := Deciding(c);
    DecidingAttemptConcludes(s, c, parse);
    if a.Response? && 200 <= a.status < 300 { ClassifyBody(a, parse); } else { ClassifyFailed(a, parse); }
  }

  /** A non-negative token count in a body's usage object, rounded down; 0 for anything else. */
  predicate Reports(body: Json, key: string, n: nat) {
    var count := Get(Get(Some(body), "usage"), key);
    if count.Some? && count.value.Num? && count.value.n >= 0.0 then n as real <= count.value.n < n as real + 1.0 else n == 0
  }

  // ------------------------------------------------------------------ what one call does

  /** The ceiling in force: a positive override, else a positive value from the environment, else the default. */
  predicate IsCeiling(cap: nat, override: Option<int>, fromEnv: Option<int>, fallback: nat) {
    && (override.Some? && override.value > 0 ==> cap == override.value)
    && ((override.None? || override.value <= 0) && fromEnv.Some? && fromEnv.value > 0 ==> cap == fromEnv.value)
    && ((override.None? || override.value <= 0) && (fromEnv.None? || fromEnv.value <= 0) ==> cap == fallback)
  }

  /** The smaller of a request's own limit and the ceiling in force. */
  ghost predicate IsCapped(n: nat, own: int, override: Option<int>, fromEnv: Option<int>, fallback: nat) {
    exists cap: nat :: IsCeiling(cap, override, fromEnv, fallback) && n <= own && n <= cap && (n == own || n == cap)
  }

  lemma CeilingIs(override: Option<int>, fromEnv: Option<int>, fallback: nat, own: nat)
    requires fallback > 0
    ensures IsCapped(Min(own, Ceiling(override, fromEnv, fallback)), own, override, fromEnv, fallback)
  {
    assert IsCeiling(Ceiling(override, fromEnv, fallback), override, fromEnv, fallback);
  }

  lemma FetchesAre(s: Settings, c: Call, parse: string -> Option<Json>)
    requires WellFormed(c.raw)
    ensures var f := FetchFor(s, RequestOf(c.raw));
            var retried := c.first.Response? && (c.first.status == 429 || c.first.status >= 500);
            AnswerTo(s, c, parse).fetches == if !Opens(s, c.raw) then [] else if retried then [f, f] else [f]
  {
    RetryableIff(c.first, parse);
  }

  /** A fetch carries the request's model verbatim, and the smaller of the request's own limits and the ceilings in force. */
  ghost predicate WithinLimits(s: Settings, raw: RawRequest, f: Fetch)
    requires WellFormed(raw)
  {
    && f.model == raw.model.s
    && IsCapped(f.maxTokens, raw.maxTokens.n, s.maxTokensOverride, s.maxTokensEnv, 4096)
    && IsCapped(f.timeoutMs, raw.timeoutMs.n, s.timeoutOverride, s.timeoutEnv, 60000)
  }

  lemma FetchIsWithinLimits(s: Settings, raw: RawRequest)
    requires WellFormed(raw)
    ensures WithinLimits(s, raw, FetchFor(s, RequestOf(raw)))
  {
    CeilingIs(s.maxTokensOverride, s.maxTokensEnv, 4096, raw.maxTokens.n);
    CeilingIs(s.timeoutOverride, s.timeoutEnv, 60000, raw.timeoutMs.n);
  }

  /** At most two fetches, the second only after a 429 or a 5xx, each within the limits. */
  lemma FetchDiscipline(s: Settings, c: Call, parse: string -> Option<Json>)
    ensures var fetches := AnswerTo(s, c, parse).fetches;
            && |fetches| <= 2
            && (fetches != [] <==> Opens(s, c.raw))
            && (|fetches| == 2 <==> Opens(s, c.raw) && c.first.Response? && (c.first.status == 429 || c.first.status >= 500))
            && (WellFormed(c.raw) ==> forall f <- fetches :: WithinLimits(s, c.raw, f))
  {
    if WellFormed(c.raw) {
      FetchesAre(s, c, parse);
      FetchIsWithinLimits(s, c.raw);
    }
  }

  /** A model is allowed when it is, trimmed, a listed one: of the explicit list if given, else a default, the configured or an environment one. */
  lemma AllowedModelsIff(s: Settings, model: string)
    ensures model in AllowedModels(s) <==>
            if s.explicitAllowedModels.Some? then (exists m <- s.explicitAllowedModels.value :: Trim(m) == model && model != "")
            else || model == "deepseek-chat" || model == "deepseek-reasoner"
                 || (s.configuredModel.Some? && Trim(s.configuredModel.value) == model && model != "")
                 || (s.allowedModelList.Some? && exists m <- s.allowedModelList.value :: Trim(m) == model && model != "")
  {
    TrimmedModelsIff(if s.explicitAllowedModels.Some? then s.explicitAllowedModels.value else [], model);
    TrimmedModelsIff(if s.allowedModelList.Some? then s.allowedModelList.value else [], model);
  }

  lemma TrimmedModelsIff(models: seq<string>, model: string)
    ensures model in TrimmedModels(models) <==> exists m <- models :: Trim(m) == model && model != ""
  {
    forall m | m in models && Trim(m) == model && model != "" ensures model in TrimmedModels(models) {
      var i :| 0 <= i < |models| && models[i] == m;
    }
    if model in TrimmedModels(models) {
      var i :| 0 <= i < |models| && !Blank(models[i]) && Trim(models[i]) == model;
      assert models[i] in models;
    }
  }

  /** The record a call leaves says what the caller was told, with the tokens the deciding response reported. */
  predicate RecordMatches(e: Execution, identity: Identity, c: Call, result: ProviderResult)
    requires WellFormed(c.raw)
  {
    && e.requestId == c.raw.requestId.s && e.idempotencyKey == c.raw.idempotencyKey.s && e.projectId == c.raw.projectId.s
    && e.articleBriefId == c.raw.articleBriefId.s && e.model == c.raw.model.s
    && e.identity == identity && e.latencyMs == c.latencyMs
    && match result
       case Ok(_) =>
         && e.outcome.OK? && e.errorCode.None? && e.usage.Some? && UsageMatches(e.usage.value, c)
       case Err(error) => e.outcome.ERROR? && e.usage.None? && e.errorCode == Some(error)
  }

  predicate UsageMatches(u: Usage, c: Call)
    requires WellFormed(c.raw)
  {
    && u.requestId == c.raw.requestId.s && u.idempotencyKey == c.raw.idempotencyKey.s && u.model == c.raw.model.s
    && u.latencyMs == c.latencyMs && u.totalTokens == u.promptTokens + u.completionTokens
    && Deciding(c).Response?
    && Reports(Deciding(c).body, "prompt_tokens", u.promptTokens)
    && Reports(Deciding(c).body, "completion_tokens", u.completionTokens)
  }

  /** The classification a well-formed call is concluded from; a success is of the deciding attempt. */
  lemma AnswerIsConcluded(s: Settings, c: Call, parse: string -> Option<Json>) returns (classified: Classified, fetches: seq<Fetch>)
    requires WellFormed(c.raw)
    ensures AnswerTo(s, c, parse) == Concluded(s, RequestOf(c.raw), c.latencyMs, classified, fetches)
    ensures classified.Success? ==> Opens(s, c.raw) && classified == Classify(Deciding(c), parse)
  {
    RetryableIff(c.first, parse);
    fetches := AnswerTo(s, c, parse).fetches;
    classified :=
      if !RuntimeEnabled(s) then Failed(PROVIDER_UNAVAILABLE, false)
      else if c.raw.model.s !in AllowedModels(s) then Failed(PROVIDER_CONTRACT_INVALID, false)
      else if FirstUsable(s.apiKey, s.fallbackApiKey).None? then Failed(PROVIDER_AUTH_FAILED, false)
      else Classify(Deciding(c), parse);
  }

  lemma SuccessReports(a: Attempt, parse: string -> Option<Json>)
    requires Classify(a, parse).Success?
    ensures a.Response?
    ensures Reports(a.body, "prompt_tokens", Classify(a, parse).promptTokens)
    ensures Reports(a.body, "completion_tokens", Classify(a, parse).completionTokens)
  {
  }

  /** The emissions of one call: one execution record that says what the caller was told, and its companion. */
  predicate Consistent(emissions: seq<Emission>, identity: Identity, c: Call, result: ProviderResult)
    requires WellFormed(c.raw)
  {
    && |emissions| == 2
    && match result
       case Ok(_) =>
         && emissions[1].ExecutionEmitted? && RecordMatches(emissions[1].execution, identity, c, result)
         && emissions[0] == UsageEmitted(emissions[1].execution.usage.value)
       case Err(error) =>
         && emissions[0].ExecutionEmitted? && RecordMatches(emissions[0].execution, identity, c, result)
         && emissions[1].FailureEmitted?
         && var f := emissions[1].failure;
            && f.requestId == c.raw.requestId.s && f.idempotencyKey == c.raw.idempotencyKey.s
            && f.model == c.raw.model.s && f.errorCode == error && f.latencyMs == c.latencyMs
  }

  lemma AnswerIsConsistent(s: Settings, c: Call, parse: string -> Option<Json>)
    requires WellFormed(c.raw)
    ensures Consistent(AnswerTo(s, c, parse).emissions, s.identity, c, AnswerTo(s, c, parse).result)
  {
    var classified, fetches := AnswerIsConcluded(s, c, parse);
    if classified.Success? { SuccessReports(Deciding(c), parse); }
  }

  lemma OneExecution(emissions: seq<Emission>, identity: Identity, c: Call, result: ProviderResult)
    requires WellFormed(c.raw) && Consistent(emissions, identity, c, result)
    ensures Executions(emissions) == [if result.Ok? then emissions[1].execution else emissions[0].execution]
  {
    ExecutionsOfTwo(emissions[0], emissions[1]);
    assert emissions == [emissions[0], emissions[1]];
  }

  /**
   * A well-formed request tells the observer exactly two things: one execution record consistent with
   * the result, and the usage (before it) or the failure (after it) that goes with it. Any other
   * request tells it nothing.
   */
  lemma OneConsistentRecord(s: Settings, c: Call, parse: string -> Option<Json>)
    ensures var answer := AnswerTo(s, c, parse);
            if WellFormed(c.raw)
            then && Consistent(answer.emissions, s.identity, c, answer.result)
                 && |Executions(answer.emissions)| == 1
                 && RecordMatches(Executions(answer.emissions)[0], s.identity, c, answer.result)
            else answer.emissions == [] && answer.result == Err(PROVIDER_CONTRACT_INVALID)
  {
    if WellFormed(c.raw) {
      AnswerIsConsistent(s, c, parse);
      OneExecution(AnswerTo(s, c, parse).emissions, s.identity, c, AnswerTo(s, c, parse).result);
    }
  }

  /** The attempt was a 2xx response whose message text parses to content of the whitelisted shape. */
  ghost predicate Carries(a: Attempt, text: string, content: Content, parse: string -> Option<Json>) {
    && a.Response? && 200 <= a.status < 300 && MessageContent(a.body) == Some(text)
    && parse(text).Some? && ContentShape(parse(text).value) && ContentOf(parse(text).value) == content
  }

  lemma SuccessPassedFirewall(a: Attempt, parse: string -> Option<Json>) returns (text: string)
    requires forall text :: parse(text).Some? ==> DistinctKeys(parse(text).value)
    requires Classify(a, parse).Success?
    ensures var content := Classify(a, parse).content;
            Visible(content) && NoVerdictText(content) && Carries(a, text, content, parse)
  {
    text := MessageContent(a.body).value;
    AcceptedIff(parse(text).value);
  }

  /** What reaches the caller as content is what the firewall let through, of the deciding 2xx response. */
  lemma ContentPassedFirewall(s: Settings, c: Call, parse: string -> Option<Json>)
    requires forall text :: parse(text).Some? ==> DistinctKeys(parse(text).value)
    requires AnswerTo(s, c, parse).result.Ok?
    ensures var content := AnswerTo(s, c, parse).result.content;
            && Visible(content) && NoVerdictText(content)
            && exists text :: Carries(Deciding(c), text, content, parse)
  {
    var classified, fetches := AnswerIsConcluded(s, c, parse);
    var text := SuccessPassedFirewall(Deciding(c), parse);
  }

  /** A chat completion as a provider writes it: one choice with its message text and finish reason, and the usage. */
  function Completion(text: string, finishReason: string, promptTokens: nat, completionTokens: nat): Json {
    Obj([Field("choices", Arr([Obj([Field("finish_reason", Str(finishReason)), Field("message", Obj([Field("content", Str(text))]))])])),
         Field("usage", Obj([Field("prompt_tokens", Num(promptTokens as real)), Field("completion_tokens", Num(completionTokens as real))]))])
  }

  lemma CompletionReads(text: string, finishReason: string, promptTokens: nat, completionTokens: nat)
    ensures var body := Completion(text, finishReason, promptTokens, completionTokens);
            && MessageContent(body) == Some(text)
            && (TokenLimitSignal(body) <==> finishReason == "length" || finishReason == "max_tokens")
            && Get(Get(Some(body), "usage"), "prompt_tokens") == Some(Num(promptTokens as real))
            && Get(Get(Some(body), "usage"), "completion_tokens") == Some(Num(completionTokens as real))
  {
    var body := Completion(text, finishReason, promptTokens, completionTokens);
    var choice := body.fields[0].value.items[0].fields;
    assert "usage"[0] != "error"[0] && "prompt_tokens"[0] != "completion_tokens"[0];
    LookupOfTwo(body.fields);
    LookupOfTwo(choice);
    LookupOfTwo(body.fields[1].value.fields);
  }

  lemma LookupOfTwo(fields: seq<Field>)
    requires |fields| == 2 && fields[0].key != fields[1].key
    ensures Lookup(fields, fields[0].key) == Some(fields[0].value) && Lookup(fields, fields[1].key) == Some(fields[1].value)
    ensures forall key :: key != fields[0].key && key != fields[1].key ==> Lookup(fields, key).None?
  {
    var none: seq<Field> := [];
    assert fields[1..] == [fields[1]] && fields[1..][1..] == none;
    forall key | key != fields[0].key && key != fields[1].key ensures Lookup(fields, key).None? {
      assert Lookup(fields[1..][1..], key).None?;
    }
  }

  /** An error body as a provider writes it: its code, type and message. */
  function ErrorBody(code: string, kind: string, message: string): Json {
    Obj([Field("error", Obj([Field("code", Str(code)), Field("type", Str(kind)), Field("message", Str(message))]))])
  }

  lemma LookupOfThree(fields: seq<Field>)
    requires |fields| == 3 && fields[0].key != fields[1].key && fields[0].key != fields[2].key && fields[1].key != fields[2].key
    ensures forall i :: 0 <= i < 3 ==> Lookup(fields, fields[i].key) == Some(fields[i].value)
  {
    LookupOfTwo(fields[1..]);
    assert fields[1..][0] == fields[1] && fields[1..][1] == fields[2];
  }

  lemma PhrasesAreSmall()
    ensures forall p <- TOKEN_LIMIT_PHRASES :: Small(p)
  {
  }

  /** An error body signals a token limit exactly when a listed phrase occurs in its code, type and message, capitals or not. */
  lemma ErrorReads(code: string, kind: string, message: string)
    ensures TokenLimitSignal(ErrorBody(code, kind, message)) <==>
            exists p <- TOKEN_LIMIT_PHRASES :: Occurs(code + " " + (kind + " " + message), p)
    ensures MessageContent(ErrorBody(code, kind, message)).None?
  {
    var body := ErrorBody(code, kind, message);
    var error := body.fields[0].value;
    assert |"error"| != |"choices"| && |"code"| == |"type"| && "code"[0] != "type"[0] && |"message"| != |"code"|;
    var none: seq<Field> := [];
    assert body.fields[1..] == none && Lookup(none, "choices").None?;
    assert Lookup(body.fields, "choices").None? && Lookup(body.fields, "error") == Some(error);
    LookupOfThree(error.fields);
    var text := code + " " + (kind + " " + message);
    HaystackIs(error, code, kind, message);
    PhrasesAreSmall();
    forall p | p in TOKEN_LIMIT_PHRASES ensures Contains(Lower(text), p) <==> Occurs(text, p) { ContainsIff(text, p); }
  }

  lemma HaystackIs(error: Json, code: string, kind: string, message: string)
    requires Get(Some(error), "code") == Some(Str(code)) && Get(Some(error), "type") == Some(Str(kind))
    requires Get(Some(error), "message") == Some(Str(message))
    ensures JoinSpace(TextOf(Get(Some(error), "code")) + TextOf(Get(Some(error), "type")) + TextOf(Get(Some(error), "message")))
         == code + " " + (kind + " " + message)
  {
    var parts := [code, kind, message];
    assert parts[1..] == [kind, message] && [kind, message][1..] == [message];
    assert JoinSpace([message]) == message && JoinSpace([kind, message]) == kind + " " + message;
    assert JoinSpace(parts) == code + " " + (kind + " " + message);
    assert TextOf(Get(Some(error), "code")) + TextOf(Get(Some(error), "type")) + TextOf(Get(Some(error), "message")) == parts;
  }

  /**
   * Content comes through: when the deciding attempt is a 2xx completion whose text parses to plain
   * visible content, the caller gets that content, and the record the completion's own token counts,
   * unless the completion was cut off.
   */
  lemma ContentComesThrough(s: Settings, c: Call, parse: string -> Option<Json>, content: Content,
                            text: string, finishReason: string, status: int, promptTokens: nat, completionTokens: nat)
    requires Opens(s, c.raw) && 200 <= status < 300
    requires Deciding(c) == Response(status, Completion(text, finishReason, promptTokens, completionTokens))
    requires !Blank(text) && parse(text) == Some(ToJson(content)) && Visible(content) && NoVerdictText(content)
    ensures var answer := AnswerTo(s, c, parse);
            if finishReason == "length" || finishReason == "max_tokens" then answer.result == Err(PROVIDER_TOKEN_LIMIT)
            else && answer.result == Ok(content) && |Executions(answer.emissions)| == 1
                 && var u := Executions(answer.emissions)[0].usage;
                    u.Some? && u.value.promptTokens == promptTokens && u.value.completionTokens == completionTokens
  {
    CompletionReads(text, finishReason, promptTokens, completionTokens);
    PlainContentIsAccepted(content);
    DecidingAttemptAnswers(s, c, parse);
    OneConsistentRecord(s, c, parse);
  }

  // ------------------------------------------------------------------ what a run leaves in the ledger

  function CountKey(rows: seq<Row>, key: string): nat {
    if rows == [] then 0
    else CountKey(rows[..|rows| - 1], key) + if rows[|rows| - 1].idempotencyKey == key then 1 else 0
  }

  /** The first record under the key that names an existing project. */
  function FirstKnown(es: seq<Execution>, projects: Projects, key: string): Option<Execution> {
    if es == [] then None
    else
      var front := FirstKnown(es[..|es| - 1], projects, key);
      var last := es[|es| - 1];
      if front.Some? then front
      else if last.idempotencyKey == key && last.projectId in projects then Some(last) else None
  }

  lemma {:induction false} CountIsPresence(rows: seq<Row>, key: string)
    ensures CountKey(rows, key) > 0 <==> HasKey(rows, key)
  {
    if rows != [] {
      var n := |rows| - 1;
      CountIsPresence(rows[..n], key);
      if HasKey(rows[..n], key) {
        var i :| 0 <= i < n && rows[..n][i].idempotencyKey == key;
        assert rows[i].idempotencyKey == key;
      }
      if i :| 0 <= i < |rows| && rows[i].idempotencyKey == key {
        if i < n { assert rows[..n][i].idempotencyKey == key; }
      }
    }
  }

  lemma CountAppend(rows: seq<Row>, r: Row, key: string)
    ensures CountKey(rows + [r], key) == CountKey(rows, key) + if r.idempotencyKey == key then 1 else 0
  {
    assert (rows + [r])[..|rows|] == rows;
  }

  /**
   * Write-once: from an empty ledger, after any records, a key has exactly one row if and only if
   * some record under it named an existing project, and the row is the first such record's,
   * scoped to that project's owner.
   */
  lemma {:induction false} OneRowPerKey(projects: Projects, es: seq<Execution>, key: string)
    ensures var rows := InsertAll([], projects, es);
            var first := FirstKnown(es, projects, key);
            && CountKey(rows, key) == (if first.Some? then 1 else 0)
            && forall r <- rows :: r.idempotencyKey == key ==>
                 && first.Some? && first.value.projectId in projects
                 && r == RowOf(first.value, projects[first.value.projectId])
  {
    if es != [] {
      var n := |es| - 1;
      var before, e := InsertAll([], projects, es[..n]), es[n];
      OneRowPerKey(projects, es[..n], key);
      CountIsPresence(before, e.idempotencyKey);
      if e.projectId in projects && !HasKey(before, e.idempotencyKey) {
        CountAppend(before, RowOf(e, projects[e.projectId]), key);
        assert e.idempotencyKey == key ==> CountKey(before, key) == 0;
      } else if e.projectId in projects && e.idempotencyKey == key {
        assert CountKey(before, key) > 0;
      }
    }
  }

  lemma {:induction false} LedgerOnlyGrows(rows: seq<Row>, projects: Projects, es: seq<Execution>)
    ensures rows <= InsertAll(rows, projects, es)
  {
    if es != [] { LedgerOnlyGrows(rows, projects, es[..|es| - 1]); }
  }

  /** The first well-formed call under the key for an existing project. */
  function FirstCall(calls: seq<Call>, projects: Projects, key: string): Option<Call> {
    if calls == [] then None
    else
      var front := FirstCall(calls[..|calls| - 1], projects, key);
      var last := calls[|calls| - 1];
      if front.Some? then front
      else if WellFormed(last.raw) && last.raw.idempotencyKey.s == key && last.raw.projectId.s in projects then Some(last)
      else None
  }

  /** The execution record of a well-formed call. */
  function RecordOf(s: Settings, c: Call, parse: string -> Option<Json>): (e: Execution)
    requires WellFormed(c.raw)
    ensures Executions(AnswerTo(s, c, parse).emissions) == [e]
  {
    OneConsistentRecord(s, c, parse);
    Executions(AnswerTo(s, c, parse).emissions)[0]
  }

  lemma RecordNames(s: Settings, c: Call, parse: string -> Option<Json>)
    requires WellFormed(c.raw)
    ensures var e := RecordOf(s, c, parse); e.idempotencyKey == c.raw.idempotencyKey.s && e.projectId == c.raw.projectId.s
  {
    OneConsistentRecord(s, c, parse);
  }

  lemma RecordsOfOneMore(s: Settings, calls: seq<Call>, parse: string -> Option<Json>)
    requires calls != []
    ensures var front, last := calls[..|calls| - 1], calls[|calls| - 1];
            Executions(Emitted(s, calls, parse)) ==
            Executions(Emitted(s, front, parse)) + if WellFormed(last.raw) then [RecordOf(s, last, parse)] else []
  {
    var front, last := calls[..|calls| - 1], calls[|calls| - 1];
    ExecutionsConcat(Emitted(s, front, parse), AnswerTo(s, last, parse).emissions);
    OneConsistentRecord(s, last, parse);
  }

  lemma {:induction false} FirstCallIsFirstKnown(s: Settings, calls: seq<Call>, parse: string -> Option<Json>, projects: Projects, key: string)
    ensures var call := FirstCall(calls, projects, key);
            && (call.Some? ==> WellFormed(call.value.raw))
            && FirstKnown(Executions(Emitted(s, calls, parse)), projects, key) ==
               if call.Some? then Some(RecordOf(s, call.value, parse)) else None
  {
    if calls != [] {
      var front, last := calls[..|calls| - 1], calls[|calls| - 1];
      FirstCallIsFirstKnown(s, front, parse, projects, key);
      RecordsOfOneMore(s, calls, parse);
      if WellFormed(last.raw) {
        RecordNames(s, last, parse);
        FirstKnownAppend(Executions(Emitted(s, front, parse)), RecordOf(s, last, parse), projects, key);
      } else {
        assert Executions(Emitted(s, calls, parse)) == Executions(Emitted(s, front, parse));
      }
    }
  }

  lemma FirstKnownAppend(es: seq<Execution>, e: Execution, projects: Projects, key: string)
    ensures FirstKnown(es + [e], projects, key) ==
            if FirstKnown(es, projects, key).Some? then FirstKnown(es, projects, key)
            else if e.idempotencyKey == key && e.projectId in projects then Some(e) else None
  {
    assert (es + [e])[..|es|] == es;
  }

  /** What a ledger row says about the call it records. */
  predicate RowTells(row: Row, s: Settings, c: Call, result: ProviderResult, owner: string)
    requires WellFormed(c.raw)
  {
    && row.requestId == c.raw.requestId.s && row.idempotencyKey == c.raw.idempotencyKey.s
    && row.projectId == c.raw.projectId.s && row.clientOrganizationId == owner
    && row.articleBriefId == c.raw.articleBriefId.s && row.model == c.raw.model.s
    && row.identity == s.identity && row.latencyMs == c.latencyMs
    && match result
       case Ok(_) =>
         && row.status.OK? && row.errorCode.None? && row.promptTokens.Some? && row.completionTokens.Some?
         && row.totalTokens == Some(row.promptTokens.value + row.completionTokens.value)
         && Deciding(c).Response?
         && Reports(Deciding(c).body, "prompt_tokens", row.promptTokens.value)
         && Reports(Deciding(c).body, "completion_tokens", row.completionTokens.value)
       case Err(error) =>
         && row.status.ERROR? && row.errorCode == Some(error)
         && row.promptTokens.None? && row.completionTokens.None? && row.totalTokens.None?
  }

  lemma RecordedRowTells(s: Settings, c: Call, parse: string -> Option<Json>, owner: string)
    requires WellFormed(c.raw)
    ensures RowTells(RowOf(RecordOf(s, c, parse), owner), s, c, AnswerTo(s, c, parse).result, owner)
  {
    OneConsistentRecord(s, c, parse);
    RowOfTells(RecordOf(s, c, parse), s, c, AnswerTo(s, c, parse).result, owner);
  }

  lemma RowOfTells(e: Execution, s: Settings, c: Call, result: ProviderResult, owner: string)
    requires WellFormed(c.raw) && RecordMatches(e, s.identity, c, result)
    ensures RowTells(RowOf(e, owner), s, c, result, owner)
  {
  }

  /**
   * End to end: after any run of calls, a key has one row exactly when some well-formed call under
   * it named an existing project, and that row tells the first such call's outcome under the
   * project's owner.
   */
  lemma RunLeavesFirstCall(s: Settings, calls: seq<Call>, parse: string -> Option<Json>, projects: Projects, key: string)
    ensures var rows := InsertAll([], projects, Executions(Emitted(s, calls, parse)));
            var call := FirstCall(calls, projects, key);
            && CountKey(rows, key) == (if call.Some? then 1 else 0)
            && forall row <- rows :: row.idempotencyKey == key ==>
                 && call.Some? && WellFormed(call.value.raw) && call.value.raw.projectId.s in projects
                 && RowTells(row, s, call.value, AnswerTo(s, call.value, parse).result,
                             projects[call.value.raw.projectId.s])
  {
    FirstCallIsFirstKnown(s, calls, parse, projects, key);
    OneRowPerKey(projects, Executions(Emitted(s, calls, parse)), key);
    FirstCallIsCall(calls, projects, key);
    var call := FirstCall(calls, projects, key);
    if call.Some? {
      OneConsistentRecord(s, call.value, parse);
      RecordedRowTells(s, call.value, parse, projects[call.value.raw.projectId.s]);
    }
  }

  /**
   * From an empty ledger a run's drain rejects exactly when some well-formed call named an unknown
   * project and no earlier well-formed call under its key named a known one.
   */
  lemma {:induction false} DrainRejectsIff(s: Settings, calls: seq<Call>, parse: string -> Option<Json>, projects: Projects)
    ensures SomeRejects([], projects, Executions(Emitted(s, calls, parse))) <==>
            SomeOrphan(calls, projects)
  {
    if calls != [] {
      var front, last := calls[..|calls| - 1], calls[|calls| - 1];
      var es := Executions(Emitted(s, front, parse));
      DrainRejectsIff(s, front, parse, projects);
      OrphanOfOneMore(calls, projects);
      RecordsOfOneMore(s, calls, parse);
      if WellFormed(last.raw) {
        SomeRejectsAppend([], projects, es, RecordOf(s, last, parse));
        RejectsIffOrphan(s, front, last, parse, projects);
      } else {
        assert Executions(Emitted(s, calls, parse)) == es;
      }
    }
  }

  lemma RejectsIffOrphan(s: Settings, front: seq<Call>, c: Call, parse: string -> Option<Json>, projects: Projects)
    requires WellFormed(c.raw)
    ensures Rejects(InsertAll([], projects, Executions(Emitted(s, front, parse))), projects, RecordOf(s, c, parse)) <==>
            c.raw.projectId.s !in projects && FirstCall(front, projects, c.raw.idempotencyKey.s).None?
  {
    var es, key := Executions(Emitted(s, front, parse)), c.raw.idempotencyKey.s;
    RecordNames(s, c, parse);
    FirstCallIsFirstKnown(s, front, parse, projects, key);
    OneRowPerKey(projects, es, key);
    CountIsPresence(InsertAll([], projects, es), key);
  }

  /** A well-formed call for an unknown project, with no earlier one under its key for a known project. */
  predicate OrphanCall(calls: seq<Call>, projects: Projects, k: nat)
    requires k < |calls|
  {
    && WellFormed(calls[k].raw) && calls[k].raw.projectId.s !in projects
    && FirstCall(calls[..k], projects, calls[k].raw.idempotencyKey.s).None?
  }

  ghost predicate SomeOrphan(calls: seq<Call>, projects: Projects) {
    exists k :: 0 <= k < |calls| && OrphanCall(calls, projects, k)
  }

  lemma OrphanOfOneMore(calls: seq<Call>, projects: Projects)
    requires calls != []
    ensures SomeOrphan(calls, projects) <==>
            SomeOrphan(calls[..|calls| - 1], projects) || OrphanCall(calls, projects, |calls| - 1)
  {
    var front := calls[..|calls| - 1];
    forall k | 0 <= k < |front| ensures OrphanCall(front, projects, k) <==> OrphanCall(calls, projects, k) {
      assert front[..k] == calls[..k] && front[k] == calls[k];
    }
  }

  lemma {:induction false} FirstCallIsCall(calls: seq<Call>, projects: Projects, key: string)
    ensures var call := FirstCall(calls, projects, key);
            call.Some? ==> call.value in calls && WellFormed(call.value.raw)
                           && call.value.raw.idempotencyKey.s == key && call.value.raw.projectId.s in projects
  {
    if calls != [] { FirstCallIsCall(calls[..|calls| - 1], projects, key); }
  }
}
