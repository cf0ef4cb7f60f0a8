/**
 * The write-command runtime: one transaction per command, the append-only audit trail doubling as
 * the idempotency ledger, and nested `transaction(work)` calls flattened onto the outer one.
 *
 * A command's `perform` closure is a program (`Work`) over the tables; closures that read the
 * clock or draw fresh ids are different programs on different attempts.
 */
module CommandLedger {
  import opened Options

  // ---------------------------------------------------------------------------------------------
  // The database
  // ---------------------------------------------------------------------------------------------

  /** A JSON value, seen through the `->>` operator: null has no text, any other value has one. */
  datatype Json = JsonNull | JsonString(text: string) | JsonOther(text: string)

  type Metadata = map<string, Json>

  datatype AuditEvent = AuditEvent(
    organizationId: string, actorUserId: string, actorOrganizationId: string,
    clientOrganizationId: Option<string>, projectId: Option<string>,
    action: string, targetType: Option<string>, targetId: Option<string>,
    metadata: Option<Metadata>)

  /** Every table but the audit trail. */
  type Tables = map<string, seq<string>>

  /** The audit trail is in `created_at` order, the order commands of a sequential run append in. */
  datatype Store = Store(tables: Tables, audit: seq<AuditEvent>)

  function TextAt(m: Metadata, field: string): Option<string> {
    if field in m && !m[field].JsonNull? then Some(m[field].text) else None
  }

  // ---------------------------------------------------------------------------------------------
  // What a command carries
  // ---------------------------------------------------------------------------------------------

  datatype CommandError =
    | Abort(code: string, message: string)
    | AuthorizationDenied(message: string)
    | OtherError(message: string)
    | ThrownValue(message: string) // something thrown that is not an Error

  datatype AuditIntent = AuditIntent(
    actorUserId: string, actorOrganizationId: string, clientOrganizationId: Option<string>,
    projectId: Option<string>, action: string, targetType: Option<string>, targetId: Option<string>)

  /** The body of a `perform` closure. A statement the driver rejects throws. */
  datatype Work =
    | Statement(run: Tables -> Option<Tables>)
    | DomainAudit(intent: AuditIntent)
    | Throw(error: CommandError)
    | Branch(test: Tables -> bool, yes: Work, no: Work)
    | Sequence(first: Work, second: Work)
    | Nested(body: Work) // DatabasePort.transaction on the command's own transaction handle
    | Invoke(body: Work) // invokeDomain
    | Catch(body: Work, catches: CommandError -> bool, handler: Work) // rethrows what it does not catch

  datatype Actor = Actor(userId: string, organizationId: string)

  datatype AuditFields = AuditFields(
    clientOrganizationId: Option<string>, projectId: Option<string>,
    targetType: Option<string>, targetId: Option<string>, metadata: Option<Metadata>)

  datatype CommandResult = CommandResult(dto: Json, audit: AuditFields)

  datatype Command = Command(
    actor: Actor, action: string, idempotencyKey: Option<string>,
    work: Work, finish: Tables -> CommandResult)
  {
    /** A null or empty Idempotency-Key switches the ledger off. */
    predicate Keyed() {
      idempotencyKey.Some? && idempotencyKey.value != ""
    }
  }

  datatype Reply = Success(replayed: bool, dto: Json) | Failed(error: CommandError)

  // ---------------------------------------------------------------------------------------------
  // Specification: one command
  // ---------------------------------------------------------------------------------------------

  /** An open transaction: its working copy, and whether a rejected statement has aborted it. */
  datatype Working = Working(store: Store, broken: bool)

  datatype Ran = Done(at: Working) | Threw(at: Working, error: CommandError)

  const ABORTED := OtherError("current transaction is aborted")

  function Begin(store: Store): Working {
    Working(store, false)
  }

  /** invokeDomain's translation of whatever the domain threw. */
  function Translate(error: CommandError): CommandError {
    match error
    case Abort(_, _) => error
    case AuthorizationDenied(message) => Abort("FORBIDDEN", message)
    case OtherError(message) => Abort("VALIDATION_FAILED", message)
    case ThrownValue(_) => error
  }

  /** PgCommandAuditPort.record: a domain audit carries no metadata. */
  function DomainEvent(intent: AuditIntent): AuditEvent {
    AuditEvent(intent.actorOrganizationId, intent.actorUserId, intent.actorOrganizationId,
               intent.clientOrganizationId, intent.projectId, intent.action,
               intent.targetType, intent.targetId, None)
  }

  /**
   * Runs a body on an open transaction; a throw leaves what was written so far. After a rejected
   * statement PostgreSQL refuses every further one until the transaction ends.
   */
  function Run(work: Work, w: Working): Ran {
    match work
    case Statement(run) =>
      if w.broken then Threw(w, ABORTED)
      else
        var after := run(w.store.tables);
        if after.Some? then Done(w.(store := w.store.(tables := after.value)))
        else Threw(w.(broken := true), OtherError("statement rejected"))
    case DomainAudit(intent) =>
      if w.broken then Threw(w, ABORTED)
      else Done(w.(store := w.store.(audit := w.store.audit + [DomainEvent(intent)])))
    case Throw(error) => Threw(w, error)
    case Branch(test, yes, no) =>
      if w.broken then Threw(w, ABORTED) else Run(if test(w.store.tables) then yes else no, w)
    case Sequence(first, second) =>
      var r := Run(first, w);
      if r.Done? then Run(second, r.at) else r
    case Nested(body) => Run(body, w)
    case Invoke(body) =>
      var r := Run(body, w);
      if r.Done? then r else Threw(r.at, Translate(r.error))
    case Catch(body, catches, handler) =>
      var r := Run(body, w);
      if r.Threw? && catches(r.error) then Run(handler, r.at) else r
  }

  function EventFor(actor: Actor, action: string, outcome: string, fields: AuditFields): AuditEvent {
    var bag: Metadata := if fields.metadata.Some? then fields.metadata.value else map[];
    AuditEvent(actor.organizationId, actor.userId, actor.organizationId,
               fields.clientOrganizationId, fields.projectId, action,
               fields.targetType, fields.targetId, Some(bag["outcome" := JsonString(outcome)]))
  }

  /** The metadata an ALLOWED command stores: the caller's bag, the result, the key. */
  function AllowedFields(cmd: Command, result: CommandResult): AuditFields {
    var bag: Metadata := if result.audit.metadata.Some? then result.audit.metadata.value else map[];
    var withResult := bag["result" := result.dto];
    result.audit.(metadata := Some(
      if cmd.Keyed() then withResult["idempotencyKey" := JsonString(cmd.idempotencyKey.value)]
      else withResult))
  }

  function AllowedEvent(cmd: Command, result: CommandResult): AuditEvent {
    EventFor(cmd.actor, cmd.action, "ALLOWED", AllowedFields(cmd, result))
  }

  /** The WHERE clause of findIdempotentReplay. */
  predicate Matches(e: AuditEvent, userId: string, action: string, key: string) {
    && e.actorUserId == userId
    && e.action == action
    && e.metadata.Some?
    && TextAt(e.metadata.value, "idempotencyKey") == Some(key)
    && TextAt(e.metadata.value, "outcome") == Some("ALLOWED")
  }

  /** ORDER BY created_at ASC LIMIT 1. */
  function FirstMatch(audit: seq<AuditEvent>, userId: string, action: string, key: string): Option<AuditEvent> {
    if audit == [] then None
    else if Matches(audit[0], userId, action, key) then Some(audit[0])
    else FirstMatch(audit[1..], userId, action, key)
  }

  /** A stored null result reads as "no prior result". */
  function StoredResult(audit: seq<AuditEvent>, userId: string, action: string, key: string): Option<Json> {
    var row := FirstMatch(audit, userId, action, key);
    if row.None? || row.value.metadata.None? then None
    else
      var bag := row.value.metadata.value;
      if "result" in bag && bag["result"] != JsonNull then Some(bag["result"]) else None
  }

  function PriorResult(store: Store, cmd: Command): Option<Json> {
    if cmd.Keyed() then StoredResult(store.audit, cmd.actor.userId, cmd.action, cmd.idempotencyKey.value)
    else None
  }

  /** The command without its ledger lookup: perform, then the ALLOWED event, or nothing at all. */
  function PerformOnce(store: Store, cmd: Command): (Store, Reply) {
    var r := Run(cmd.work, Begin(store));
    if r.Threw? then (store, Failed(r.error))
    else if r.at.broken then (store, Failed(ABORTED))
    else
      var result := cmd.finish(r.at.store.tables);
      (r.at.store.(audit := r.at.store.audit + [AllowedEvent(cmd, result)]), Success(false, result.dto))
  }

  function Execute(store: Store, cmd: Command): (Store, Reply) {
    var prior := PriorResult(store, cmd);
    if prior.Some? then (store, Success(true, prior.value)) else PerformOnce(store, cmd)
  }

  // ---------------------------------------------------------------------------------------------
  // The runtime
  // ---------------------------------------------------------------------------------------------

  /** One checked-out client between BEGIN and COMMIT / ROLLBACK. */
  class TransactionClient {
    var working: Store
    var broken: bool

    constructor (snapshot: Store)
      ensures At() == Begin(snapshot)
    {
      working, broken := snapshot, false;
    }

    function At(): Working
      reads this
    {
      Working(working, broken)
    }

    /** One INSERT into the audit trail. */
    method Append(e: AuditEvent) returns (thrown: Option<CommandError>)
      modifies this
      ensures broken == old(broken)
      ensures thrown == if old(broken) then Some(ABORTED) else None
      ensures working == if old(broken) then old(working) else old(working).(audit := old(working).audit + [e])
    {
      if broken { return Some(ABORTED); }
      working := working.(audit := working.audit + [e]);
      thrown := None;
    }

    /** Runs a body on this client. A nested transaction call opens no BEGIN of its own. */
    method Perform(work: Work) returns (thrown: Option<CommandError>)
      modifies this
      ensures match Run(work, old(At()))
              case Done(w) => thrown == None && At() == w
              case Threw(w, error) => thrown == Some(error) && At() == w
      decreases work
    {
      match work
      case Statement(run) =>
        if broken { return Some(ABORTED); }
        var after := run(working.tables);
        if after.None? {
          broken := true;
          return Some(OtherError("statement rejected"));
        }
        working := working.(tables := after.value);
        thrown := None;
      case DomainAudit(intent) =>
        thrown := Append(DomainEvent(intent));
      case Throw(error) =>
        thrown := Some(error);
      case Branch(test, yes, no) =>
        if broken { return Some(ABORTED); }
        if test(working.tables) { thrown := Perform(yes); } else { thrown := Perform(no); }
      case Sequence(first, second) =>
        thrown := Perform(first);
        if thrown.None? { thrown := Perform(second); }
      case Nested(body) =>
        thrown := Perform(body);
      case Invoke(body) =>
        thrown := Perform(body);
        if thrown.Some? { thrown := Some(Translate(thrown.value)); }
      case Catch(body, catches, handler) =>
        thrown := Perform(body);
        if thrown.Some? && catches(thrown.value) { thrown := Perform(handler); }
    }
  }

  class PgDatabase {
    var committed: Store

    constructor (initial: Store)
      ensures committed == initial
    {
      committed := initial;
    }

    /** runWriteCommand: BEGIN; look up; perform; append; COMMIT, with ROLLBACK on any throw. */
    method RunWriteCommand(cmd: Command) returns (reply: Reply)
      modifies this
      ensures (committed, reply) == Execute(old(committed), cmd)
    {
      var tx := new TransactionClient(committed);
      if cmd.Keyed() {
        var prior := StoredResult(tx.working.audit, cmd.actor.userId, cmd.action, cmd.idempotencyKey.value);
        if prior.Some? {
          committed := tx.working;
          return Success(true, prior.value);
        }
      }
      var thrown := tx.Perform(cmd.work);
      if thrown.Some? { return Failed(thrown.value); }
      var result := cmd.finish(tx.working.tables);
      thrown := tx.Append(AllowedEvent(cmd, result));
      if thrown.Some? { return Failed(thrown.value); }
      committed := tx.working;
      reply := Success(false, result.dto);
    }

    /** recordDeniedCommand: one DENIED event in its own transaction. */
    method RecordDenied(actor: Actor, action: string, fields: AuditFields)
      modifies this
      ensures committed == Apply(old(committed), Deny(actor, action, fields)).0
    {
      var tx := new TransactionClient(committed);
      var thrown := tx.Append(EventFor(actor, action, "DENIED", fields));
      committed := tx.working;
    }
  }

  // ---------------------------------------------------------------------------------------------
  // All or nothing, whatever the nesting
  // ---------------------------------------------------------------------------------------------

  /** The same writes and throws with every transaction, invokeDomain and catch taken away. */
  function Flatten(work: Work): Work {
    match work
    case Statement(_) => work
    case DomainAudit(_) => work
    case Throw(_) => work
    case Branch(test, yes, no) => Branch(test, Flatten(yes), Flatten(no))
    case Sequence(first, second) => Sequence(Flatten(first), Flatten(second))
    case Nested(body) => Flatten(body)
    case Invoke(body) => Flatten(body)
    case Catch(body, _, _) => Flatten(body)
  }

  /** Something throws during the run, whether or not a catch stops it. */
  predicate ThrowsInside(work: Work, w: Working) {
    match work
    case Statement(run) => w.broken || run(w.store.tables).None?
    case DomainAudit(_) => w.broken
    case Throw(_) => true
    case Branch(test, yes, no) => w.broken || ThrowsInside(if test(w.store.tables) then yes else no, w)
    case Sequence(first, second) => ThrowsInside(first, w) || (Run(first, w).Done? && ThrowsInside(second, Run(first, w).at))
    case Nested(body) => ThrowsInside(body, w)
    case Invoke(body) => ThrowsInside(body, w)
    case Catch(body, _, _) => ThrowsInside(body, w)
  }

  /** A catch of the run takes a throw and its handler returns normally. */
  predicate Swallows(work: Work, w: Working) {
    match work
    case Statement(_) => false
    case DomainAudit(_) => false
    case Throw(_) => false
    case Branch(test, yes, no) => !w.broken && Swallows(if test(w.store.tables) then yes else no, w)
    case Sequence(first, second) => Swallows(first, w) || (Run(first, w).Done? && Swallows(second, Run(first, w).at))
    case Nested(body) => Swallows(body, w)
    case Invoke(body) => Swallows(body, w)
    case Catch(body, catches, handler) =>
      var r := Run(body, w);
      Swallows(body, w) || (r.Threw? && catches(r.error) && (Run(handler, r.at).Done? || Swallows(handler, r.at)))
  }

  /** Unless a catch swallows a throw, nesting and wrappers make no difference to what is committed. */
  lemma {:induction false} NestingIsInvisible(work: Work, w: Working)
    requires !Swallows(work, w)
    ensures Run(work, w).Done? <==> Run(Flatten(work), w).Done?
    ensures Run(work, w).Done? ==> Run(work, w) == Run(Flatten(work), w)
  {
    match work
    case Statement(_) =>
    case DomainAudit(_) =>
    case Throw(_) =>
    case Branch(test, yes, no) => if !w.broken { NestingIsInvisible(if test(w.store.tables) then yes else no, w); }
    case Sequence(first, second) =>
      NestingIsInvisible(first, w);
      if Run(first, w).Done? { NestingIsInvisible(second, Run(first, w).at); }
    case Nested(body) => NestingIsInvisible(body, w);
    case Invoke(body) => NestingIsInvisible(body, w);
    case Catch(body, _, _) => NestingIsInvisible(body, w);
  }

  // ------------------------------------------------------------------ what a body leaves, effect by effect

  /** One thing a body did to the database. */
  datatype Effect = Wrote(tables: Tables) | Audited(intent: AuditIntent)

  /** What a body does, in order, up to where it stops; a handler's doings follow those of the body it rescues. */
  function Effects(work: Work, w: Working): seq<Effect> {
    match work
    case Statement(run) => if w.broken || run(w.store.tables).None? then [] else [Wrote(run(w.store.tables).value)]
    case DomainAudit(intent) => if w.broken then [] else [Audited(intent)]
    case Throw(_) => []
    case Branch(test, yes, no) => if w.broken then [] else if test(w.store.tables) then Effects(yes, w) else Effects(no, w)
    case Sequence(first, second) =>
      Effects(first, w) + if Run(first, w).Done? then Effects(second, Run(first, w).at) else []
    case Nested(body) => Effects(body, w)
    case Invoke(body) => Effects(body, w)
    case Catch(body, catches, handler) =>
      var r := Run(body, w);
      Effects(body, w) + if r.Threw? && catches(r.error) then Effects(handler, r.at) else []
  }

  /** The domain audits among them. */
  function Intents(effects: seq<Effect>): seq<AuditIntent> {
    if effects == [] then []
    else
      var last := effects[|effects| - 1];
      Intents(effects[..|effects| - 1]) + if last.Audited? then [last.intent] else []
  }

  /** The tables after the last write among them. */
  function TablesAfter(tables: Tables, effects: seq<Effect>): Tables {
    if effects == [] then tables
    else
      var last := effects[|effects| - 1];
      if last.Wrote? then last.tables else TablesAfter(tables, effects[..|effects| - 1])
  }

  /** An event that records an intent: every column from the intent, the actor's organization as the event's, no metadata. */
  predicate Records(e: AuditEvent, i: AuditIntent) {
    && e.organizationId == i.actorOrganizationId && e.actorOrganizationId == i.actorOrganizationId
    && e.actorUserId == i.actorUserId && e.clientOrganizationId == i.clientOrganizationId && e.projectId == i.projectId
    && e.action == i.action && e.targetType == i.targetType && e.targetId == i.targetId && e.metadata.None?
  }

  /** The longer trail is the shorter one and an event for each intent, in order. */
  ghost predicate Extends(longer: seq<AuditEvent>, shorter: seq<AuditEvent>, intents: seq<AuditIntent>) {
    && shorter <= longer && |longer| == |shorter| + |intents|
    && forall k :: 0 <= k < |intents| ==> Records(longer[|shorter| + k], intents[k])
  }

  lemma ExtendsTwice(a: seq<AuditEvent>, b: seq<AuditEvent>, c: seq<AuditEvent>, first: seq<AuditIntent>, second: seq<AuditIntent>)
    requires Extends(b, a, first) && Extends(c, b, second)
    ensures Extends(c, a, first + second)
  {
    forall k | 0 <= k < |first + second| ensures Records(c[|a| + k], (first + second)[k]) {
      if k < |first| {
        assert c[|a| + k] == b[|a| + k];
      } else {
        assert Records(c[|b| + (k - |first|)], second[k - |first|]);
      }
    }
  }

  lemma {:induction false} EffectsConcat(tables: Tables, a: seq<Effect>, b: seq<Effect>)
    ensures Intents(a + b) == Intents(a) + Intents(b)
    ensures TablesAfter(tables, a + b) == TablesAfter(TablesAfter(tables, a), b)
  {
    if b == [] {
      assert a + b == a;
    } else {
      var n := |b| - 1;
      assert (a + b)[..|a + b| - 1] == a + b[..n];
      EffectsConcat(tables, a, b[..n]);
    }
  }

  /** A body leaves the tables of its last write, and one event for each domain audit it got to, in order. */
  lemma {:induction false} RunLeavesItsEffects(work: Work, w: Working)
    ensures Run(work, w).at.store.tables == TablesAfter(w.store.tables, Effects(work, w))
    ensures Extends(Run(work, w).at.store.audit, w.store.audit, Intents(Effects(work, w)))
  {
    match work
    case Statement(_) =>
    case DomainAudit(_) =>
    case Throw(_) =>
    case Branch(test, yes, no) =>
      if !w.broken { RunLeavesItsEffects(if test(w.store.tables) then yes else no, w); }
    case Sequence(first, second) =>
      RunLeavesItsEffects(first, w);
      if Run(first, w).Done? {
        var mid := Run(first, w).at;
        RunLeavesItsEffects(second, mid);
        OneAfterTheOther(w.store, mid.store, Run(second, mid).at.store, Effects(first, w), Effects(second, mid));
      } else {
        assert Effects(work, w) == Effects(first, w);
      }
    case Nested(body) => RunLeavesItsEffects(body, w);
    case Invoke(body) => RunLeavesItsEffects(body, w);
    case Catch(body, catches, handler) =>
      var r := Run(body, w);
      RunLeavesItsEffects(body, w);
      if r.Threw? && catches(r.error) {
        RunLeavesItsEffects(handler, r.at);
        OneAfterTheOther(w.store, r.at.store, Run(handler, r.at).at.store, Effects(body, w), Effects(handler, r.at));
      } else {
        assert Effects(work, w) == Effects(body, w);
      }
  }

  lemma OneAfterTheOther(a: Store, b: Store, c: Store, first: seq<Effect>, second: seq<Effect>)
    requires b.tables == TablesAfter(a.tables, first) && Extends(b.audit, a.audit, Intents(first))
    requires c.tables == TablesAfter(b.tables, second) && Extends(c.audit, b.audit, Intents(second))
    ensures c.tables == TablesAfter(a.tables, first + second) && Extends(c.audit, a.audit, Intents(first + second))
  {
    EffectsConcat(a.tables, first, second);
    ExtendsTwice(a.audit, b.audit, c.audit, Intents(first), Intents(second));
  }

  /** The columns of the event a command leaves: the actor's, the action, and the caller's audit fields. */
  predicate IsCommandEvent(e: AuditEvent, actor: Actor, action: string, fields: AuditFields) {
    && e.organizationId == actor.organizationId && e.actorOrganizationId == actor.organizationId && e.actorUserId == actor.userId
    && e.action == action && e.clientOrganizationId == fields.clientOrganizationId && e.projectId == fields.projectId
    && e.targetType == fields.targetType && e.targetId == fields.targetId
  }

  /** The caller's metadata is stored under every field but the reserved ones. */
  ghost predicate KeepsCallerMetadata(e: AuditEvent, fields: AuditFields) {
    && e.metadata.Some?
    && forall f :: f !in ["outcome", "result", "idempotencyKey"] ==>
         var given := if fields.metadata.Some? then fields.metadata.value else map[];
         (f in e.metadata.value <==> f in given) && (f in given ==> e.metadata.value[f] == given[f])
  }

  /** The event an ALLOWED command leaves: its columns, its outcome, its result, its own key if it has one. */
  lemma AllowedColumns(cmd: Command, result: CommandResult)
    ensures var e := AllowedEvent(cmd, result);
            && IsCommandEvent(e, cmd.actor, cmd.action, result.audit) && KeepsCallerMetadata(e, result.audit)
            && TextAt(e.metadata.value, "outcome") == Some("ALLOWED")
            && "result" in e.metadata.value && e.metadata.value["result"] == result.dto
            && TextAt(e.metadata.value, "idempotencyKey") ==
               if cmd.Keyed() then cmd.idempotencyKey
               else if result.audit.metadata.Some? then TextAt(result.audit.metadata.value, "idempotencyKey") else None
  {
  }

  /** The event a refused command leaves. */
  lemma DeniedColumns(store: Store, actor: Actor, action: string, fields: AuditFields)
    ensures var after := Apply(store, Deny(actor, action, fields)).0;
            && after.tables == store.tables && |after.audit| == |store.audit| + 1 && store.audit <= after.audit
            && var e := after.audit[|store.audit|];
               && IsCommandEvent(e, actor, action, fields) && KeepsCallerMetadata(e, fields)
               && TextAt(e.metadata.value, "outcome") == Some("DENIED")
  {
  }

  /**
   * A command that is no replay and swallows no throw ends in one of two stores. If the flat execution
   * of all its writes and domain audits returns: its last write's tables, an event for each domain
   * audit in order, and one ALLOWED event, each column from the intent or the command. If it throws:
   * the store it started from, and the error the body threw.
   */
  lemma AllOrNothing(store: Store, cmd: Command)
    requires PriorResult(store, cmd).None? && !Swallows(cmd.work, Begin(store))
    ensures var (after, reply) := Execute(store, cmd);
            var effects := Effects(Flatten(cmd.work), Begin(store));
            if Run(Flatten(cmd.work), Begin(store)).Done? then
              var result := cmd.finish(TablesAfter(store.tables, effects));
              && after.tables == TablesAfter(store.tables, effects)
              && |after.audit| == |store.audit| + |Intents(effects)| + 1
              && Extends(after.audit[..|after.audit| - 1], store.audit, Intents(effects))
              && IsCommandEvent(after.audit[|after.audit| - 1], cmd.actor, cmd.action, result.audit)
              && reply == Success(false, result.dto)
            else after == store && Run(cmd.work, Begin(store)).Threw? && reply == Failed(Run(cmd.work, Begin(store)).error)
  {
    NestingIsInvisible(cmd.work, Begin(store));
    FlatBreaksNothing(cmd.work, Begin(store));
    RunLeavesItsEffects(Flatten(cmd.work), Begin(store));
    var flat := Run(Flatten(cmd.work), Begin(store));
    if flat.Done? {
      var after := Execute(store, cmd).0;
      AllowedColumns(cmd, cmd.finish(flat.at.store.tables));
      assert after.audit[..|after.audit| - 1] == flat.at.store.audit;
    }
  }

  /** Without a catch, a run that finishes has met no rejected statement. */
  lemma {:induction false} FlatBreaksNothing(work: Work, w: Working)
    ensures Run(Flatten(work), w).Done? ==> Run(Flatten(work), w).at.broken == w.broken
  {
    match work
    case Statement(_) =>
    case DomainAudit(_) =>
    case Throw(_) =>
    case Branch(test, yes, no) => FlatBreaksNothing(if test(w.store.tables) then yes else no, w);
    case Sequence(first, second) =>
      FlatBreaksNothing(first, w);
      if Run(Flatten(first), w).Done? { FlatBreaksNothing(second, Run(Flatten(first), w).at); }
    case Nested(body) => FlatBreaksNothing(body, w);
    case Invoke(body) => FlatBreaksNothing(body, w);
    case Catch(body, _, _) => FlatBreaksNothing(body, w);
  }

  // ------------------------------------------------------------------ when a command commits after a throw

  lemma {:induction false} DoneAfterThrowIffSwallowed(work: Work, w: Working)
    ensures Run(work, w).Threw? ==> ThrowsInside(work, w)
    ensures Run(work, w).Done? ==> (ThrowsInside(work, w) <==> Swallows(work, w))
  {
    match work
    case Statement(_) =>
    case DomainAudit(_) =>
    case Throw(_) =>
    case Branch(test, yes, no) => if !w.broken { DoneAfterThrowIffSwallowed(if test(w.store.tables) then yes else no, w); }
    case Sequence(first, second) =>
      DoneAfterThrowIffSwallowed(first, w);
      if Run(first, w).Done? { DoneAfterThrowIffSwallowed(second, Run(first, w).at); }
    case Nested(body) => DoneAfterThrowIffSwallowed(body, w);
    case Invoke(body) => DoneAfterThrowIffSwallowed(body, w);
    case Catch(body, _, _) => DoneAfterThrowIffSwallowed(body, w);
  }

  /** A transaction a rejected statement has aborted stays so, and takes no further write. */
  lemma {:induction false} BrokenStays(work: Work, w: Working)
    requires w.broken
    ensures Run(work, w).at == w
  {
    match work
    case Statement(_) =>
    case DomainAudit(_) =>
    case Throw(_) =>
    case Branch(_, _, _) =>
    case Sequence(first, second) =>
      BrokenStays(first, w);
      if Run(first, w).Done? { BrokenStays(second, w); }
    case Nested(body) => BrokenStays(body, w);
    case Invoke(body) => BrokenStays(body, w);
    case Catch(body, _, handler) =>
      BrokenStays(body, w);
      BrokenStays(handler, w);
  }

  /** Some statement of the run is rejected by the database. */
  predicate RejectsInside(work: Work, w: Working) {
    match work
    case Statement(run) => !w.broken && run(w.store.tables).None?
    case DomainAudit(_) => false
    case Throw(_) => false
    case Branch(test, yes, no) => !w.broken && RejectsInside(if test(w.store.tables) then yes else no, w)
    case Sequence(first, second) => RejectsInside(first, w) || (Run(first, w).Done? && RejectsInside(second, Run(first, w).at))
    case Nested(body) => RejectsInside(body, w)
    case Invoke(body) => RejectsInside(body, w)
    case Catch(body, catches, handler) =>
      var r := Run(body, w);
      RejectsInside(body, w) || (r.Threw? && catches(r.error) && RejectsInside(handler, r.at))
  }

  lemma {:induction false} BrokenIffRejected(work: Work, w: Working)
    requires !w.broken
    ensures Run(work, w).at.broken <==> RejectsInside(work, w)
    decreases work, 0
  {
    match work
    case Statement(_) =>
    case DomainAudit(_) =>
    case Throw(_) =>
    case Branch(test, yes, no) => BrokenIffRejected(if test(w.store.tables) then yes else no, w);
    case Sequence(first, second) =>
      BrokenIffRejected(first, w);
      var r := Run(first, w);
      if r.Done? { BrokenContinues(second, r.at); }
    case Nested(body) => BrokenIffRejected(body, w);
    case Invoke(body) => BrokenIffRejected(body, w);
    case Catch(body, catches, handler) =>
      BrokenIffRejected(body, w);
      var r := Run(body, w);
      if r.Threw? && catches(r.error) { BrokenContinues(handler, r.at); }
  }

  lemma {:induction false} BrokenContinues(work: Work, w: Working)
    ensures Run(work, w).at.broken <==> w.broken || RejectsInside(work, w)
    decreases work, 1
  {
    if w.broken { BrokenStays(work, w); } else { BrokenIffRejected(work, w); }
  }

  /**
   * Exactly when a command commits although something inside it threw: its body returns, a catch
   * swallowed the throw, and the throw was no rejected statement, since PostgreSQL refuses to
   * continue after one.
   */
  lemma CommitsAfterThrowIff(store: Store, cmd: Command)
    requires PriorResult(store, cmd).None?
    ensures Execute(store, cmd).1.Success? && ThrowsInside(cmd.work, Begin(store)) <==>
            && Run(cmd.work, Begin(store)).Done? && Swallows(cmd.work, Begin(store)) && !RejectsInside(cmd.work, Begin(store))
  {
    DoneAfterThrowIffSwallowed(cmd.work, Begin(store));
    BrokenIffRejected(cmd.work, Begin(store));
  }

  /** Concretely: a nested transaction writes, throws, and is caught. Its partial write is committed. */
  lemma PartialNestedWriteCommits(actor: Actor)
    ensures var write := Statement((t: Tables) => Some(t["article" := ["half"]]));
            var body := Catch(Nested(Sequence(write, Throw(OtherError("later step failed")))), (_: CommandError) => true,
                              Statement((t: Tables) => Some(t)));
            var cmd := Command(actor, "create", None, body, (_: Tables) => CommandResult(JsonString("ok"), AuditFields(None, None, None, None, None)));
            var (after, reply) := Execute(Store(map[], []), cmd);
            && reply == Success(false, JsonString("ok")) && after.tables == map["article" := ["half"]]
            && ThrowsInside(body, Begin(Store(map[], [])))
  {
    var w := Begin(Store(map[], []));
    var write := Statement((t: Tables) => Some(t["article" := ["half"]]));
    var steps := Sequence(write, Throw(OtherError("later step failed")));
    var wrote := Working(Store(map["article" := ["half"]], []), false);
    assert Run(write, w) == Done(wrote);
    assert Run(steps, w) == Threw(wrote, OtherError("later step failed"));
  }

  /**
   * What the route sees of a throw under invokeDomain: an abort as it is, a denied authorization as
   * FORBIDDEN, any other Error as VALIDATION_FAILED, each with its message, and what is no Error as it is.
   */
  lemma InvokeYieldsEnvelope(body: Work, w: Working)
    requires Run(body, w).Threw?
    ensures var thrown, r := Run(body, w).error, Run(Invoke(body), w);
            && r.Threw? && r.at == Run(body, w).at
            && (thrown.Abort? || thrown.ThrownValue? ==> r.error == thrown)
            && (thrown.AuthorizationDenied? ==> r.error == Abort("FORBIDDEN", thrown.message))
            && (thrown.OtherError? ==> r.error == Abort("VALIDATION_FAILED", thrown.message))
            && Run(Invoke(Invoke(body)), w) == r
  {
  }

  // ---------------------------------------------------------------------------------------------
  // Runs
  // ---------------------------------------------------------------------------------------------

  datatype Step =
    | Attempt(cmd: Command)
    | Deny(actor: Actor, action: string, fields: AuditFields)

  function Apply(store: Store, step: Step): (Store, Option<Reply>) {
    match step
    case Attempt(cmd) =>
      var (after, reply) := Execute(store, cmd);
      (after, Some(reply))
    case Deny(actor, action, fields) =>
      (store.(audit := store.audit + [EventFor(actor, action, "DENIED", fields)]), None)
  }

  function After(store: Store, steps: seq<Step>): Store {
    if steps == [] then store else Apply(After(store, steps[..|steps| - 1]), steps[|steps| - 1]).0
  }

  function ReplyAt(store: Store, steps: seq<Step>, i: nat): Option<Reply>
    requires i < |steps|
  {
    Apply(After(store, steps[..i]), steps[i]).1
  }

  /** The step's command ran its closure and committed. */
  predicate Fresh(store: Store, steps: seq<Step>, i: nat)
    requires i < |steps|
  {
    CommitsFresh(ReplyAt(store, steps, i))
  }

  /** No reserved field that could answer a lookup: absent, null, empty, or overwritten by the command's own key. */
  predicate LeavesKeyAlone(cmd: Command, result: CommandResult) {
    cmd.Keyed() || result.audit.metadata.None? || TextAt(result.audit.metadata.value, "idempotencyKey") in [None, Some("")]
  }

  /** What the theorems ask of a command that commits: no null result under a key, no forged key. */
  predicate Disciplined(store: Store, step: Step) {
    step.Attempt? && PriorResult(store, step.cmd).None? && Finishes(store, step.cmd) ==>
      var result := ResultOf(store, step.cmd);
      LeavesKeyAlone(step.cmd, result) && (step.cmd.Keyed() ==> result.dto != JsonNull)
  }

  /** The body returns on a transaction that can still commit. */
  predicate Finishes(store: Store, cmd: Command) {
    Run(cmd.work, Begin(store)).Done? && !Run(cmd.work, Begin(store)).at.broken
  }

  function ResultOf(store: Store, cmd: Command): CommandResult {
    cmd.finish(Run(cmd.work, Begin(store)).at.store.tables)
  }

  ghost predicate DisciplinedRun(store: Store, steps: seq<Step>) {
    forall i :: 0 <= i < |steps| ==> Disciplined(After(store, steps[..i]), steps[i])
  }

  lemma DisciplinedPrefix(store: Store, steps: seq<Step>, n: nat)
    requires DisciplinedRun(store, steps) && n <= |steps|
    ensures DisciplinedRun(store, steps[..n])
  {
    forall i | 0 <= i < n ensures steps[..n][..i] == steps[..i] && steps[..n][i] == steps[i] {}
  }

  predicate SameKey(a: Step, b: Step) {
    && a.Attempt? && b.Attempt? && a.cmd.Keyed() && b.cmd.Keyed()
    && a.cmd.actor.userId == b.cmd.actor.userId
    && a.cmd.action == b.cmd.action
    && a.cmd.idempotencyKey == b.cmd.idempotencyKey
  }

  function MatchCount(audit: seq<AuditEvent>, userId: string, action: string, key: string): nat {
    if audit == [] then 0
    else MatchCount(audit[..|audit| - 1], userId, action, key)
         + if Matches(audit[|audit| - 1], userId, action, key) then 1 else 0
  }

  /** How many of the run's commands under this key ran their closure and committed. */
  function FreshCount(store: Store, steps: seq<Step>, userId: string, action: string, key: string): nat {
    if steps == [] then 0
    else
      var n := |steps| - 1;
      FreshCount(store, steps[..n], userId, action, key)
      + if Fresh(store, steps, n) && UnderKey(steps[n].cmd, userId, action, key) then 1 else 0
  }

  // ------------------------------------------------------------------ what one append does

  lemma {:induction false} FirstMatchAppend(audit: seq<AuditEvent>, e: AuditEvent, userId: string, action: string, key: string)
    ensures FirstMatch(audit + [e], userId, action, key) ==
            if FirstMatch(audit, userId, action, key).Some? then FirstMatch(audit, userId, action, key)
            else if Matches(e, userId, action, key) then Some(e) else None
  {
    if audit == [] {
      assert audit + [e] == [e];
    } else {
      assert (audit + [e])[1..] == audit[1..] + [e];
      FirstMatchAppend(audit[1..], e, userId, action, key);
    }
  }

  lemma {:induction false} FirstMatchCount(audit: seq<AuditEvent>, userId: string, action: string, key: string)
    ensures FirstMatch(audit, userId, action, key).Some? <==> MatchCount(audit, userId, action, key) > 0
    ensures FirstMatch(audit, userId, action, key).Some? ==>
              Matches(FirstMatch(audit, userId, action, key).value, userId, action, key)
  {
    if audit != [] {
      var n := |audit| - 1;
      assert audit == audit[..n] + [audit[n]];
      FirstMatchCount(audit[..n], userId, action, key);
      FirstMatchAppend(audit[..n], audit[n], userId, action, key);
    }
  }

  lemma MatchCountAppend(audit: seq<AuditEvent>, e: AuditEvent, userId: string, action: string, key: string)
    ensures MatchCount(audit + [e], userId, action, key) ==
            MatchCount(audit, userId, action, key) + if Matches(e, userId, action, key) then 1 else 0
  {
    assert (audit + [e])[..|audit|] == audit;
  }

  lemma DomainEventNeverMatches(audit: seq<AuditEvent>, intent: AuditIntent, userId: string, action: string, key: string)
    ensures var after := audit + [DomainEvent(intent)];
            && MatchCount(after, userId, action, key) == MatchCount(audit, userId, action, key)
            && FirstMatch(after, userId, action, key) == FirstMatch(audit, userId, action, key)
  {
    MatchCountAppend(audit, DomainEvent(intent), userId, action, key);
    FirstMatchAppend(audit, DomainEvent(intent), userId, action, key);
    FirstMatchCount(audit, userId, action, key);
  }

  /** Domain audits carry no metadata, so a perform body never touches the ledger. */
  lemma {:induction false} WorkNeverMatches(work: Work, w: Working, userId: string, action: string, key: string)
    ensures MatchCount(Run(work, w).at.store.audit, userId, action, key) == MatchCount(w.store.audit, userId, action, key)
    ensures FirstMatch(Run(work, w).at.store.audit, userId, action, key) == FirstMatch(w.store.audit, userId, action, key)
  {
    match work
    case Statement(_) =>
    case DomainAudit(intent) =>
      DomainEventNeverMatches(w.store.audit, intent, userId, action, key);
    case Throw(_) =>
    case Branch(test, yes, no) => WorkNeverMatches(if test(w.store.tables) then yes else no, w, userId, action, key);
    case Sequence(first, second) =>
      WorkNeverMatches(first, w, userId, action, key);
      if Run(first, w).Done? { WorkNeverMatches(second, Run(first, w).at, userId, action, key); }
    case Nested(body) => WorkNeverMatches(body, w, userId, action, key);
    case Invoke(body) => WorkNeverMatches(body, w, userId, action, key);
    case Catch(body, _, handler) =>
      WorkNeverMatches(body, w, userId, action, key);
      WorkNeverMatches(handler, Run(body, w).at, userId, action, key);
  }

  lemma DeniedNeverMatches(actor: Actor, act: string, fields: AuditFields, userId: string, action: string, key: string)
    ensures !Matches(EventFor(actor, act, "DENIED", fields), userId, action, key)
  {
    var e := EventFor(actor, act, "DENIED", fields);
    assert TextAt(e.metadata.value, "outcome") == Some("DENIED");
    assert "DENIED"[0] != "ALLOWED"[0];
  }

  /**
   * The ALLOWED event of a command answers exactly the lookups of its own actor, action and key, for
   * every lookup, if and only if the caller's metadata leaves the reserved field alone.
   */
  lemma AllowedMatchesOwnKeyIff(cmd: Command, result: CommandResult)
    ensures (forall userId, action, key :: key != "" ==>
               (Matches(AllowedEvent(cmd, result), userId, action, key) <==> UnderKey(cmd, userId, action, key)))
            <==> LeavesKeyAlone(cmd, result)
  {
    AllowedColumns(cmd, result);
    if !LeavesKeyAlone(cmd, result) {
      var forged := TextAt(result.audit.metadata.value, "idempotencyKey").value;
      assert Matches(AllowedEvent(cmd, result), cmd.actor.userId, cmd.action, forged);
      assert !UnderKey(cmd, cmd.actor.userId, cmd.action, forged);
    }
  }

  lemma AllowedMatchesOwnKey(cmd: Command, result: CommandResult, userId: string, action: string, key: string)
    requires LeavesKeyAlone(cmd, result) && key != ""
    ensures var e := AllowedEvent(cmd, result);
            && (Matches(e, userId, action, key) <==> UnderKey(cmd, userId, action, key))
            && e.metadata.Some? && "result" in e.metadata.value && e.metadata.value["result"] == result.dto
  {
    AllowedColumns(cmd, result);
  }

  predicate UnderKey(cmd: Command, userId: string, action: string, key: string) {
    cmd.Keyed() && cmd.actor.userId == userId && cmd.action == action && cmd.idempotencyKey == Some(key)
  }

  predicate CommitsFresh(reply: Option<Reply>) {
    reply.Some? && reply.value.Success? && !reply.value.replayed
  }

  /** One step adds a ledger event for a key exactly when it is a fresh command under that key. */
  lemma StepCount(store: Store, step: Step, userId: string, action: string, key: string)
    requires Disciplined(store, step) && key != ""
    ensures var (after, reply) := Apply(store, step);
            MatchCount(after.audit, userId, action, key) == MatchCount(store.audit, userId, action, key)
              + if CommitsFresh(reply) && UnderKey(step.cmd, userId, action, key) then 1 else 0
  {
    match step
    case Deny(actor, act, fields) =>
      DeniedNeverMatches(actor, act, fields, userId, action, key);
      MatchCountAppend(store.audit, EventFor(actor, act, "DENIED", fields), userId, action, key);
    case Attempt(cmd) =>
      if PriorResult(store, cmd).None? && Finishes(store, cmd) {
        var result := ResultOf(store, cmd);
        WorkNeverMatches(cmd.work, Begin(store), userId, action, key);
        AllowedMatchesOwnKey(cmd, result, userId, action, key);
        MatchCountAppend(Run(cmd.work, Begin(store)).at.store.audit, AllowedEvent(cmd, result), userId, action, key);
      }
  }

  /** The oldest event of a key stays; the first one is a fresh command's, and holds its result. */
  lemma StepFirstMatch(store: Store, step: Step, userId: string, action: string, key: string)
    requires Disciplined(store, step) && key != ""
    ensures var (after, reply) := Apply(store, step);
            if FirstMatch(store.audit, userId, action, key).Some? then
              FirstMatch(after.audit, userId, action, key) == FirstMatch(store.audit, userId, action, key)
            else if CommitsFresh(reply) && UnderKey(step.cmd, userId, action, key) then
              StoredResult(after.audit, userId, action, key) == Some(reply.value.dto)
            else FirstMatch(after.audit, userId, action, key).None?
  {
    match step
    case Deny(actor, act, fields) =>
      DeniedNeverMatches(actor, act, fields, userId, action, key);
      FirstMatchAppend(store.audit, EventFor(actor, act, "DENIED", fields), userId, action, key);
    case Attempt(cmd) =>
      if PriorResult(store, cmd).None? && Finishes(store, cmd) {
        var result := ResultOf(store, cmd);
        WorkNeverMatches(cmd.work, Begin(store), userId, action, key);
        AllowedMatchesOwnKey(cmd, result, userId, action, key);
        FirstMatchAppend(Run(cmd.work, Begin(store)).at.store.audit, AllowedEvent(cmd, result), userId, action, key);
      }
  }

  // ------------------------------------------------------------------ exactly once

  /** Each key has at most one ALLOWED event, and it holds a result a retry can read. */
  ghost predicate LedgerSound(store: Store) {
    forall userId, action, key :: key != "" ==>
      && MatchCount(store.audit, userId, action, key) <= 1
      && (MatchCount(store.audit, userId, action, key) == 1 ==> StoredResult(store.audit, userId, action, key).Some?)
  }

  lemma StepKeepsLedgerSound(store: Store, step: Step)
    requires LedgerSound(store) && Disciplined(store, step)
    ensures LedgerSound(Apply(store, step).0)
  {
    var after := Apply(store, step).0;
    forall userId, action, key | key != ""
      ensures MatchCount(after.audit, userId, action, key) <= 1
      ensures MatchCount(after.audit, userId, action, key) == 1 ==> StoredResult(after.audit, userId, action, key).Some?
    {
      StepCount(store, step, userId, action, key);
      StepFirstMatch(store, step, userId, action, key);
      FirstMatchCount(store.audit, userId, action, key);
      FirstMatchCount(after.audit, userId, action, key);
    }
  }

  lemma {:induction false} RunKeepsLedgerSound(store: Store, steps: seq<Step>)
    requires LedgerSound(store) && DisciplinedRun(store, steps)
    ensures LedgerSound(After(store, steps))
  {
    if steps != [] {
      DisciplinedPrefix(store, steps, |steps| - 1);
      RunKeepsLedgerSound(store, steps[..|steps| - 1]);
      StepKeepsLedgerSound(After(store, steps[..|steps| - 1]), steps[|steps| - 1]);
    }
  }

  lemma {:induction false} RunLedger(store: Store, steps: seq<Step>, userId: string, action: string, key: string)
    requires DisciplinedRun(store, steps) && key != ""
    ensures MatchCount(After(store, steps).audit, userId, action, key) ==
            MatchCount(store.audit, userId, action, key) + FreshCount(store, steps, userId, action, key)
  {
    if steps != [] {
      var n := |steps| - 1;
      DisciplinedPrefix(store, steps, n);
      RunLedger(store, steps[..n], userId, action, key);
      StepCount(After(store, steps[..n]), steps[n], userId, action, key);
    }
  }

  /**
   * Exactly once, on the ledger: over any run, an (actor, action, key) gets exactly as many ALLOWED
   * events as commands under it that performed and committed, and that is at most one.
   */
  lemma AtMostOnePerKey(store: Store, steps: seq<Step>, userId: string, action: string, key: string)
    requires LedgerSound(store) && DisciplinedRun(store, steps) && key != ""
    ensures MatchCount(After(store, steps).audit, userId, action, key) ==
            MatchCount(store.audit, userId, action, key) + FreshCount(store, steps, userId, action, key) <= 1
  {
    RunLedger(store, steps, userId, action, key);
    RunKeepsLedgerSound(store, steps);
  }

  lemma AfterOneMore(store: Store, steps: seq<Step>, n: nat)
    requires n < |steps|
    ensures After(store, steps[..n + 1]) == Apply(After(store, steps[..n]), steps[n]).0
  {
    assert steps[..n + 1][..n] == steps[..n];
  }

  lemma StepKeepsStored(store: Store, step: Step, userId: string, action: string, key: string)
    requires Disciplined(store, step) && key != ""
    requires StoredResult(store.audit, userId, action, key).Some?
    ensures StoredResult(Apply(store, step).0.audit, userId, action, key) == StoredResult(store.audit, userId, action, key)
  {
    StepFirstMatch(store, step, userId, action, key);
  }

  lemma StoredOneMore(store: Store, steps: seq<Step>, n: nat, userId: string, action: string, key: string)
    requires DisciplinedRun(store, steps) && n < |steps| && key != ""
    requires StoredResult(After(store, steps[..n]).audit, userId, action, key).Some?
    ensures StoredResult(After(store, steps[..n + 1]).audit, userId, action, key)
         == StoredResult(After(store, steps[..n]).audit, userId, action, key)
  {
    AfterOneMore(store, steps, n);
    StepKeepsStored(After(store, steps[..n]), steps[n], userId, action, key);
  }

  /** A value that each step keeps once it is there is kept over many. */
  lemma {:induction false} KeptFrom(values: seq<Option<Json>>, i: nat, j: nat)
    requires i <= j < |values| && values[i].Some?
    requires forall n :: 0 <= n < |values| - 1 && values[n].Some? ==> values[n + 1] == values[n]
    ensures values[j] == values[i]
  {
    if i < j { KeptFrom(values, i, j - 1); }
  }

  /** The result stored under a key after each number of steps. */
  function Timeline(store: Store, steps: seq<Step>, userId: string, action: string, key: string): (values: seq<Option<Json>>)
    ensures |values| == |steps| + 1
    ensures forall n :: 0 <= n <= |steps| ==> values[n] == StoredResult(After(store, steps[..n]).audit, userId, action, key)
  {
    seq(|steps| + 1, n requires 0 <= n <= |steps| => StoredResult(After(store, steps[..n]).audit, userId, action, key))
  }

  lemma TimelineKeeps(store: Store, steps: seq<Step>, userId: string, action: string, key: string)
    requires DisciplinedRun(store, steps) && key != ""
    ensures var values := Timeline(store, steps, userId, action, key);
            forall n :: 0 <= n < |values| - 1 && values[n].Some? ==> values[n + 1] == values[n]
  {
    var values := Timeline(store, steps, userId, action, key);
    forall n | 0 <= n < |steps| && values[n].Some? ensures values[n + 1] == values[n] {
      StoredOneMore(store, steps, n, userId, action, key);
    }
  }

  /** A result once stored under a key is still the stored one at every later point of the run. */
  lemma StoredResultStays(store: Store, steps: seq<Step>, i: nat, j: nat, userId: string, action: string, key: string)
    requires DisciplinedRun(store, steps) && i <= j <= |steps| && key != ""
    requires StoredResult(After(store, steps[..i]).audit, userId, action, key).Some?
    ensures StoredResult(After(store, steps[..j]).audit, userId, action, key)
         == StoredResult(After(store, steps[..i]).audit, userId, action, key)
  {
    TimelineKeeps(store, steps, userId, action, key);
    KeptFrom(Timeline(store, steps, userId, action, key), i, j);
  }

  /** A fresh command leaves its own result stored under its key. */
  lemma FreshStoresResult(store: Store, step: Step)
    requires LedgerSound(store) && Disciplined(store, step)
    requires CommitsFresh(Apply(store, step).1) && step.cmd.Keyed()
    ensures StoredResult(Apply(store, step).0.audit, step.cmd.actor.userId, step.cmd.action, step.cmd.idempotencyKey.value)
         == Some(Apply(store, step).1.value.dto)
  {
    var cmd := step.cmd;
    FirstMatchCount(store.audit, cmd.actor.userId, cmd.action, cmd.idempotencyKey.value);
    StepFirstMatch(store, step, cmd.actor.userId, cmd.action, cmd.idempotencyKey.value);
  }

  lemma StoredResultIsReplayed(store: Store, step: Step, dto: Json)
    requires step.Attempt? && PriorResult(store, step.cmd) == Some(dto)
    ensures Apply(store, step) == (store, Some(Success(true, dto)))
  {
  }

  /**
   * Exactly once, as the client sees it: once a keyed command has performed, every later attempt
   * under its key, whatever happened in between, returns the first result and changes nothing.
   */
  lemma RetryReplaysFirstResult(store: Store, steps: seq<Step>, i: nat, j: nat)
    requires LedgerSound(store) && DisciplinedRun(store, steps)
    requires i < j < |steps| && SameKey(steps[i], steps[j]) && Fresh(store, steps, i)
    ensures ReplyAt(store, steps, j) == Some(Success(true, ReplyAt(store, steps, i).value.dto))
    ensures After(store, steps[..j + 1]) == After(store, steps[..j])
  {
    var cmd := steps[i].cmd;
    DisciplinedPrefix(store, steps, i);
    RunKeepsLedgerSound(store, steps[..i]);
    FreshStoresResult(After(store, steps[..i]), steps[i]);
    AfterOneMore(store, steps, i);
    StoredResultStays(store, steps, i + 1, j, cmd.actor.userId, cmd.action, cmd.idempotencyKey.value);
    StoredResultIsReplayed(After(store, steps[..j]), steps[j], ReplyAt(store, steps, i).value.dto);
    AfterOneMore(store, steps, j);
  }

  // ------------------------------------------------------------------ effects

  /** The run with every retry, abort and denial removed: only the commands that committed. */
  function Committed(store: Store, steps: seq<Step>): seq<Command> {
    if steps == [] then []
    else
      var n := |steps| - 1;
      Committed(store, steps[..n]) + if Fresh(store, steps, n) then [steps[n].cmd] else []
  }

  /** The tables after performing each command once, with no ledger at all. */
  function PerformAll(tables: Tables, cmds: seq<Command>): Tables {
    if cmds == [] then tables
    else
      var before := PerformAll(tables, cmds[..|cmds| - 1]);
      PerformOnce(Store(before, []), cmds[|cmds| - 1]).0.tables
  }

  lemma {:induction false} TablesIgnoreAudit(work: Work, a: Working, b: Working)
    requires a.store.tables == b.store.tables && a.broken == b.broken
    ensures Run(work, a).at.store.tables == Run(work, b).at.store.tables && Run(work, a).at.broken == Run(work, b).at.broken
    ensures Run(work, a).Done? == Run(work, b).Done? && (Run(work, a).Threw? ==> Run(work, a).error == Run(work, b).error)
  {
    match work
    case Statement(_) =>
    case DomainAudit(_) =>
    case Throw(_) =>
    case Branch(test, yes, no) => TablesIgnoreAudit(if test(a.store.tables) then yes else no, a, b);
    case Sequence(first, second) =>
      TablesIgnoreAudit(first, a, b);
      if Run(first, a).Done? { TablesIgnoreAudit(second, Run(first, a).at, Run(first, b).at); }
    case Nested(body) => TablesIgnoreAudit(body, a, b);
    case Invoke(body) => TablesIgnoreAudit(body, a, b);
    case Catch(body, catches, handler) =>
      TablesIgnoreAudit(body, a, b);
      if Run(body, a).Threw? { TablesIgnoreAudit(handler, Run(body, a).at, Run(body, b).at); }
  }

  lemma StepTables(store: Store, step: Step)
    ensures var (after, reply) := Apply(store, step);
            after.tables == if CommitsFresh(reply) then PerformOnce(Store(store.tables, []), step.cmd).0.tables
                            else store.tables
  {
    if step.Attempt? { TablesIgnoreAudit(step.cmd.work, Begin(store), Begin(Store(store.tables, []))); }
  }

  /** A run with retries and failures leaves the tables of the run that performs each commit once. */
  lemma {:induction false} EffectsOfCommitsOnly(store: Store, steps: seq<Step>)
    ensures After(store, steps).tables == PerformAll(store.tables, Committed(store, steps))
  {
    if steps != [] {
      var n := |steps| - 1;
      var front, kept := steps[..n], Committed(store, steps[..n]);
      EffectsOfCommitsOnly(store, front);
      StepTables(After(store, front), steps[n]);
      if Fresh(store, steps, n) {
        var cmds := kept + [steps[n].cmd];
        assert Committed(store, steps) == cmds && cmds[..|cmds| - 1] == kept;
      } else {
        assert Committed(store, steps) == kept;
      }
    }
  }

  /** No two of the commits share a key, so each key's effects are in the tables at most once. */
  lemma CommitsHaveDistinctKeys(store: Store, steps: seq<Step>, i: nat, j: nat)
    requires LedgerSound(store) && DisciplinedRun(store, steps)
    requires i < j < |steps| && SameKey(steps[i], steps[j])
    ensures !(Fresh(store, steps, i) && Fresh(store, steps, j))
  {
    if Fresh(store, steps, i) { RetryReplaysFirstResult(store, steps, i, j); }
  }

  // ------------------------------------------------------------------ where it stops holding

  /**
   * The null-result caveat, exactly: a keyed command that commits a first time is recognised by the
   * next lookup if and only if the result its own closure computed is not null.
   */
  lemma ReplayableIffNotNull(store: Store, cmd: Command)
    requires cmd.Keyed() && FirstMatch(store.audit, cmd.actor.userId, cmd.action, cmd.idempotencyKey.value).None?
    requires Finishes(store, cmd)
    ensures var dto := cmd.finish(Run(cmd.work, Begin(store)).at.store.tables).dto;
            var after := Execute(store, cmd).0;
            && (PriorResult(after, cmd).Some? <==> dto != JsonNull)
            && (dto != JsonNull ==> Execute(after, cmd) == (after, Success(true, dto)))
            && (dto == JsonNull ==> Execute(after, cmd) == PerformOnce(after, cmd))
  {
    var userId, action, key := cmd.actor.userId, cmd.action, cmd.idempotencyKey.value;
    var result := ResultOf(store, cmd);
    WorkNeverMatches(cmd.work, Begin(store), userId, action, key);
    AllowedColumns(cmd, result);
    FirstMatchAppend(Run(cmd.work, Begin(store)).at.store.audit, AllowedEvent(cmd, result), userId, action, key);
  }

  /** A null result blocks its key for good: the lookup reads the oldest event only. */
  lemma {:induction false} NullResultNeverReplays(store: Store, steps: seq<Step>, userId: string, action: string, key: string)
    requires FirstMatch(store.audit, userId, action, key).Some? && StoredResult(store.audit, userId, action, key).None?
    ensures FirstMatch(After(store, steps).audit, userId, action, key) == FirstMatch(store.audit, userId, action, key)
    ensures StoredResult(After(store, steps).audit, userId, action, key).None?
  {
    if steps != [] {
      var n := |steps| - 1;
      var before := After(store, steps[..n]);
      NullResultNeverReplays(store, steps[..n], userId, action, key);
      match steps[n]
      case Deny(actor, act, fields) =>
        FirstMatchAppend(before.audit, EventFor(actor, act, "DENIED", fields), userId, action, key);
      case Attempt(cmd) =>
        if PriorResult(before, cmd).None? && Finishes(before, cmd) {
          WorkNeverMatches(cmd.work, Begin(before), userId, action, key);
          FirstMatchAppend(Run(cmd.work, Begin(before)).at.store.audit, AllowedEvent(cmd, ResultOf(before, cmd)), userId, action, key);
        }
    }
  }

  /** Concretely: a keyed command with a null result performs again on its retry, and its row is there twice. */
  lemma NullResultPerformsTwice(actor: Actor)
    ensures var work := Statement((t: Tables) => Some(t["article" := (if "article" in t then t["article"] else []) + ["row"]]));
            var cmd := Command(actor, "create", Some("k"), work, (_: Tables) => CommandResult(JsonNull, AuditFields(None, None, None, None, None)));
            var (first, reply) := Execute(Store(map[], []), cmd);
            var (second, again) := Execute(first, cmd);
            reply == again == Success(false, JsonNull) && second.tables == map["article" := ["row", "row"]]
  {
    var work := Statement((t: Tables) => Some(t["article" := (if "article" in t then t["article"] else []) + ["row"]]));
    var cmd := Command(actor, "create", Some("k"), work, (_: Tables) => CommandResult(JsonNull, AuditFields(None, None, None, None, None)));
    var start := Store(map[], []);
    assert [] + ["row"] == ["row"];
    assert Run(work, Begin(start)) == Done(Begin(Store(map["article" := ["row"]], [])));
    ReplayableIffNotNull(start, cmd);
    var first := Execute(start, cmd).0;
    assert ["row"] + ["row"] == ["row", "row"];
    assert Execute(first, cmd) == PerformOnce(first, cmd);
  }

  /** The reserved field, concretely: an unkeyed command that carries it answers someone's first try. */
  lemma ReservedFieldForgesReplay()
    ensures exists forger: Command, victim: Command, store: Store ::
              && !forger.Keyed() && victim.Keyed() && store.audit == []
              && Execute(Execute(store, forger).0, victim).1 == Success(true, JsonString("forged"))
  {
    var actor := Actor("u", "o");
    var bag: Metadata := map["idempotencyKey" := JsonString("k")];
    var fields := AuditFields(None, None, None, None, Some(bag));
    var idle := Statement((t: Tables) => Some(t));
    var forger := Command(actor, "a", None, idle, (t: Tables) => CommandResult(JsonString("forged"), fields));
    var victim := Command(actor, "a", Some("k"), idle, (t: Tables) => CommandResult(JsonString("own"), fields));
    var store := Store(map[], []);
    var after := Execute(store, forger).0;
    var e := AllowedEvent(forger, CommandResult(JsonString("forged"), fields));
    assert after.audit == [e];
    assert Matches(e, "u", "a", "k");
    assert Execute(after, victim).1 == Success(true, JsonString("forged"));
  }
}
