/**
 * The per-call request pipeline of the account daemon, as a pure
 * specification: for one request and the results its collaborators give
 * (privilege lookups, store opens, unmarshalling, the store operation,
 * marshalling, store closes), the exact sequence of collaborator calls a
 * handler makes and the one reply it sends
 * (server/src/account-server.c:237-2382).
 */
module Dispatch {
  import opened Wrappers
  import opened Errors
  import opened Privilege

  /** A record as the store and the wire carry it; its fields are not modelled. */
  type Row = string

  /** The record `create_empty_account_instance` allocates, before the store fills it. */
  const EmptyRecord: Row := ""

  /** One inbound D-Bus call: the method and its arguments. */
  datatype Request =
    | AccountAdd(accountData: Row, uid: int)
    | AccountQueryAll(uid: int)
    | AccountTypeQueryAll(uid: int)
    | AccountTypeAdd(accountTypeData: Row, uid: int)
    | AccountDeleteById(accountId: int, uid: int)
    | AccountDeleteByUserName(userName: string, packageName: string, uid: int)
    | AccountDeleteByPackageName(packageName: string, permission: bool, uid: int)
    | AccountUpdateById(accountData: Row, accountId: int, uid: int)
    | AccountUpdateByUserName(accountData: Row, userName: string, packageName: string, uid: int)
    | TypeQueryLabelByLocale(appId: string, locale: string, uid: int)
    | TypeQueryByProviderFeature(key: string, uid: int)
    | AccountGetTotalCount(includeHidden: bool, uid: int)
    | AccountQueryById(accountId: int, uid: int)
    | AccountQueryByUserName(userName: string, uid: int)
    | AccountQueryByPackageName(packageName: string, uid: int)
    | AccountQueryByCapability(capabilityType: string, capabilityValue: int, uid: int)
    | AccountQueryByCapabilityType(capabilityType: string, uid: int)
    | CapabilityQueryByAccountId(accountId: int, uid: int)
    | AccountUpdateSyncStatus(accountId: int, syncStatus: int, uid: int)
    | TypeQueryProviderFeatureByAppId(appId: string, uid: int)
    | TypeQuerySupportedFeature(appId: string, capability: string, uid: int)
    | TypeUpdateByAppId(accountTypeData: Row, appId: string, uid: int)
    | TypeDeleteByAppId(appId: string, uid: int)
    | TypeQueryLabelByAppId(appId: string, uid: int)
    | TypeQueryByAppId(appId: string, uid: int)
    | TypeQueryAppIdExist(appId: string, uid: int)
    | AccountUpdateByIdEx(accountData: Row, accountId: int, uid: int)

  /**
   * One call into the store layer, with the arguments the handler passes.
   * The store's own behaviour is not modelled: its answer is an input.
   */
  datatype StoreOp =
    | InsertAccount(account: Row, pid: int, uid: int)
    | QueryAllAccounts(pid: int, uid: int)
    | QueryAllTypes
    | InsertAccountType(accountType: Row, uid: int)
    | DeleteAccount(pid: int, uid: int, accountId: int)
    | DeleteByUserName(pid: int, uid: int, userName: string, packageName: string)
    | DeleteByPackageName(packageName: string, permission: bool, pid: int, uid: int)
    | UpdateById(pid: int, uid: int, account: Row, accountId: int)
    | UpdateByUserName(pid: int, uid: int, account: Row, userName: string, packageName: string)
    | QueryLabelByLocale(appId: string, locale: string)
    | QueryTypesByProviderFeature(key: string)
    | GetTotalCount(includeHidden: bool)
    | QueryAccountById(pid: int, uid: int, accountId: int)
    | QueryByUserName(pid: int, uid: int, userName: string)
    | QueryByPackageName(packageName: string, pid: int, uid: int)
    | QueryByCapability(pid: int, uid: int, capabilityType: string, capabilityValue: int)
    | QueryByCapabilityType(pid: int, uid: int, capabilityType: string)
    | CapabilitiesByAccountId(accountId: int)
    | UpdateSyncStatus(uid: int, accountId: int, syncStatus: int)
    | ProviderFeaturesByAppId(appId: string)
    | SupportedFeature(appId: string, capability: string)
    | UpdateTypeByAppId(typeRecord: Option<Row>, appId: string)
    | DeleteTypeByAppId(appId: string)
    | LabelsByAppId(appId: string)
    | TypeByAppId(appId: string)
    | AppIdExist(appId: string)
    | UpdateByIdEx(account: Row, accountId: int)

  /**
   * What the store operation gives back: its return code (returned or set
   * through a `&return_code` argument), an integer out-value (new id, count,
   * "is supported"), a single record (label text, account type, the filled
   * account; None is NULL) and a list (a GLib list is NULL exactly when it
   * is empty, so NULL is `[]`). Each handler reads the parts its call has.
   */
  datatype StoreAnswer = StoreAnswer(code: ErrorCode, value: int, item: Option<Row>, rows: seq<Row>)

  /** The results the collaborators give during one call. */
  datatype Env = Env(
    pid: int,                   // _get_client_pid
    readProbe: Probe,           // credential lookups during the read check
    writeProbe: Probe,          // credential lookups during the write check
    engine: PolicyEngine,       // cynara_check
    dbOpen: ErrorCode,          // _account_db_open
    globalOpen: ErrorCode,      // _account_global_db_open
    recordOk: bool,             // umarshal_account(_type) / create_empty_account_instance gave non-NULL
    answer: StoreAnswer,        // the store operation
    marshalOk: bool             // marshal_* / *_to_variant gave non-NULL
  )

  /**
   * What the two closes after `RETURN:` return. They run after the reply is
   * sent, so they are kept apart from the results that can shape it.
   */
  datatype Closes = Closes(db: ErrorCode, global: ErrorCode)

  /** A marshalled reply value. */
  datatype Value = Rows(rows: seq<Row>) | Record(row: Row)

  /** The out-arguments of a success reply. */
  datatype Payload =
    | Unit
    | Int(n: int)                  // new id, count, "is supported"
    | Text(text: Option<Row>)      // label name
    | Variant(v: Option<Value>)    // a GVariant; None is NULL

  /**
   * The one reply an invocation gets: an error carrying a code
   * (g_dbus_method_invocation_return_gerror), or the success reply built by
   * `account_manager_complete_<method>`.
   */
  datatype Reply = Error(code: ErrorCode) | Complete(completion: string, payload: Payload)

  /** One collaborator call made by a handler, in the order made. */
  datatype Event =
    | CallActive                                          // lifecycle_method_call_active
    | PrivilegeChecked(privilege: string, result: ErrorCode)
    | DbOpened(mode: int, pid: int, uid: int, result: ErrorCode)
    | GlobalDbOpened(result: ErrorCode)
    | RecordBuilt(ok: bool)                               // unmarshal, or the empty account instance
    | StoreCalled(op: StoreOp)
    | Replied(reply: Reply)
    | DbClosed(result: ErrorCode)
    | GlobalDbClosed(result: ErrorCode)
    | CallInactive                                        // lifecycle_method_call_inactive

  type Trace = seq<Event>

  /** The events a handler makes between the lifecycle bracket and the reply. */
  predicate IsStep(e: Event) {
    e.PrivilegeChecked? || e.DbOpened? || e.GlobalDbOpened? || e.RecordBuilt? || e.StoreCalled?
  }

  predicate AllSteps(t: Trace) {
    forall i :: 0 <= i < |t| ==> IsStep(t[i])
  }

  // ---------------------------------------------------------------------
  // The privilege checks and the two opens
  // ---------------------------------------------------------------------

  /** Handlers that change the store, and so check the write privilege too. */
  predicate Mutating(req: Request) {
    || req.AccountAdd? || req.AccountTypeAdd? || req.AccountDeleteById?
    || req.AccountDeleteByUserName? || req.AccountDeleteByPackageName?
    || req.AccountUpdateById? || req.AccountUpdateByUserName?
    || req.AccountUpdateSyncStatus? || req.TypeUpdateByAppId?
    || req.TypeDeleteByAppId? || req.AccountUpdateByIdEx?
  }

  /** Which privilege checks a handler runs. */
  datatype Gate = ReadOnly | ReadWrite | NoCheck

  /**
   * Only the package-name delete can skip the checks, when its `permission`
   * flag is unset; the handlers that do not change the store check read alone.
   */
  function GateOf(req: Request): (g: Gate)
    ensures g == NoCheck <==> req.AccountDeleteByPackageName? && !req.permission
    ensures g == ReadOnly <==> !Mutating(req)
  {
    if req.AccountDeleteByPackageName? then (if req.permission then ReadWrite else NoCheck)
    else if Mutating(req) then ReadWrite
    else ReadOnly
  }

  /** The mode `_account_db_open` is called with: 1 (write) for mutating handlers, 0 (read) otherwise. */
  function OpenMode(req: Request): (mode: int)
    ensures mode == 0 || mode == 1
    ensures mode == 1 <==> GateOf(req) != ReadOnly
  {
    if Mutating(req) then 1 else 0
  }

  /** The events of a prefix of the handler and the `return_code` it leaves. */
  datatype Stage = Stage(events: Trace, code: ErrorCode)

  /** How many privilege checks a gate makes when each of them passes. */
  function Checks(gate: Gate): nat {
    match gate
    case NoCheck => 0
    case ReadOnly => 1
    case ReadWrite => 2
  }

  /**
   * The privilege checks; a failed read check skips the write check. The
   * gate passes exactly when it made all its checks and every one passed.
   */
  function CheckGate(gate: Gate, env: Env): (s: Stage)
    ensures AllSteps(s.events)
    ensures forall i :: 0 <= i < |s.events| ==> s.events[i].PrivilegeChecked?
    ensures s.code == NoError || s.code == PermissionDenied
    ensures s.events != [] ==> s.events[0] == PrivilegeChecked(AccountRead, CheckRead(env.readProbe, env.engine))
    ensures s.code == NoError <==>
      |s.events| == Checks(gate) && forall i :: 0 <= i < |s.events| ==> s.events[i].result == NoError
  {
    match gate
    case NoCheck => Stage([], NoError)
    case ReadOnly =>
      var r := CheckRead(env.readProbe, env.engine);
      Stage([PrivilegeChecked(AccountRead, r)], r)
    case ReadWrite =>
      var r := CheckRead(env.readProbe, env.engine);
      if r != NoError then Stage([PrivilegeChecked(AccountRead, r)], r)
      else
        var w := CheckWrite(env.writeProbe, env.engine);
        var t := [PrivilegeChecked(AccountRead, r), PrivilegeChecked(AccountWrite, w)];
        assert t[0].result == NoError && t[1].result == w;
        Stage(t, w)
  }

  /** The checks, then `_account_db_open(mode, pid, uid)`, then `_account_global_db_open()`. */
  function Prepare(req: Request, env: Env): (s: Stage)
    ensures AllSteps(s.events)
    ensures forall i :: 0 <= i < |s.events| ==> !s.events[i].RecordBuilt? && !s.events[i].StoreCalled?
  {
    var g := CheckGate(GateOf(req), env);
    if g.code != NoError then g
    else
      var withDb := g.events + [DbOpened(OpenMode(req), env.pid, req.uid, env.dbOpen)];
      if env.dbOpen != NoError then Stage(withDb, env.dbOpen)
      else Stage(withDb + [GlobalDbOpened(env.globalOpen)], env.globalOpen)
  }

  // ---------------------------------------------------------------------
  // The handler bodies, from the store call to the RETURN label
  // ---------------------------------------------------------------------

  /** The handler's state when control reaches `RETURN:`. */
  datatype AtReturn = AtReturn(events: Trace, code: ErrorCode, variant: Option<Value>, result: Payload)

  /** `marshal_*` / `*_to_variant`: the value, or NULL when marshalling fails. */
  function Marshal(v: Value, env: Env): (o: Option<Value>)
    ensures o.Some? <==> env.marshalOk
    ensures o.Some? ==> o.value == v
  {
    if env.marshalOk then Some(v) else None
  }

  /** A store call whose return code becomes `return_code`; nothing is marshalled. */
  function Call(op: StoreOp, env: Env, result: Payload): (r: AtReturn)
    ensures r.events == [StoreCalled(op)] && r.code == env.answer.code && r.variant.None?
  {
    AtReturn([StoreCalled(op)], env.answer.code, None, result)
  }

  /** Unmarshal the request record; on NULL set `failure` and skip the store call. */
  function Unmarshalled(op: StoreOp, env: Env, failure: ErrorCode, result: Payload): (r: AtReturn)
    ensures StoreCalled(op) in r.events <==> env.recordOk
    ensures |r.events| >= 1 && r.events[0] == RecordBuilt(env.recordOk)
    ensures !env.recordOk ==> r.code == failure
    ensures env.recordOk ==> r.code == env.answer.code
    ensures r.variant.None?
  {
    if !env.recordOk then AtReturn([RecordBuilt(false)], failure, None, result)
    else AtReturn([RecordBuilt(true), StoreCalled(op)], env.answer.code, None, result)
  }

  /**
   * A list query: an empty (NULL) list sets RecordNotFound; otherwise the
   * list is marshalled and `return_code` is `success`.
   */
  function ListQuery(op: StoreOp, env: Env, success: ErrorCode): (r: AtReturn)
    ensures r.events == [StoreCalled(op)]
    ensures r.variant.Some? <==> env.answer.rows != [] && env.marshalOk
    ensures r.variant.Some? ==> r.variant.value == Rows(env.answer.rows)
    ensures r.code == if env.answer.rows == [] then RecordNotFound else success
    ensures r.result == Variant(r.variant)
  {
    if env.answer.rows == [] then AtReturn([StoreCalled(op)], RecordNotFound, None, Variant(None))
    else
      var v := Marshal(Rows(env.answer.rows), env);
      AtReturn([StoreCalled(op)], success, v, Variant(v))
  }

  /** What the handler does once the checks and both opens have succeeded. */
  function Body(req: Request, env: Env): (r: AtReturn)
    ensures AllSteps(r.events)
  {
    var pid, a := env.pid, env.answer;
    match req
    case AccountAdd(data, uid) =>
      Unmarshalled(InsertAccount(data, pid, uid), env, DbFailed, Int(a.value))
    case AccountQueryAll(uid) =>
      ListQuery(QueryAllAccounts(pid, uid), env, NoError)
    case AccountTypeQueryAll(uid) =>
      ListQuery(QueryAllTypes, env, NoError)
    case AccountTypeAdd(data, uid) =>
      Unmarshalled(InsertAccountType(data, uid), env, DbFailed, Int(a.value))
    case AccountDeleteById(id, uid) =>
      Call(DeleteAccount(pid, uid, id), env, Unit)
    case AccountDeleteByUserName(user, pkg, uid) =>
      Call(DeleteByUserName(pid, uid, user, pkg), env, Unit)
    case AccountDeleteByPackageName(pkg, permission, uid) =>
      Call(DeleteByPackageName(pkg, permission, pid, uid), env, Unit)
    case AccountUpdateById(data, id, uid) =>
      Unmarshalled(UpdateById(pid, uid, data, id), env, DbFailed, Unit)
    case AccountUpdateByUserName(data, user, pkg, uid) =>
      Unmarshalled(UpdateByUserName(pid, uid, data, user, pkg), env, DbFailed, Unit)
    case TypeQueryLabelByLocale(appId, locale, uid) =>
      Call(QueryLabelByLocale(appId, locale), env, Text(a.item))
    case TypeQueryByProviderFeature(key, uid) =>
      var op := QueryTypesByProviderFeature(key);
      if a.code != NoError then AtReturn([StoreCalled(op)], a.code, None, Variant(None))
      else ListQuery(op, env, NoError)
    case AccountGetTotalCount(hidden, uid) =>
      Call(GetTotalCount(hidden), env, Int(a.value))
    case AccountQueryById(id, uid) =>
      if !env.recordOk then AtReturn([RecordBuilt(false)], DbFailed, None, Variant(None))
      else
        var v := if a.code == NoError then Marshal(Record(a.item.GetOr(EmptyRecord)), env) else None;
        AtReturn([RecordBuilt(true), StoreCalled(QueryAccountById(pid, uid, id))], a.code, v, Variant(v))
    case AccountQueryByUserName(user, uid) =>
      ListQuery(QueryByUserName(pid, uid, user), env, a.code)
    case AccountQueryByPackageName(pkg, uid) =>
      ListQuery(QueryByPackageName(pkg, pid, uid), env, a.code)
    case AccountQueryByCapability(capType, capValue, uid) =>
      ListQuery(QueryByCapability(pid, uid, capType, capValue), env, a.code)
    case AccountQueryByCapabilityType(capType, uid) =>
      ListQuery(QueryByCapabilityType(pid, uid, capType), env, a.code)
    case CapabilityQueryByAccountId(id, uid) =>
      ListQuery(CapabilitiesByAccountId(id), env, a.code)
    case AccountUpdateSyncStatus(id, status, uid) =>
      Call(UpdateSyncStatus(uid, id, status), env, Unit)
    case TypeQueryProviderFeatureByAppId(appId, uid) =>
      ListQuery(ProviderFeaturesByAppId(appId), env, a.code)
    case TypeQuerySupportedFeature(appId, capability, uid) =>
      Call(SupportedFeature(appId, capability), env, Int(a.value))
    case TypeUpdateByAppId(data, appId, uid) =>
      var record := if env.recordOk then Some(data) else None;
      AtReturn([RecordBuilt(env.recordOk), StoreCalled(UpdateTypeByAppId(record, appId))], a.code, None, Unit)
    case TypeDeleteByAppId(appId, uid) =>
      Call(DeleteTypeByAppId(appId), env, Unit)
    case TypeQueryLabelByAppId(appId, uid) =>
      var op := LabelsByAppId(appId);
      if a.code != NoError then AtReturn([StoreCalled(op)], a.code, None, Variant(None))
      else
        var v := Marshal(Rows(a.rows), env);
        AtReturn([StoreCalled(op)], NoError, v, Variant(v))
    case TypeQueryByAppId(appId, uid) =>
      var op := TypeByAppId(appId);
      if a.code != NoError then AtReturn([StoreCalled(op)], a.code, None, Variant(None))
      else if a.item.None? then AtReturn([StoreCalled(op)], RecordNotFound, None, Variant(None))
      else
        var v := Marshal(Record(a.item.value), env);
        AtReturn([StoreCalled(op)], NoError, v, Variant(v))
    case TypeQueryAppIdExist(appId, uid) =>
      Call(AppIdExist(appId), env, Unit)
    case AccountUpdateByIdEx(data, id, uid) =>
      Unmarshalled(UpdateByIdEx(data, id), env, InvalidParameter, Unit)
  }

  /**
   * The out-values a handler starts with (`db_id = -1`, `count = -1`,
   * `is_supported = 0`, NULL). They are never observable: a handler keeps
   * them only when a check or an open failed, and then its reply is an error.
   */
  function Initial(req: Request): Payload {
    match req
    case AccountAdd(_, _) => Int(-1)
    case AccountTypeAdd(_, _) => Int(-1)
    case AccountGetTotalCount(_, _) => Int(-1)
    case TypeQuerySupportedFeature(_, _, _) => Int(0)
    case TypeQueryLabelByLocale(_, _, _) => Text(None)
    case _ => if Mutating(req) || req.TypeQueryAppIdExist? then Unit else Variant(None)
  }

  /** The state at `RETURN:`, whether reached by a `goto` or by falling through. */
  function ReachReturn(req: Request, env: Env): (r: AtReturn)
    ensures AllSteps(r.events)
  {
    var s := Prepare(req, env);
    if s.code != NoError then AtReturn(s.events, s.code, None, Initial(req))
    else
      var b := Body(req, env);
      AtReturn(s.events + b.events, b.code, b.variant, b.result)
  }

  // ---------------------------------------------------------------------
  // Choosing the reply
  // ---------------------------------------------------------------------

  /** How the code after `RETURN:` chooses between the error and the success reply. */
  datatype ReplyRule =
    | ByCode           // return_code != NONE ? error(return_code) : success
    | ByVariant        // variant == NULL ? error(return_code) : success(variant)
    | ByVariantFixed   // variant == NULL ? error(RECORD_NOT_FOUND) : success(variant)
    | ByVariantOrCode  // variant == NULL || return_code != NONE ? error(return_code) : success(variant)

  /**
   * The test each handler's `RETURN:` block makes. Every handler that changes
   * the store replies by `return_code`; the list and record queries test
   * the marshalled variant.
   */
  function RuleOf(req: Request): (rule: ReplyRule)
    ensures rule != ByCode ==> !Mutating(req) && GateOf(req) == ReadOnly
  {
    match req
    case AccountQueryAll(_) => ByVariant
    case AccountTypeQueryAll(_) => ByVariant
    case AccountQueryByPackageName(_, _) => ByVariant
    case TypeQueryByProviderFeature(_, _) => ByVariantFixed
    case AccountQueryByUserName(_, _) => ByVariantFixed
    case AccountQueryByCapability(_, _, _) => ByVariantFixed
    case AccountQueryByCapabilityType(_, _) => ByVariantFixed
    case CapabilityQueryByAccountId(_, _) => ByVariantFixed
    case AccountQueryById(_, _) => ByVariantOrCode
    case _ => ByCode
  }

  /** The three handlers that reply through another method's completion function. */
  predicate Borrows(req: Request) {
    req.AccountDeleteByUserName? || req.AccountUpdateByUserName? || req.AccountQueryByCapabilityType?
  }

  /**
   * The D-Bus method whose `account_manager_complete_*` function builds the
   * success reply: the handler's own method, except for the three handlers
   * that complete as another one.
   */
  function Completion(req: Request): string {
    match req
    case AccountDeleteByUserName(_, _, uid) => MethodName(AccountDeleteById(0, uid))
    case AccountUpdateByUserName(data, _, _, uid) => MethodName(AccountUpdateById(data, 0, uid))
    case AccountQueryByCapabilityType(capabilityType, uid) => MethodName(AccountQueryByCapability(capabilityType, 0, uid))
    case _ => MethodName(req)
  }

  /** The D-Bus method a handler serves. */
  function MethodName(req: Request): string {
    match req
    case AccountAdd(_, _) => "account_add"
    case AccountQueryAll(_) => "account_query_all"
    case AccountTypeQueryAll(_) => "account_type_query_all"
    case AccountTypeAdd(_, _) => "account_type_add"
    case AccountDeleteById(_, _) => "account_delete_from_db_by_id"
    case AccountDeleteByUserName(_, _, _) => "account_delete_from_db_by_user_name"
    case AccountDeleteByPackageName(_, _, _) => "account_delete_from_db_by_package_name"
    case AccountUpdateById(_, _, _) => "account_update_to_db_by_id"
    case AccountUpdateByUserName(_, _, _, _) => "account_update_to_db_by_user_name"
    case TypeQueryLabelByLocale(_, _, _) => "account_type_query_label_by_locale"
    case TypeQueryByProviderFeature(_, _) => "account_type_query_by_provider_feature"
    case AccountGetTotalCount(_, _) => "account_get_total_count_from_db"
    case AccountQueryById(_, _) => "account_query_account_by_account_id"
    case AccountQueryByUserName(_, _) => "account_query_account_by_user_name"
    case AccountQueryByPackageName(_, _) => "account_query_account_by_package_name"
    case AccountQueryByCapability(_, _, _) => "account_query_account_by_capability"
    case AccountQueryByCapabilityType(_, _) => "account_query_account_by_capability_type"
    case CapabilityQueryByAccountId(_, _) => "account_query_capability_by_account_id"
    case AccountUpdateSyncStatus(_, _, _) => "account_update_sync_status_by_id"
    case TypeQueryProviderFeatureByAppId(_, _) => "account_type_query_provider_feature_by_app_id"
    case TypeQuerySupportedFeature(_, _, _) => "account_type_query_supported_feature"
    case TypeUpdateByAppId(_, _, _) => "account_type_update_to_db_by_app_id"
    case TypeDeleteByAppId(_, _) => "account_type_delete_by_app_id"
    case TypeQueryLabelByAppId(_, _) => "account_type_query_label_by_app_id"
    case TypeQueryByAppId(_, _) => "account_type_query_by_app_id"
    case TypeQueryAppIdExist(_, _) => "account_type_query_app_id_exist"
    case AccountUpdateByIdEx(_, _, _) => "account_update_to_db_by_id_ex"
  }

  /**
   * The reply chosen after `RETURN:` from the handler's variables. A success
   * names the given completion; a code with no marshalled value is always an
   * error; a success chosen by the variant carries that variant.
   */
  function Select(rule: ReplyRule, name: string, r: AtReturn): (reply: Reply)
    ensures reply.Complete? ==> reply.completion == name
    ensures r.code != NoError && r.variant.None? ==> reply.Error?
    ensures reply.Complete? && rule != ByCode ==> r.variant.Some? && reply.payload == Variant(r.variant)
    ensures reply.Complete? && rule == ByCode ==> r.code == NoError && reply.payload == r.result
  {
    match rule
    case ByCode => if r.code != NoError then Error(r.code) else Complete(name, r.result)
    case ByVariant => if r.variant.None? then Error(r.code) else Complete(name, Variant(r.variant))
    case ByVariantFixed => if r.variant.None? then Error(RecordNotFound) else Complete(name, Variant(r.variant))
    case ByVariantOrCode =>
      if r.variant.None? || r.code != NoError then Error(r.code) else Complete(name, Variant(r.variant))
  }

  /** The one reply the handler sends for `req`. */
  function ReplyOf(req: Request, env: Env): Reply {
    Select(RuleOf(req), Completion(req), ReachReturn(req, env))
  }

  /**
   * Every collaborator call of one handler run: lifecycle entry, the steps
   * up to `RETURN:`, the reply, the two closes (whatever they return), and
   * lifecycle exit.
   */
  function Run(req: Request, env: Env, closes: Closes): Trace {
    [CallActive] + ReachReturn(req, env).events + Closing(ReplyOf(req, env), closes)
  }

  /** The steps up to `RETURN:` appended to a log: the checks and opens, then the body if they passed. */
  lemma AppendReach(log: Trace, req: Request, env: Env)
    ensures log + ReachReturn(req, env).events ==
      if Prepare(req, env).code != NoError then log + Prepare(req, env).events
      else log + Prepare(req, env).events + Body(req, env).events
  {
  }

  /** A run appended to a log, as the handler builds it: entry, the steps, then the code after `RETURN:`. */
  lemma AppendRun(log: Trace, req: Request, env: Env, closes: Closes)
    ensures log + Run(req, env, closes) ==
      log + [CallActive] + ReachReturn(req, env).events + Closing(ReplyOf(req, env), closes)
  {
    Associate(log, [CallActive], ReachReturn(req, env).events, Closing(ReplyOf(req, env), closes));
  }

  lemma Associate(a: Trace, b: Trace, c: Trace, d: Trace)
    ensures a + (b + c + d) == a + b + c + d
  {
  }

  /** The code after `RETURN:`: the reply, the two closes (whatever they return), lifecycle exit. */
  function Closing(reply: Reply, closes: Closes): Trace {
    [Replied(reply), DbClosed(closes.db), GlobalDbClosed(closes.global), CallInactive]
  }
}
