/**
 * The account manager's D-Bus handlers as methods of one object whose
 * state is what the handlers change outside themselves: the lifecycle
 * monitor's count of calls in progress and the log of every collaborator
 * call (privilege checks, store opens, unmarshalling, store operations, the
 * reply, store closes) (server/src/account-server.c:237-2382). Each handler
 * is proved to make exactly the calls `Dispatch.Run` specifies, in that
 * order, and to leave the in-flight count as it found it.
 *
 * Every handler has the same shape: enter the lifecycle, run the checks and
 * opens (`CheckAndOpen`), then its own body with `goto RETURN` modelled by
 * `if code == NoError` guards, then the code after `RETURN:` (`Finish`).
 */
module Server {
  import opened Wrappers
  import opened Errors
  import opened Privilege
  import opened Dispatch

  class AccountManager {
    /** The lifecycle monitor's count of calls in progress. */
    var inFlight: int
    /** Every collaborator call made so far, in order. */
    var log: Trace

    constructor ()
      ensures inFlight == 0 && log == []
    {
      inFlight, log := 0, [];
    }

    // -------------------------------------------------------------------
    // Collaborators: each records its call; its result is an input
    // -------------------------------------------------------------------

    /** `lifecycle_method_call_active` */
    method MethodCallActive()
      modifies this
      ensures inFlight == old(inFlight) + 1 && log == old(log) + [CallActive]
    {
      inFlight := inFlight + 1;
      log := log + [CallActive];
    }

    /** `lifecycle_method_call_inactive` */
    method MethodCallInactive()
      modifies this
      ensures inFlight == old(inFlight) - 1 && log == old(log) + [CallInactive]
    {
      inFlight := inFlight - 1;
      log := log + [CallInactive];
    }

    /** `_check_privilege`, on the credentials `p` and the policy engine's answers. */
    method Check(p: Probe, engine: PolicyEngine, privilege: string) returns (code: ErrorCode)
      modifies this
      ensures code == CheckPrivilege(p, engine, privilege)
      ensures inFlight == old(inFlight) && log == old(log) + [PrivilegeChecked(privilege, code)]
    {
      code := CheckPrivilege(p, engine, privilege);
      log := log + [PrivilegeChecked(privilege, code)];
    }

    /** `_check_priviliege_account_read`, then `_check_priviliege_account_write` if the read check passed. */
    method CheckReadWrite(env: Env) returns (code: ErrorCode)
      modifies this
      ensures code == CheckGate(ReadWrite, env).code
      ensures inFlight == old(inFlight) && log == old(log) + CheckGate(ReadWrite, env).events
    {
      code := Check(env.readProbe, env.engine, AccountRead);
      if code != NoError {
        return;
      }
      code := Check(env.writeProbe, env.engine, AccountWrite);
    }

    /** `_check_priviliege_account_read` alone. */
    method CheckReadOnly(env: Env) returns (code: ErrorCode)
      modifies this
      ensures code == CheckGate(ReadOnly, env).code
      ensures inFlight == old(inFlight) && log == old(log) + CheckGate(ReadOnly, env).events
    {
      code := Check(env.readProbe, env.engine, AccountRead);
    }

    /** `_account_db_open(mode, pid, uid)`, then `_account_global_db_open()` if the first succeeded. */
    method OpenStores(mode: int, env: Env, uid: int) returns (code: ErrorCode)
      modifies this
      ensures code == (if env.dbOpen != NoError then env.dbOpen else env.globalOpen)
      ensures inFlight == old(inFlight)
      ensures log == old(log) + [DbOpened(mode, env.pid, uid, env.dbOpen)]
                  + (if env.dbOpen != NoError then [] else [GlobalDbOpened(env.globalOpen)])
    {
      code := env.dbOpen;
      log := log + [DbOpened(mode, env.pid, uid, code)];
      if code != NoError {
        return;
      }
      code := env.globalOpen;
      log := log + [GlobalDbOpened(code)];
    }

    /**
     * The prefix every handler shares: the privilege checks its request
     * calls for (none for a package-name delete without `permission`), then
     * the two opens, each step skipped once one has failed.
     */
    method CheckAndOpen(req: Request, env: Env) returns (code: ErrorCode)
      modifies this
      ensures code == Prepare(req, env).code
      ensures inFlight == old(inFlight) && log == old(log) + Prepare(req, env).events
    {
      match GateOf(req) {
        case ReadWrite => code := CheckReadWrite(env);
        case ReadOnly => code := CheckReadOnly(env);
        case NoCheck => code := NoError;
      }
      if code == NoError {
        code := OpenStores(OpenMode(req), env, req.uid);
      }
    }

    /** `umarshal_account`, `umarshal_account_type` or `create_empty_account_instance`; NULL is None. */
    method BuildRecord(data: Row, ok: bool) returns (record: Option<Row>)
      modifies this
      ensures record == (if ok then Some(data) else None)
      ensures inFlight == old(inFlight) && log == old(log) + [RecordBuilt(ok)]
    {
      record := if ok then Some(data) else None;
      log := log + [RecordBuilt(ok)];
    }

    /** One store operation; the store's answer is the input `answer`. */
    method Store(op: StoreOp, answer: StoreAnswer) returns (a: StoreAnswer)
      modifies this
      ensures a == answer
      ensures inFlight == old(inFlight) && log == old(log) + [StoreCalled(op)]
    {
      a := answer;
      log := log + [StoreCalled(op)];
    }

    /**
     * The code after `RETURN:` once the reply is chosen: send it, close the
     * per-uid store and the global store (a failure of either is only logged
     * and `return_code` is reset to NONE), and leave the lifecycle.
     */
    method Finish(reply: Reply, closes: Closes)
      modifies this
      ensures inFlight == old(inFlight) - 1 && log == old(log) + Closing(reply, closes)
    {
      log := log + [Replied(reply)];
      var code := closes.db;
      log := log + [DbClosed(code)];
      if code != NoError {
        code := NoError;
      }
      code := closes.global;
      log := log + [GlobalDbClosed(code)];
      if code != NoError {
        code := NoError;
      }
      MethodCallInactive();
    }

    // -------------------------------------------------------------------
    // The handlers, in the order of server/src/account-server.c
    // -------------------------------------------------------------------

    /** `account_manager_account_add` (server/src/account-server.c:237-315) */
    method AccountAdd(env: Env, closes: Closes, accountData: Row, uid: int)
      modifies this
      ensures inFlight == old(inFlight)
      ensures log == old(log) + Run(Request.AccountAdd(accountData, uid), env, closes)
    {
      var req := Request.AccountAdd(accountData, uid);
      ghost var log0 := log;
      MethodCallActive();
      var dbId := -1;
      var code := CheckAndOpen(req, env);
      ghost var prepared := log;
      if code == NoError {
        var account := BuildRecord(accountData, env.recordOk);
        if account.None? {
          code := DbFailed;
        } else {
          var a := Store(InsertAccount(account.value, env.pid, uid), env.answer);
          code, dbId := a.code, a.value;
        }
        assert log == prepared + Body(req, env).events;
      }
      assert code == ReachReturn(req, env).code;
      AppendReach(log0 + [CallActive], req, env);
      var reply := if code != NoError then Error(code) else Complete(Completion(req), Int(dbId));
      assert RuleOf(req) == ByCode;
      assert reply == ReplyOf(req, env);
      Finish(reply, closes);
      AppendRun(log0, req, env, closes);
    }

    /** `account_manager_account_query_all` (server/src/account-server.c:317-391) */
    method AccountQueryAll(env: Env, closes: Closes, uid: int)
      modifies this
      ensures inFlight == old(inFlight)
      ensures log == old(log) + Run(Request.AccountQueryAll(uid), env, closes)
    {
      var req := Request.AccountQueryAll(uid);
      ghost var log0 := log;
      MethodCallActive();
      var variant: Option<Value> := None;
      var code := CheckAndOpen(req, env);
      ghost var prepared := log;
      if code == NoError {
        var a := Store(QueryAllAccounts(env.pid, uid), env.answer);
        if a.rows == [] {
          code := RecordNotFound;
        } else {
          code := NoError;
          variant := Marshal(Rows(a.rows), env);
        }
        assert log == prepared + Body(req, env).events;
      }
      assert code == ReachReturn(req, env).code && variant == ReachReturn(req, env).variant;
      AppendReach(log0 + [CallActive], req, env);
      var reply := if variant.None? then Error(code) else Complete(Completion(req), Variant(variant));
      assert RuleOf(req) == ByVariant;
      assert reply == ReplyOf(req, env);
      Finish(reply, closes);
      AppendRun(log0, req, env, closes);
    }

    /** `account_manager_account_type_query_all` (server/src/account-server.c:393-466) */
    method AccountTypeQueryAll(env: Env, closes: Closes, uid: int)
      modifies this
      ensures inFlight == old(inFlight)
      ensures log == old(log) + Run(Request.AccountTypeQueryAll(uid), env, closes)
    {
      var req := Request.AccountTypeQueryAll(uid);
      ghost var log0 := log;
      MethodCallActive();
      var variant: Option<Value> := None;
      var code := CheckAndOpen(req, env);
      ghost var prepared := log;
      if code == NoError {
        var a := Store(QueryAllTypes, env.answer);
        if a.rows == [] {
          code := RecordNotFound;
        } else {
          code := NoError;
          variant := Marshal(Rows(a.rows), env);
        }
        assert log == prepared + Body(req, env).events;
      }
      assert code == ReachReturn(req, env).code && variant == ReachReturn(req, env).variant;
      AppendReach(log0 + [CallActive], req, env);
      var reply := if variant.None? then Error(code) else Complete(Completion(req), Variant(variant));
      assert RuleOf(req) == ByVariant;
      assert reply == ReplyOf(req, env);
      Finish(reply, closes);
      AppendRun(log0, req, env, closes);
    }

    /** `account_manager_account_type_add` (server/src/account-server.c:468-549) */
    method AccountTypeAdd(env: Env, closes: Closes, accountTypeData: Row, uid: int)
      modifies this
      ensures inFlight == old(inFlight)
      ensures log == old(log) + Run(Request.AccountTypeAdd(accountTypeData, uid), env, closes)
    {
      var req := Request.AccountTypeAdd(accountTypeData, uid);
      ghost var log0 := log;
      MethodCallActive();
      var dbId := -1;
      var code := CheckAndOpen(req, env);
      ghost var prepared := log;
      if code == NoError {
        var accountType := BuildRecord(accountTypeData, env.recordOk);
        if accountType.None? {
          code := DbFailed;
        } else {
          var a := Store(InsertAccountType(accountType.value, uid), env.answer);
          code, dbId := a.code, a.value;
        }
        assert log == prepared + Body(req, env).events;
      }
      assert code == ReachReturn(req, env).code;
      AppendReach(log0 + [CallActive], req, env);
      var reply := if code != NoError then Error(code) else Complete(Completion(req), Int(dbId));
      assert RuleOf(req) == ByCode;
      assert reply == ReplyOf(req, env);
      Finish(reply, closes);
      AppendRun(log0, req, env, closes);
    }

    /** `account_manager_account_delete_from_db_by_id` (server/src/account-server.c:551-623) */
    method AccountDeleteById(env: Env, closes: Closes, accountId: int, uid: int)
      modifies this
      ensures inFlight == old(inFlight)
      ensures log == old(log) + Run(Request.AccountDeleteById(accountId, uid), env, closes)
    {
      var req := Request.AccountDeleteById(accountId, uid);
      ghost var log0 := log;
      MethodCallActive();
      var code := CheckAndOpen(req, env);
      ghost var prepared := log;
      if code == NoError {
        var a := Store(DeleteAccount(env.pid, uid, accountId), env.answer);
        code := a.code;
        assert log == prepared + Body(req, env).events;
      }
      assert code == ReachReturn(req, env).code;
      AppendReach(log0 + [CallActive], req, env);
      var reply := if code != NoError then Error(code) else Complete(Completion(req), Unit);
      assert RuleOf(req) == ByCode;
      assert reply == ReplyOf(req, env);
      Finish(reply, closes);
      AppendRun(log0, req, env, closes);
    }

    /**
     * `account_manager_account_delete_from_db_by_user_name`
     * (server/src/account-server.c:625-698); it completes with the by-id
     * completion function.
     */
    method AccountDeleteByUserName(env: Env, closes: Closes, userName: string, packageName: string, uid: int)
      modifies this
      ensures inFlight == old(inFlight)
      ensures log == old(log) + Run(Request.AccountDeleteByUserName(userName, packageName, uid), env, closes)
    {
      var req := Request.AccountDeleteByUserName(userName, packageName, uid);
      ghost var log0 := log;
      MethodCallActive();
      var code := CheckAndOpen(req, env);
      ghost var prepared := log;
      if code == NoError {
        var a := Store(DeleteByUserName(env.pid, uid, userName, packageName), env.answer);
        code := a.code;
        assert log == prepared + Body(req, env).events;
      }
      assert code == ReachReturn(req, env).code;
      AppendReach(log0 + [CallActive], req, env);
      var reply := if code != NoError then Error(code) else Complete(Completion(req), Unit);
      assert RuleOf(req) == ByCode;
      assert reply == ReplyOf(req, env);
      Finish(reply, closes);
      AppendRun(log0, req, env, closes);
    }

    /**
     * `account_manager_account_delete_from_db_by_package_name`
     * (server/src/account-server.c:700-777): the privilege checks run only
     * when the caller passes `permission`.
     */
    method AccountDeleteByPackageName(env: Env, closes: Closes, packageName: string, permission: bool, uid: int)
      modifies this
      ensures inFlight == old(inFlight)
      ensures log == old(log) + Run(Request.AccountDeleteByPackageName(packageName, permission, uid), env, closes)
    {
      var req := Request.AccountDeleteByPackageName(packageName, permission, uid);
      ghost var log0 := log;
      MethodCallActive();
      var code := CheckAndOpen(req, env);
      ghost var prepared := log;
      if code == NoError {
        var a := Store(DeleteByPackageName(packageName, permission, env.pid, uid), env.answer);
        code := a.code;
        assert log == prepared + Body(req, env).events;
      }
      assert code == ReachReturn(req, env).code;
      AppendReach(log0 + [CallActive], req, env);
      var reply := if code != NoError then Error(code) else Complete(Completion(req), Unit);
      assert RuleOf(req) == ByCode;
      assert reply == ReplyOf(req, env);
      Finish(reply, closes);
      AppendRun(log0, req, env, closes);
    }

    /** `account_manager_account_update_to_db_by_id` (server/src/account-server.c:779-863) */
    method AccountUpdateById(env: Env, closes: Closes, accountData: Row, accountId: int, uid: int)
      modifies this
      ensures inFlight == old(inFlight)
      ensures log == old(log) + Run(Request.AccountUpdateById(accountData, accountId, uid), env, closes)
    {
      var req := Request.AccountUpdateById(accountData, accountId, uid);
      ghost var log0 := log;
      MethodCallActive();
      var code := CheckAndOpen(req, env);
      ghost var prepared := log;
      if code == NoError {
        var account := BuildRecord(accountData, env.recordOk);
        if account.None? {
          code := DbFailed;
        } else {
          var a := Store(UpdateById(env.pid, uid, account.value, accountId), env.answer);
          code := a.code;
        }
        assert log == prepared + Body(req, env).events;
      }
      assert code == ReachReturn(req, env).code;
      AppendReach(log0 + [CallActive], req, env);
      var reply := if code != NoError then Error(code) else Complete(Completion(req), Unit);
      assert RuleOf(req) == ByCode;
      assert reply == ReplyOf(req, env);
      Finish(reply, closes);
      AppendRun(log0, req, env, closes);
    }

    /**
     * `account_manager_handle_account_update_to_db_by_user_name`
     * (server/src/account-server.c:865-950); it completes with the by-id
     * completion function.
     */
    method AccountUpdateByUserName(env: Env, closes: Closes, accountData: Row, userName: string, packageName: string, uid: int)
      modifies this
      ensures inFlight == old(inFlight)
      ensures log == old(log) + Run(Request.AccountUpdateByUserName(accountData, userName, packageName, uid), env, closes)
    {
      var req := Request.AccountUpdateByUserName(accountData, userName, packageName, uid);
      ghost var log0 := log;
      MethodCallActive();
      var code := CheckAndOpen(req, env);
      ghost var prepared := log;
      if code == NoError {
        var account := BuildRecord(accountData, env.recordOk);
        if account.None? {
          code := DbFailed;
        } else {
          var a := Store(UpdateByUserName(env.pid, uid, account.value, userName, packageName), env.answer);
          code := a.code;
        }
        assert log == prepared + Body(req, env).events;
      }
      assert code == ReachReturn(req, env).code;
      AppendReach(log0 + [CallActive], req, env);
      var reply := if code != NoError then Error(code) else Complete(Completion(req), Unit);
      assert RuleOf(req) == ByCode;
      assert reply == ReplyOf(req, env);
      Finish(reply, closes);
      AppendRun(log0, req, env, closes);
    }

    /** `account_manager_handle_account_type_query_label_by_locale` (server/src/account-server.c:952-1022) */
    method TypeQueryLabelByLocale(env: Env, closes: Closes, appId: string, locale: string, uid: int)
      modifies this
      ensures inFlight == old(inFlight)
      ensures log == old(log) + Run(Request.TypeQueryLabelByLocale(appId, locale, uid), env, closes)
    {
      var req := Request.TypeQueryLabelByLocale(appId, locale, uid);
      ghost var log0 := log;
      MethodCallActive();
      var labelName: Option<Row> := None;
      var code := CheckAndOpen(req, env);
      ghost var prepared := log;
      if code == NoError {
        var a := Store(QueryLabelByLocale(appId, locale), env.answer);
        code, labelName := a.code, a.item;
        assert log == prepared + Body(req, env).events;
      }
      assert code == ReachReturn(req, env).code && Text(labelName) == ReachReturn(req, env).result;
      AppendReach(log0 + [CallActive], req, env);
      var reply := if code != NoError then Error(code)
                   else Complete(Completion(req), Text(labelName));
      assert RuleOf(req) == ByCode;
      assert reply == ReplyOf(req, env);
      Finish(reply, closes);
      AppendRun(log0, req, env, closes);
    }

    /**
     * `account_manager_handle_account_type_query_by_provider_feature`
     * (server/src/account-server.c:1024-1111): a failure reply always says
     * RecordNotFound.
     */
    method TypeQueryByProviderFeature(env: Env, closes: Closes, key: string, uid: int)
      modifies this
      ensures inFlight == old(inFlight)
      ensures log == old(log) + Run(Request.TypeQueryByProviderFeature(key, uid), env, closes)
    {
      var req := Request.TypeQueryByProviderFeature(key, uid);
      ghost var log0 := log;
      MethodCallActive();
      var variant: Option<Value> := None;
      var code := CheckAndOpen(req, env);
      ghost var prepared := log;
      if code == NoError {
        var a := Store(QueryTypesByProviderFeature(key), env.answer);
        code := a.code;
        if code == NoError {
          if a.rows == [] {
            code := RecordNotFound;
          } else {
            variant := Marshal(Rows(a.rows), env);
          }
        }
        assert log == prepared + Body(req, env).events;
      }
      assert variant == ReachReturn(req, env).variant;
      AppendReach(log0 + [CallActive], req, env);
      var reply := if variant.None? then Error(RecordNotFound)
                   else Complete(Completion(req), Variant(variant));
      assert RuleOf(req) == ByVariantFixed;
      assert reply == ReplyOf(req, env);
      Finish(reply, closes);
      AppendRun(log0, req, env, closes);
    }

    /** `account_manager_account_get_total_count_from_db` (server/src/account-server.c:1113-1178) */
    method AccountGetTotalCount(env: Env, closes: Closes, includeHidden: bool, uid: int)
      modifies this
      ensures inFlight == old(inFlight)
      ensures log == old(log) + Run(Request.AccountGetTotalCount(includeHidden, uid), env, closes)
    {
      var req := Request.AccountGetTotalCount(includeHidden, uid);
      ghost var log0 := log;
      MethodCallActive();
      var count := -1;
      var code := CheckAndOpen(req, env);
      ghost var prepared := log;
      if code == NoError {
        var a := Store(GetTotalCount(includeHidden), env.answer);
        code, count := a.code, a.value;
        assert log == prepared + Body(req, env).events;
      }
      assert code == ReachReturn(req, env).code;
      AppendReach(log0 + [CallActive], req, env);
      var reply := if code != NoError then Error(code) else Complete(Completion(req), Int(count));
      assert RuleOf(req) == ByCode;
      assert reply == ReplyOf(req, env);
      Finish(reply, closes);
      AppendRun(log0, req, env, closes);
    }

    /**
     * `account_manager_handle_account_query_account_by_account_id`
     * (server/src/account-server.c:1180-1260): the store fills an empty
     * account instance, which is marshalled only when the store succeeded.
     */
    method AccountQueryById(env: Env, closes: Closes, accountId: int, uid: int)
      modifies this
      ensures inFlight == old(inFlight)
      ensures log == old(log) + Run(Request.AccountQueryById(accountId, uid), env, closes)
    {
      var req := Request.AccountQueryById(accountId, uid);
      ghost var log0 := log;
      MethodCallActive();
      var variant: Option<Value> := None;
      var code := CheckAndOpen(req, env);
      ghost var prepared := log;
      if code == NoError {
        var account := BuildRecord(EmptyRecord, env.recordOk);
        if account.None? {
          code := DbFailed;
        } else {
          var a := Store(QueryAccountById(env.pid, uid, accountId), env.answer);
          code := a.code;
          if code == NoError {
            variant := Marshal(Record(a.item.GetOr(account.value)), env);
          }
        }
        assert log == prepared + Body(req, env).events;
      }
      assert code == ReachReturn(req, env).code && variant == ReachReturn(req, env).variant;
      AppendReach(log0 + [CallActive], req, env);
      var reply := if variant.None? || code != NoError then Error(code)
                   else Complete(Completion(req), Variant(variant));
      assert RuleOf(req) == ByVariantOrCode;
      assert reply == ReplyOf(req, env);
      Finish(reply, closes);
      AppendRun(log0, req, env, closes);
    }

    /**
     * `account_manager_handle_account_query_account_by_user_name`
     * (server/src/account-server.c:1262-1344): a failure reply always says
     * RecordNotFound.
     */
    method AccountQueryByUserName(env: Env, closes: Closes, userName: string, uid: int)
      modifies this
      ensures inFlight == old(inFlight)
      ensures log == old(log) + Run(Request.AccountQueryByUserName(userName, uid), env, closes)
    {
      var req := Request.AccountQueryByUserName(userName, uid);
      ghost var log0 := log;
      MethodCallActive();
      var variant: Option<Value> := None;
      var code := CheckAndOpen(req, env);
      ghost var prepared := log;
      if code == NoError {
        var a := Store(QueryByUserName(env.pid, uid, userName), env.answer);
        code := a.code;
        if a.rows == [] {
          code := RecordNotFound;
        } else {
          variant := Marshal(Rows(a.rows), env);
        }
        assert log == prepared + Body(req, env).events;
      }
      assert variant == ReachReturn(req, env).variant;
      AppendReach(log0 + [CallActive], req, env);
      var reply := if variant.None? then Error(RecordNotFound)
                   else Complete(Completion(req), Variant(variant));
      assert RuleOf(req) == ByVariantFixed;
      assert reply == ReplyOf(req, env);
      Finish(reply, closes);
      AppendRun(log0, req, env, closes);
    }

    /**
     * `account_manager_handle_account_query_account_by_package_name`
     * (server/src/account-server.c:1346-1427): the reply depends on the
     * marshalled list alone, not on the store's code.
     */
    method AccountQueryByPackageName(env: Env, closes: Closes, packageName: string, uid: int)
      modifies this
      ensures inFlight == old(inFlight)
      ensures log == old(log) + Run(Request.AccountQueryByPackageName(packageName, uid), env, closes)
    {
      var req := Request.AccountQueryByPackageName(packageName, uid);
      ghost var log0 := log;
      MethodCallActive();
      var variant: Option<Value> := None;
      var code := CheckAndOpen(req, env);
      ghost var prepared := log;
      if code == NoError {
        var a := Store(QueryByPackageName(packageName, env.pid, uid), env.answer);
        code := a.code;
        if a.rows == [] {
          code := RecordNotFound;
        } else {
          variant := Marshal(Rows(a.rows), env);
        }
        assert log == prepared + Body(req, env).events;
      }
      assert code == ReachReturn(req, env).code && variant == ReachReturn(req, env).variant;
      AppendReach(log0 + [CallActive], req, env);
      var reply := if variant.None? then Error(code)
                   else Complete(Completion(req), Variant(variant));
      assert RuleOf(req) == ByVariant;
      assert reply == ReplyOf(req, env);
      Finish(reply, closes);
      AppendRun(log0, req, env, closes);
    }

    /**
     * `account_manager_handle_account_query_account_by_capability`
     * (server/src/account-server.c:1429-1513): a failure reply always says
     * RecordNotFound.
     */
    method AccountQueryByCapability(env: Env, closes: Closes, capabilityType: string, capabilityValue: int, uid: int)
      modifies this
      ensures inFlight == old(inFlight)
      ensures log == old(log) + Run(Request.AccountQueryByCapability(capabilityType, capabilityValue, uid), env, closes)
    {
      var req := Request.AccountQueryByCapability(capabilityType, capabilityValue, uid);
      ghost var log0 := log;
      MethodCallActive();
      var variant: Option<Value> := None;
      var code := CheckAndOpen(req, env);
      ghost var prepared := log;
      if code == NoError {
        var a := Store(QueryByCapability(env.pid, uid, capabilityType, capabilityValue), env.answer);
        code := a.code;
        if a.rows == [] {
          code := RecordNotFound;
        } else {
          variant := Marshal(Rows(a.rows), env);
        }
        assert log == prepared + Body(req, env).events;
      }
      assert variant == ReachReturn(req, env).variant;
      AppendReach(log0 + [CallActive], req, env);
      var reply := if variant.None? then Error(RecordNotFound)
                   else Complete(Completion(req), Variant(variant));
      assert RuleOf(req) == ByVariantFixed;
      assert reply == ReplyOf(req, env);
      Finish(reply, closes);
      AppendRun(log0, req, env, closes);
    }

    /**
     * `account_manager_handle_account_query_account_by_capability_type`
     * (server/src/account-server.c:1515-1599): a failure reply always says
     * RecordNotFound, and success completes with the by-capability
     * completion function.
     */
    method AccountQueryByCapabilityType(env: Env, closes: Closes, capabilityType: string, uid: int)
      modifies this
      ensures inFlight == old(inFlight)
      ensures log == old(log) + Run(Request.AccountQueryByCapabilityType(capabilityType, uid), env, closes)
    {
      var req := Request.AccountQueryByCapabilityType(capabilityType, uid);
      ghost var log0 := log;
      MethodCallActive();
      var variant: Option<Value> := None;
      var code := CheckAndOpen(req, env);
      ghost var prepared := log;
      if code == NoError {
        var a := Store(QueryByCapabilityType(env.pid, uid, capabilityType), env.answer);
        code := a.code;
        if a.rows == [] {
          code := RecordNotFound;
        } else {
          variant := Marshal(Rows(a.rows), env);
        }
        assert log == prepared + Body(req, env).events;
      }
      assert variant == ReachReturn(req, env).variant;
      AppendReach(log0 + [CallActive], req, env);
      var reply := if variant.None? then Error(RecordNotFound)
                   else Complete(Completion(req), Variant(variant));
      assert RuleOf(req) == ByVariantFixed;
      assert reply == ReplyOf(req, env);
      Finish(reply, closes);
      AppendRun(log0, req, env, closes);
    }

    /**
     * `account_manager_handle_account_query_capability_by_account_id`
     * (server/src/account-server.c:1601-1684): a failure reply always says
     * RecordNotFound.
     */
    method CapabilityQueryByAccountId(env: Env, closes: Closes, accountId: int, uid: int)
      modifies this
      ensures inFlight == old(inFlight)
      ensures log == old(log) + Run(Request.CapabilityQueryByAccountId(accountId, uid), env, closes)
    {
      var req := Request.CapabilityQueryByAccountId(accountId, uid);
      ghost var log0 := log;
      MethodCallActive();
      var variant: Option<Value> := None;
      var code := CheckAndOpen(req, env);
      ghost var prepared := log;
      if code == NoError {
        var a := Store(CapabilitiesByAccountId(accountId), env.answer);
        code := a.code;
        if a.rows == [] {
          code := RecordNotFound;
        } else {
          variant := Marshal(Rows(a.rows), env);
        }
        assert log == prepared + Body(req, env).events;
      }
      assert variant == ReachReturn(req, env).variant;
      AppendReach(log0 + [CallActive], req, env);
      var reply := if variant.None? then Error(RecordNotFound)
                   else Complete(Completion(req), Variant(variant));
      assert RuleOf(req) == ByVariantFixed;
      assert reply == ReplyOf(req, env);
      Finish(reply, closes);
      AppendRun(log0, req, env, closes);
    }

    /** `account_manager_handle_account_update_sync_status_by_id` (server/src/account-server.c:1686-1760) */
    method AccountUpdateSyncStatus(env: Env, closes: Closes, accountId: int, syncStatus: int, uid: int)
      modifies this
      ensures inFlight == old(inFlight)
      ensures log == old(log) + Run(Request.AccountUpdateSyncStatus(accountId, syncStatus, uid), env, closes)
    {
      var req := Request.AccountUpdateSyncStatus(accountId, syncStatus, uid);
      ghost var log0 := log;
      MethodCallActive();
      var code := CheckAndOpen(req, env);
      ghost var prepared := log;
      if code == NoError {
        var a := Store(UpdateSyncStatus(uid, accountId, syncStatus), env.answer);
        code := a.code;
        assert log == prepared + Body(req, env).events;
      }
      assert code == ReachReturn(req, env).code;
      AppendReach(log0 + [CallActive], req, env);
      var reply := if code != NoError then Error(code) else Complete(Completion(req), Unit);
      assert RuleOf(req) == ByCode;
      assert reply == ReplyOf(req, env);
      Finish(reply, closes);
      AppendRun(log0, req, env, closes);
    }

    /**
     * `account_manager_handle_account_type_query_provider_feature_by_app_id`
     * (server/src/account-server.c:1762-1841): success sends whatever
     * `provider_feature_list_to_variant` gave, NULL included.
     */
    method TypeQueryProviderFeatureByAppId(env: Env, closes: Closes, appId: string, uid: int)
      modifies this
      ensures inFlight == old(inFlight)
      ensures log == old(log) + Run(Request.TypeQueryProviderFeatureByAppId(appId, uid), env, closes)
    {
      var req := Request.TypeQueryProviderFeatureByAppId(appId, uid);
      ghost var log0 := log;
      MethodCallActive();
      var variant: Option<Value> := None;
      var code := CheckAndOpen(req, env);
      ghost var prepared := log;
      if code == NoError {
        var a := Store(ProviderFeaturesByAppId(appId), env.answer);
        assert Body(req, env) == ListQuery(ProviderFeaturesByAppId(appId), env, a.code);
        code := a.code;
        if a.rows == [] {
          code := RecordNotFound;
        } else {
          variant := Marshal(Rows(a.rows), env);
        }
        assert log == prepared + Body(req, env).events;
      }
      assert code == ReachReturn(req, env).code && Variant(variant) == ReachReturn(req, env).result;
      AppendReach(log0 + [CallActive], req, env);
      var reply := if code != NoError then Error(code)
                   else Complete(Completion(req), Variant(variant));
      assert RuleOf(req) == ByCode;
      assert reply == ReplyOf(req, env);
      Finish(reply, closes);
      AppendRun(log0, req, env, closes);
    }

    /** `account_manager_handle_account_type_query_supported_feature` (server/src/account-server.c:1843-1912) */
    method TypeQuerySupportedFeature(env: Env, closes: Closes, appId: string, capability: string, uid: int)
      modifies this
      ensures inFlight == old(inFlight)
      ensures log == old(log) + Run(Request.TypeQuerySupportedFeature(appId, capability, uid), env, closes)
    {
      var req := Request.TypeQuerySupportedFeature(appId, capability, uid);
      ghost var log0 := log;
      MethodCallActive();
      var isSupported := 0;
      var code := CheckAndOpen(req, env);
      ghost var prepared := log;
      if code == NoError {
        var a := Store(SupportedFeature(appId, capability), env.answer);
        code, isSupported := a.code, a.value;
        assert log == prepared + Body(req, env).events;
      }
      assert code == ReachReturn(req, env).code;
      AppendReach(log0 + [CallActive], req, env);
      var reply := if code != NoError then Error(code)
                   else Complete(Completion(req), Int(isSupported));
      assert RuleOf(req) == ByCode;
      assert reply == ReplyOf(req, env);
      Finish(reply, closes);
      AppendRun(log0, req, env, closes);
    }

    /**
     * `account_manager_handle_account_type_update_to_db_by_app_id`
     * (server/src/account-server.c:1914-1994): the unmarshalled record goes
     * to the store unchecked, NULL included.
     */
    method TypeUpdateByAppId(env: Env, closes: Closes, accountTypeData: Row, appId: string, uid: int)
      modifies this
      ensures inFlight == old(inFlight)
      ensures log == old(log) + Run(Request.TypeUpdateByAppId(accountTypeData, appId, uid), env, closes)
    {
      var req := Request.TypeUpdateByAppId(accountTypeData, appId, uid);
      ghost var log0 := log;
      MethodCallActive();
      var code := CheckAndOpen(req, env);
      ghost var prepared := log;
      if code == NoError {
        var accountType := BuildRecord(accountTypeData, env.recordOk);
        var a := Store(UpdateTypeByAppId(accountType, appId), env.answer);
        code := a.code;
        assert log == prepared + Body(req, env).events;
      }
      assert code == ReachReturn(req, env).code;
      AppendReach(log0 + [CallActive], req, env);
      var reply := if code != NoError then Error(code) else Complete(Completion(req), Unit);
      assert RuleOf(req) == ByCode;
      assert reply == ReplyOf(req, env);
      Finish(reply, closes);
      AppendRun(log0, req, env, closes);
    }

    /** `account_manager_handle_account_type_delete_by_app_id` (server/src/account-server.c:1996-2069) */
    method TypeDeleteByAppId(env: Env, closes: Closes, appId: string, uid: int)
      modifies this
      ensures inFlight == old(inFlight)
      ensures log == old(log) + Run(Request.TypeDeleteByAppId(appId, uid), env, closes)
    {
      var req := Request.TypeDeleteByAppId(appId, uid);
      ghost var log0 := log;
      MethodCallActive();
      var code := CheckAndOpen(req, env);
      ghost var prepared := log;
      if code == NoError {
        var a := Store(DeleteTypeByAppId(appId), env.answer);
        code := a.code;
        assert log == prepared + Body(req, env).events;
      }
      assert code == ReachReturn(req, env).code;
      AppendReach(log0 + [CallActive], req, env);
      var reply := if code != NoError then Error(code) else Complete(Completion(req), Unit);
      assert RuleOf(req) == ByCode;
      assert reply == ReplyOf(req, env);
      Finish(reply, closes);
      AppendRun(log0, req, env, closes);
    }

    /**
     * `account_manager_handle_account_type_query_label_by_app_id`
     * (server/src/account-server.c:2071-2144): the label list is marshalled
     * even when it is empty.
     */
    method TypeQueryLabelByAppId(env: Env, closes: Closes, appId: string, uid: int)
      modifies this
      ensures inFlight == old(inFlight)
      ensures log == old(log) + Run(Request.TypeQueryLabelByAppId(appId, uid), env, closes)
    {
      var req := Request.TypeQueryLabelByAppId(appId, uid);
      ghost var log0 := log;
      MethodCallActive();
      var variant: Option<Value> := None;
      var code := CheckAndOpen(req, env);
      ghost var prepared := log;
      if code == NoError {
        var a := Store(LabelsByAppId(appId), env.answer);
        code := a.code;
        if code == NoError {
          variant := Marshal(Rows(a.rows), env);
        }
        assert log == prepared + Body(req, env).events;
      }
      assert code == ReachReturn(req, env).code && Variant(variant) == ReachReturn(req, env).result;
      AppendReach(log0 + [CallActive], req, env);
      var reply := if code != NoError then Error(code)
                   else Complete(Completion(req), Variant(variant));
      assert RuleOf(req) == ByCode;
      assert reply == ReplyOf(req, env);
      Finish(reply, closes);
      AppendRun(log0, req, env, closes);
    }

    /** `account_manager_handle_account_type_query_by_app_id` (server/src/account-server.c:2146-2226) */
    method TypeQueryByAppId(env: Env, closes: Closes, appId: string, uid: int)
      modifies this
      ensures inFlight == old(inFlight)
      ensures log == old(log) + Run(Request.TypeQueryByAppId(appId, uid), env, closes)
    {
      var req := Request.TypeQueryByAppId(appId, uid);
      ghost var log0 := log;
      MethodCallActive();
      var variant: Option<Value> := None;
      var code := CheckAndOpen(req, env);
      ghost var prepared := log;
      if code == NoError {
        var a := Store(TypeByAppId(appId), env.answer);
        code := a.code;
        if code == NoError {
          if a.item.None? {
            code := RecordNotFound;
          } else {
            variant := Marshal(Record(a.item.value), env);
          }
        }
        assert log == prepared + Body(req, env).events;
      }
      assert code == ReachReturn(req, env).code && Variant(variant) == ReachReturn(req, env).result;
      AppendReach(log0 + [CallActive], req, env);
      var reply := if code != NoError then Error(code)
                   else Complete(Completion(req), Variant(variant));
      assert RuleOf(req) == ByCode;
      assert reply == ReplyOf(req, env);
      Finish(reply, closes);
      AppendRun(log0, req, env, closes);
    }

    /** `account_manager_handle_account_type_query_app_id_exist` (server/src/account-server.c:2228-2296) */
    method TypeQueryAppIdExist(env: Env, closes: Closes, appId: string, uid: int)
      modifies this
      ensures inFlight == old(inFlight)
      ensures log == old(log) + Run(Request.TypeQueryAppIdExist(appId, uid), env, closes)
    {
      var req := Request.TypeQueryAppIdExist(appId, uid);
      ghost var log0 := log;
      MethodCallActive();
      var code := CheckAndOpen(req, env);
      ghost var prepared := log;
      if code == NoError {
        var a := Store(AppIdExist(appId), env.answer);
        code := a.code;
        assert log == prepared + Body(req, env).events;
      }
      assert code == ReachReturn(req, env).code;
      AppendReach(log0 + [CallActive], req, env);
      var reply := if code != NoError then Error(code) else Complete(Completion(req), Unit);
      assert RuleOf(req) == ByCode;
      assert reply == ReplyOf(req, env);
      Finish(reply, closes);
      AppendRun(log0, req, env, closes);
    }

    /**
     * `account_manager_handle_account_update_to_db_by_id_ex`
     * (server/src/account-server.c:2298-2382): a record that does not
     * unmarshal is InvalidParameter here, not DbFailed.
     */
    method AccountUpdateByIdEx(env: Env, closes: Closes, accountData: Row, accountId: int, uid: int)
      modifies this
      ensures inFlight == old(inFlight)
      ensures log == old(log) + Run(Request.AccountUpdateByIdEx(accountData, accountId, uid), env, closes)
    {
      var req := Request.AccountUpdateByIdEx(accountData, accountId, uid);
      ghost var log0 := log;
      MethodCallActive();
      var code := CheckAndOpen(req, env);
      ghost var prepared := log;
      if code == NoError {
        var account := BuildRecord(accountData, env.recordOk);
        if account.None? {
          code := InvalidParameter;
        } else {
          var a := Store(UpdateByIdEx(account.value, accountId), env.answer);
          code := a.code;
        }
        assert log == prepared + Body(req, env).events;
      }
      assert code == ReachReturn(req, env).code;
      AppendReach(log0 + [CallActive], req, env);
      var reply := if code != NoError then Error(code) else Complete(Completion(req), Unit);
      assert RuleOf(req) == ByCode;
      assert reply == ReplyOf(req, env);
      Finish(reply, closes);
      AppendRun(log0, req, env, closes);
    }
  }
}
