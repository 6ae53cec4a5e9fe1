# Account manager daemon: the per-call request pipeline

This project models the request pipeline of the account manager daemon
(`server/src/account-server.c`). It covers two parts.

**The privilege gate.** The daemon derives the caller's credentials from the
D-Bus invocation, asks the cynara policy engine about one privilege, and turns
the outcome into one result code. The gate fails closed.

**The 27 `account_manager_*` handlers.** Every handler runs the same steps:

1. enter the lifecycle monitor;
2. run the read check, then the write check for mutating calls;
3. open the per-uid store in mode 0 (read) or 1 (write), then the global store;
4. optionally unmarshal a record, then call the store once;
5. send one reply, either an error or the method's `complete` call;
6. close both stores, ignoring failures;
7. leave the lifecycle monitor.

Every failure jumps to the shared `RETURN:` label.

The model is in five modules:

- **`Errors`** holds the `_ACCOUNT_ERROR_*` codes and the `_account_svc_errors` registration table, which gives each code a D-Bus error name. It proves that the names are distinct and that every code has one, so looking up a code's name and then the name's code gives the code back.
- **`Privilege`** holds the gate as pure functions. Collaborator lookups are a `Probe` value. The policy engine is a function parameter.
- **`Dispatch`** is the specification of one call. Given a `Request` and the results its collaborators give (`Env`: pid, credential probes, engine, open results, unmarshal and marshal success, the store's answer), `Run` is the exact sequence of collaborator calls. `ReplyOf` is the one reply. The close results (`Closes`) come after the reply and are kept apart from `Env`. `ReachReturn` is the state at `RETURN:`, and `RuleOf` says how each handler turns that state into a reply.
- **`Server`** models the handlers imperatively, as methods of class `AccountManager`. The class holds the lifecycle in-flight count and the log of collaborator calls. Each handler follows the C control flow, with `goto RETURN` written as `if code == NoError` guards. Each is proved to append exactly `Run(req, env, closes)` to the log and to leave the in-flight count unchanged.
- **`Properties`** proves what the pipeline promises, for every request and every combination of collaborator results. `Only(t, k)` keeps the calls of one kind from a trace (lifecycle, check, open, unmarshal, store, reply, close). The lemmas state, per kind, what a run contains.

The per-handler quirks are reproduced as the code has them:

- Five list handlers always send RecordNotFound when the marshalled list is NULL, even after a permission denial.
- Four handlers can send an error reply that carries NoError. Three of them choose the reply by the variant alone (the two query-all handlers and the package-name query). The fourth is the by-id query: it replies with an error when the variant is NULL, and a marshalling failure after a successful store call leaves `return_code` at NoError.
- Three handlers complete with another method's completion function.
- The account-type update passes an unchecked unmarshal result to the store.
- Both closes run on every path, even when nothing was opened.

## Model

| member | source | states |
|---|---|---|
| Errors.NameOf | server/src/account-server.c:55-74 | a code has a registered name exactly when some table row has the code, and the name returned is from such a row |
| Errors.CodeOf | server/src/account-server.c:55-74 | a name resolves to a code exactly when some table row has the name, and the code returned is from such a row |
| Errors.NameThenCode | server/src/account-server.c:55-74 | in a table with distinct names, resolving a code's name back gives the same code |
| Errors.SvcErrorsDistinct | server/src/account-server.c:55-74 | no two rows of `_account_svc_errors` share a D-Bus name |
| Errors.SvcErrorsComplete | server/src/account-server.c:55-74 | every error code has a row in `_account_svc_errors` |
| Errors.ErrorName | server/src/account-server.c:55-74 | every code has a D-Bus error name in the registration table, and that name maps back to the same code |
| Privilege.GetInformationForCheck | server/src/account-server.c:149-191 | credentials are derived exactly when the connection, sender, user, client and session lookups all succeed; they are (client, user, session) |
| Privilege.CheckByCynara | server/src/account-server.c:129-147 | the result is NoError or PermissionDenied, and NoError exactly when the engine answers ACCESS_ALLOWED |
| Privilege.CheckPrivilege | server/src/account-server.c:193-225 | the result is NoError or PermissionDenied, and NoError exactly when all five lookups succeed and the engine allows the privilege |
| Privilege.CheckRead | server/src/account-server.c:227-230 | the read check is NoError exactly when all five lookups succeed and the engine allows the account read privilege, and PermissionDenied otherwise |
| Privilege.CheckWrite | server/src/account-server.c:232-235 | the write check is NoError exactly when all five lookups succeed and the engine allows the account write privilege, and PermissionDenied otherwise |
| Dispatch.GateOf | server/src/account-server.c:715-729 | only the package-name delete with `permission` unset skips the checks; exactly the handlers that do not change the store check read alone |
| Dispatch.OpenMode | server/src/account-server.c:260-262 | the per-uid store is opened in mode 1 exactly for the handlers whose gate is not read-only, and in mode 0 otherwise |
| Dispatch.CheckGate | server/src/account-server.c:248-258 | the gate only makes privilege checks, the read check first; its code is NoError or PermissionDenied, and NoError exactly when it made all the checks its gate calls for and every one passed |
| Dispatch.Prepare | server/src/account-server.c:248-270 | the checks and opens never unmarshal or call the store |
| Dispatch.Unmarshalled | server/src/account-server.c:272-284 | the unmarshal is logged first; the store is called exactly when the record was built; a NULL record sets the handler's failure code, otherwise `return_code` is the store's code; no variant is built |
| Dispatch.ListQuery | server/src/account-server.c:349-361 | a list query calls the store once; an empty (NULL) list sets RecordNotFound; a variant exists exactly when the list is non-empty and marshals, and it carries the whole list |
| Dispatch.RuleOf | server/src/account-server.c:1087-1093 | every handler that tests the variant after `RETURN:`, rather than `return_code`, is a query that does not change the store and checks read alone |
| Dispatch.Select | server/src/account-server.c:365-373 | a success names the completion given; a failing code with no variant is always an error; a success chosen by the variant carries that variant, and one chosen by the code needs NoError and carries the handler's out-values |
| Server.AccountManager.MethodCallActive | server/src/account-server.c:240 | the in-flight count goes up by one and the entry is logged |
| Server.AccountManager.MethodCallInactive | server/src/account-server.c:311 | the in-flight count goes down by one and the exit is logged |
| Server.AccountManager.Check | server/src/account-server.c:193-225 | returns `CheckPrivilege` of the invocation's credentials and logs the check with its result |
| Server.AccountManager.CheckReadWrite | server/src/account-server.c:248-258 | runs the read check, then the write check only if the read check passed; returns the last result |
| Server.AccountManager.CheckReadOnly | server/src/account-server.c:328-332 | runs the read check alone and returns its result |
| Server.AccountManager.OpenStores | server/src/account-server.c:260-270 | opens the per-uid store with the given mode, pid and uid, then the global store only if the first open succeeded; returns the first failing code or the global result |
| Server.AccountManager.CheckAndOpen | server/src/account-server.c:248-270 | runs the checks the handler's gate calls for, then the opens, stopping at the first failure; its code and log are those of `Dispatch.Prepare` |
| Server.AccountManager.BuildRecord | server/src/account-server.c:272-277 | unmarshalling gives the record, or None for NULL, and is logged |
| Server.AccountManager.Store | server/src/account-server.c:279 | one store call with the handler's arguments is logged; its answer is the input |
| Server.AccountManager.Finish | server/src/account-server.c:286-311 | sends the chosen reply, closes the per-uid store and then the global store whatever they return, and leaves the lifecycle |
| Server.AccountManager.AccountAdd | server/src/account-server.c:237-315 | appends exactly `Run` of the add request to the log and leaves the in-flight count unchanged |
| Server.AccountManager.AccountQueryAll | server/src/account-server.c:317-391 | appends exactly `Run` of the query-all request and leaves the in-flight count unchanged |
| Server.AccountManager.AccountTypeQueryAll | server/src/account-server.c:393-466 | appends exactly `Run` of the type query-all request and leaves the in-flight count unchanged |
| Server.AccountManager.AccountTypeAdd | server/src/account-server.c:468-549 | appends exactly `Run` of the type-add request and leaves the in-flight count unchanged |
| Server.AccountManager.AccountDeleteById | server/src/account-server.c:551-623 | appends exactly `Run` of the delete-by-id request and leaves the in-flight count unchanged |
| Server.AccountManager.AccountDeleteByUserName | server/src/account-server.c:625-698 | appends exactly `Run` of the delete-by-user-name request, whose success reply is the by-id completion, and leaves the in-flight count unchanged |
| Server.AccountManager.AccountDeleteByPackageName | server/src/account-server.c:700-777 | appends exactly `Run` of the package-name delete, with checks only when `permission` is set, and leaves the in-flight count unchanged |
| Server.AccountManager.AccountUpdateById | server/src/account-server.c:779-863 | appends exactly `Run` of the update-by-id request and leaves the in-flight count unchanged |
| Server.AccountManager.AccountUpdateByUserName | server/src/account-server.c:865-950 | appends exactly `Run` of the update-by-user-name request, whose success reply is the by-id completion, and leaves the in-flight count unchanged |
| Server.AccountManager.TypeQueryLabelByLocale | server/src/account-server.c:952-1022 | appends exactly `Run` of the label-by-locale query and leaves the in-flight count unchanged |
| Server.AccountManager.TypeQueryByProviderFeature | server/src/account-server.c:1024-1111 | appends exactly `Run` of the type-by-provider-feature query, whose error reply is always RecordNotFound, and leaves the in-flight count unchanged |
| Server.AccountManager.AccountGetTotalCount | server/src/account-server.c:1113-1178 | appends exactly `Run` of the total-count query and leaves the in-flight count unchanged |
| Server.AccountManager.AccountQueryById | server/src/account-server.c:1180-1260 | appends exactly `Run` of the query-by-id request; the reply is an error when the variant is NULL or the code is not NoError; the in-flight count is unchanged |
| Server.AccountManager.AccountQueryByUserName | server/src/account-server.c:1262-1344 | appends exactly `Run` of the by-user-name query, whose reply is chosen by the variant alone, and leaves the in-flight count unchanged |
| Server.AccountManager.AccountQueryByPackageName | server/src/account-server.c:1346-1427 | appends exactly `Run` of the by-package-name query, whose reply is chosen by the variant and carries `return_code` on error, and leaves the in-flight count unchanged |
| Server.AccountManager.AccountQueryByCapability | server/src/account-server.c:1429-1513 | appends exactly `Run` of the by-capability query and leaves the in-flight count unchanged |
| Server.AccountManager.AccountQueryByCapabilityType | server/src/account-server.c:1515-1599 | appends exactly `Run` of the by-capability-type query, completed as the by-capability query, and leaves the in-flight count unchanged |
| Server.AccountManager.CapabilityQueryByAccountId | server/src/account-server.c:1601-1684 | appends exactly `Run` of the capability-by-account-id query and leaves the in-flight count unchanged |
| Server.AccountManager.AccountUpdateSyncStatus | server/src/account-server.c:1686-1760 | appends exactly `Run` of the sync-status update and leaves the in-flight count unchanged |
| Server.AccountManager.TypeQueryProviderFeatureByAppId | server/src/account-server.c:1762-1841 | appends exactly `Run` of the provider-feature-by-app-id query and leaves the in-flight count unchanged |
| Server.AccountManager.TypeQuerySupportedFeature | server/src/account-server.c:1843-1912 | appends exactly `Run` of the supported-feature query and leaves the in-flight count unchanged |
| Server.AccountManager.TypeUpdateByAppId | server/src/account-server.c:1914-1994 | appends exactly `Run` of the account-type update, whose store call gets the unmarshal result unchecked, and leaves the in-flight count unchanged |
| Server.AccountManager.TypeDeleteByAppId | server/src/account-server.c:1996-2069 | appends exactly `Run` of the account-type delete and leaves the in-flight count unchanged |
| Server.AccountManager.TypeQueryLabelByAppId | server/src/account-server.c:2071-2144 | appends exactly `Run` of the labels-by-app-id query and leaves the in-flight count unchanged |
| Server.AccountManager.TypeQueryByAppId | server/src/account-server.c:2146-2226 | appends exactly `Run` of the type-by-app-id query and leaves the in-flight count unchanged |
| Server.AccountManager.TypeQueryAppIdExist | server/src/account-server.c:2228-2296 | appends exactly `Run` of the app-id-exists query and leaves the in-flight count unchanged |
| Server.AccountManager.AccountUpdateByIdEx | server/src/account-server.c:2298-2382 | appends exactly `Run` of the extended update and leaves the in-flight count unchanged |
| Properties.BodyShape | server/src/account-server.c:272-284 | after the opens, a handler makes at most an unmarshal and then one store call; the body ends with the store call unless a handler that unmarshals could not build its record, and a failed unmarshal skips the store call everywhere except the account-type update |
| Properties.RunLifecycle | server/src/account-server.c:240-311 | a run enters the lifecycle once and leaves it once, on every path |
| Properties.RunReply | server/src/account-server.c:286-295 | a run sends exactly one reply, and it is `ReplyOf` |
| Properties.RunCloses | server/src/account-server.c:297-307 | a run closes the per-uid store and then the global store, once each, on every path |
| Properties.RunChecks | server/src/account-server.c:248-258 | the privilege checks of a run are exactly those of the handler's gate |
| Properties.RunOpens | server/src/account-server.c:260-270 | the opens of a run are the per-uid open in the handler's mode once the gate passed, then the global open only if the per-uid open succeeded |
| Properties.StoreCalledOnce | server/src/account-server.c:272-284 | once the gate and both opens passed, a run calls the store exactly once, unless a handler that unmarshals could not build its record |
| Properties.RunStore | server/src/account-server.c:260-284 | a run calls the store at most once, and only after the gate and both opens succeeded |
| Properties.RunShape | server/src/account-server.c:237-315 | a run starts with lifecycle entry and ends with the reply, the per-uid close, the global close and lifecycle exit; everything between is a check, open, unmarshal or store call |
| Properties.CloseResultsIgnored | server/src/account-server.c:297-307 | two runs that differ only in the close results differ only in the two close events, so the reply is the same |
| Properties.DeniedTouchesNothing | server/src/account-server.c:248-295 | after a denial the run is entry, the checks, the reply and the closes, with no open, unmarshal or store call; the reply is PermissionDenied, or RecordNotFound in the handlers that always send that |
| Properties.MutatingChecksReadThenWrite | server/src/account-server.c:248-270 | mutating handlers run the read check, then the write check only if the read check passed; the stores are opened exactly when both passed, the per-uid store first and in mode 1 |
| Properties.ReadOnlyChecksRead | server/src/account-server.c:328-344 | read-only handlers run only the read check; the stores are opened exactly when it passed, the per-uid store first and in mode 0 |
| Properties.PermissionFlagDecidesChecks | server/src/account-server.c:715-740 | the package-name delete runs the read and write checks only when `permission` is set; without it the run goes straight to the write-mode open |
| Properties.PermissionFlagReachesStore | server/src/account-server.c:740-742 | once the opens succeed, the package-name delete's one store call carries the package name, the `permission` flag, the pid and the uid unchanged |
| Properties.PreparationFailureReply | server/src/account-server.c:248-295 | when a check or open fails, nothing of the body runs, and the reply carries the failing code, or RecordNotFound in the handlers that always send that |
| Properties.SuccessNeedsPreparation | server/src/account-server.c:286-295 | a success reply is sent only when the gate and both opens passed, and it uses the handler's completion function |
| Properties.UnmarshalFailureSkipsStore | server/src/account-server.c:272-277 | when the add, type-add, update, extended update or query-by-id record cannot be built, the store is never called |
| Properties.UnmarshalFailureReply | server/src/account-server.c:2337-2342 | that failure is replied as DbFailed, except in the extended update, which replies InvalidParameter |
| Properties.TypeUpdateIgnoresUnmarshal | server/src/account-server.c:1954-1957 | the account-type update calls the store with a NULL record when unmarshalling fails |
| Properties.TypeUpdateReply | server/src/account-server.c:1957-1974 | the account-type update replies with the store's code, and with success when that code is NoError |
| Properties.BorrowedCompletions | server/src/account-server.c:625-698 | the user-name delete and update complete as their by-id forms, and the capability-type query completes as the capability query |
| Properties.CompletionNamesOwnMethod | server/src/account-server.c:1515-1599 | a success reply goes through the handler's own method's completion exactly when the handler is not one of the three that borrow another's |
| Properties.EmptyListNotFound | server/src/account-server.c:351-355 | a list handler whose store gives an empty (NULL) list after the gate and opens passed replies RecordNotFound, whatever code the store returned |
| Properties.NonEmptyListSucceeds | server/src/account-server.c:1298-1326 | a non-empty list that marshals is a success reply carrying the whole list; in the handlers that choose by the variant this holds even when the store set an error code |
| Properties.MarshalFailureRepliesNoError | server/src/account-server.c:359-373 | where the reply is chosen by the variant alone, a marshalling failure with no earlier error sends an error reply that carries NoError |
| Properties.SessionAlternates | server/src/account-server.c:240-311 | serving calls one after another enters and leaves the lifecycle in strict alternation, so the in-flight count returns to zero after each call |
| Properties.SessionRepliesOnce | server/src/account-server.c:286-295 | serving calls one after another sends one reply per call, in call order |

## Left out

- D-Bus plumbing is not modelled: signal registration, bus and name callbacks, the main loop and `main` (server/src/account-server.c:2384-2585). This is transport and bootstrap code.
- `_get_client_pid` (server/src/account-server.c:76-114) is an input, `Env.pid`. Its synchronous D-Bus call is not modelled. The session lookup inside the gate is one field of `Probe`.
- The cynara and credential library calls are inputs. The policy engine is a function parameter, and each lookup is a field of `Probe`.
- The store operations and `_account_db_open`/`_account_db_close` are implemented in a source file that is not part of this model. Each store call is logged with its arguments, and its answer (code, integer out-value, record, list) is an input. No abstract store state is kept. What the handlers promise about the store, that only the one store call can touch it and only after the gate and both opens passed, is stated over the logged calls (`RunStore`, `DeniedTouchesNothing`).
- Record contents and the wire codecs (`umarshal_*`, `marshal_*`, `*_to_variant`, `create_empty_account_instance`) are not modelled. A record is an opaque string, and each codec call only succeeds or gives NULL. One success flag covers the unmarshal and one covers the marshal in a call.
- Store return codes are drawn from the `ErrorCode` enumeration; other integers the store might return are not modelled.
- The lifecycle timer is not modelled; only the in-flight count is.
- Logging, `g_free` and the other frees, and the `GError` message text ("RecordNotFound" on every error) are not modelled.
- Concurrency is not modelled. The GLib main loop runs handlers one at a time, and the model serves calls in sequence (`Serve`).
- Behaviour of the code that the model keeps as it is:
  - Both closes run on every path, even when nothing was opened.
  - The reply is sent before the closes.
  - The stores are closed in the order they were opened.
  - `permission == true` runs the checks in the package-name delete, and `false` skips them.
  - Unmarshalling happens after the opens.
  - An error reply can carry NoError.
- Integer widths are not modelled. The pid is an unbounded `int` input; the unsigned `guint pid = -1` default of `_get_client_pid` (server/src/account-server.c:88) and the `(uid_t)uid` and `(int)uid` casts at the store calls are left out, because the model passes pid and uid through unchanged and never does arithmetic on them.
