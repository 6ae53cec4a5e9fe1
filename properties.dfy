/**
 * What the handlers promise, stated over `Dispatch.Run` and `Dispatch.ReplyOf`
 * for every request and every combination of collaborator results. The
 * handler methods of `Server.AccountManager` are proved to produce exactly
 * `Run`, so each lemma here is a statement about them.
 */
module Properties {
  import opened Wrappers
  import opened Errors
  import opened Privilege
  import opened Dispatch

  // ---------------------------------------------------------------------
  // Looking at one kind of collaborator call at a time
  // ---------------------------------------------------------------------

  /** The collaborators a handler talks to. */
  datatype Kind = Lifecycle | Check | Open | Unmarshal | StoreKind | ReplyKind | Close

  function KindOf(e: Event): Kind {
    match e
    case CallActive => Lifecycle
    case CallInactive => Lifecycle
    case PrivilegeChecked(_, _) => Check
    case DbOpened(_, _, _, _) => Open
    case GlobalDbOpened(_) => Open
    case RecordBuilt(_) => Unmarshal
    case StoreCalled(_) => StoreKind
    case Replied(_) => ReplyKind
    case DbClosed(_) => Close
    case GlobalDbClosed(_) => Close
  }

  /** The calls of kind `k` in `t`, in the order made. */
  function Only(t: Trace, k: Kind): (r: Trace)
    ensures |r| <= |t|
    ensures forall i :: 0 <= i < |r| ==> KindOf(r[i]) == k
  {
    if t == [] then [] else (if KindOf(t[0]) == k then [t[0]] else []) + Only(t[1..], k)
  }

  lemma {:induction false} OnlyAppend(a: Trace, b: Trace, k: Kind)
    ensures Only(a + b, k) == Only(a, k) + Only(b, k)
  {
    if a == [] {
      assert a + b == b;
    } else {
      assert (a + b)[0] == a[0];
      assert (a + b)[1..] == a[1..] + b;
      OnlyAppend(a[1..], b, k);
    }
  }

  /** Keeping the kind every call of `t` has keeps all of `t`. */
  lemma {:induction false} OnlyAll(t: Trace, k: Kind)
    requires forall i :: 0 <= i < |t| ==> KindOf(t[i]) == k
    ensures Only(t, k) == t
  {
    if t != [] {
      OnlyAll(t[1..], k);
      assert [t[0]] + t[1..] == t;
    }
  }

  /** Keeping a kind no call of `t` has leaves nothing. */
  lemma {:induction false} OnlyNone(t: Trace, k: Kind)
    requires forall i :: 0 <= i < |t| ==> KindOf(t[i]) != k
    ensures Only(t, k) == []
  {
    if t != [] {
      OnlyNone(t[1..], k);
    }
  }

  lemma OnlyOne(e: Event, k: Kind)
    ensures Only([e], k) == if KindOf(e) == k then [e] else []
  {
    assert [e][1..] == [];
  }

  // ---------------------------------------------------------------------
  // The calls of each kind in the parts of a run
  // ---------------------------------------------------------------------

  /**
   * The opens a handler makes: once the gate passes, the per-uid store in
   * the handler's mode, then the global store only if the per-uid open
   * succeeded.
   */
  function Opens(req: Request, env: Env): Trace {
    if CheckGate(GateOf(req), env).code != NoError then []
    else [DbOpened(OpenMode(req), env.pid, req.uid, env.dbOpen)]
         + (if env.dbOpen == NoError then [GlobalDbOpened(env.globalOpen)] else [])
  }

  /** The checks of a gate are all checks. */
  lemma OnlyGate(gate: Gate, env: Env, k: Kind)
    ensures Only(CheckGate(gate, env).events, k) == if k == Check then CheckGate(gate, env).events else []
  {
    var t := CheckGate(gate, env).events;
    assert forall i :: 0 <= i < |t| ==> t[i].PrivilegeChecked?;
    if k == Check { OnlyAll(t, k); } else { OnlyNone(t, k); }
  }

  lemma OnlyOpens(req: Request, env: Env, k: Kind)
    ensures Only(Opens(req, env), k) == if k == Open then Opens(req, env) else []
  {
    var o := Opens(req, env);
    assert forall i :: 0 <= i < |o| ==> o[i].DbOpened? || o[i].GlobalDbOpened?;
    if k == Open { OnlyAll(o, k); } else { OnlyNone(o, k); }
  }

  lemma OnlyPrepare(req: Request, env: Env, k: Kind)
    ensures Only(Prepare(req, env).events, k) ==
      if k == Check then CheckGate(GateOf(req), env).events
      else if k == Open then Opens(req, env)
      else []
  {
    var g := CheckGate(GateOf(req), env);
    var o := Opens(req, env);
    assert Prepare(req, env).events == g.events + o;
    OnlyAppend(g.events, o, k);
    OnlyGate(GateOf(req), env, k);
    OnlyOpens(req, env, k);
  }

  /**
   * A body is one store call, possibly after an unmarshal; a failed
   * unmarshal skips the store call except in the account-type update.
   */
  lemma BodyShape(req: Request, env: Env)
    ensures var b := Body(req, env).events;
      && 1 <= |b| <= 2
      && (forall i :: 0 <= i < |b| ==> b[i].RecordBuilt? || b[i].StoreCalled?)
      && (|b| == 2 ==> b[0].RecordBuilt? && b[1].StoreCalled?)
      && (b[0] == RecordBuilt(false) ==> |b| == 1 || req.TypeUpdateByAppId?)
      && (b[|b| - 1].StoreCalled? || (b == [RecordBuilt(false)] && Unmarshals(req)))
  {
  }

  /** A body is at most an unmarshal and one store call. */
  lemma OnlyBody(req: Request, env: Env, k: Kind)
    ensures k != Unmarshal && k != StoreKind ==> Only(Body(req, env).events, k) == []
    ensures |Only(Body(req, env).events, StoreKind)| <= 1
  {
    BodyShape(req, env);
    OnlyUnmarshalThenStore(Body(req, env).events, k);
  }

  lemma OnlyUnmarshalThenStore(b: Trace, k: Kind)
    requires forall i :: 0 <= i < |b| ==> b[i].RecordBuilt? || b[i].StoreCalled?
    requires |b| <= 2
    requires |b| == 2 ==> b[0].RecordBuilt?
    ensures k != Unmarshal && k != StoreKind ==> Only(b, k) == []
    ensures |Only(b, StoreKind)| <= 1
    ensures |b| >= 1 && b[|b| - 1].StoreCalled? ==> |Only(b, StoreKind)| == 1
  {
    if k != Unmarshal && k != StoreKind { OnlyNone(b, k); }
    if |b| == 2 {
      assert b == [b[0]] + [b[1]];
      OnlyAppend([b[0]], [b[1]], StoreKind);
      OnlyOne(b[0], StoreKind);
      OnlyOne(b[1], StoreKind);
    } else if |b| == 1 {
      assert b == [b[0]];
      OnlyOne(b[0], StoreKind);
    }
  }

  lemma OnlyClosing(reply: Reply, closes: Closes, k: Kind)
    ensures Only(Closing(reply, closes), k) ==
      if k == Lifecycle then [CallInactive]
      else if k == ReplyKind then [Replied(reply)]
      else if k == Close then [DbClosed(closes.db), GlobalDbClosed(closes.global)]
      else []
  {
    var c := Closing(reply, closes);
    var c1, c2, c3 := c[1..], c[2..], c[3..];
    assert c1 == [c[1], c[2], c[3]] && c1[1..] == c2;
    assert c2 == [c[2], c[3]] && c2[1..] == c3;
    assert c3 == [c[3]] && c3[1..] == [];
    assert Only(c3, k) == if KindOf(c[3]) == k then [c[3]] else [];
    assert Only(c2, k) == (if KindOf(c[2]) == k then [c[2]] else []) + Only(c3, k);
    assert Only(c1, k) == (if KindOf(c[1]) == k then [c[1]] else []) + Only(c2, k);
    assert Only(c, k) == (if KindOf(c[0]) == k then [c[0]] else []) + Only(c1, k);
  }

  /** The calls of kind `k` up to `RETURN:`: the checks and opens, then the body if they passed. */
  lemma OnlyReach(req: Request, env: Env, k: Kind)
    ensures Only(ReachReturn(req, env).events, k) ==
      Only(Prepare(req, env).events, k)
      + (if Prepare(req, env).code == NoError then Only(Body(req, env).events, k) else [])
  {
    if Prepare(req, env).code == NoError {
      OnlyAppend(Prepare(req, env).events, Body(req, env).events, k);
    }
  }

  /** The calls of kind `k` in a run: lifecycle entry, the steps to `RETURN:`, the code after it. */
  lemma OnlyRun(req: Request, env: Env, closes: Closes, k: Kind)
    ensures Only(Run(req, env, closes), k) ==
      Only([CallActive], k) + Only(ReachReturn(req, env).events, k)
      + Only(Closing(ReplyOf(req, env), closes), k)
  {
    var r := ReachReturn(req, env).events;
    var c := Closing(ReplyOf(req, env), closes);
    OnlyAppend([CallActive] + r, c, k);
    OnlyAppend([CallActive], r, k);
  }

  /** The steps before `RETURN:` hold no lifecycle, reply or close call. */
  lemma OnlyOfSteps(t: Trace, k: Kind)
    requires AllSteps(t) && (k == Lifecycle || k == ReplyKind || k == Close)
    ensures Only(t, k) == []
  {
    OnlyNone(t, k);
  }

  /** One lifecycle entry, first, and one exit, last. */
  lemma RunLifecycle(req: Request, env: Env, closes: Closes)
    ensures Only(Run(req, env, closes), Lifecycle) == [CallActive, CallInactive]
  {
    OnlyRun(req, env, closes, Lifecycle);
    OnlyOne(CallActive, Lifecycle);
    OnlyOfSteps(ReachReturn(req, env).events, Lifecycle);
    OnlyClosing(ReplyOf(req, env), closes, Lifecycle);
    assert [CallActive] + [] + [CallInactive] == [CallActive, CallInactive];
  }

  /** Exactly one reply. */
  lemma RunReply(req: Request, env: Env, closes: Closes)
    ensures Only(Run(req, env, closes), ReplyKind) == [Replied(ReplyOf(req, env))]
  {
    OnlyRun(req, env, closes, ReplyKind);
    OnlyOne(CallActive, ReplyKind);
    OnlyOfSteps(ReachReturn(req, env).events, ReplyKind);
    OnlyClosing(ReplyOf(req, env), closes, ReplyKind);
    assert [] + [] + [Replied(ReplyOf(req, env))] == [Replied(ReplyOf(req, env))];
  }

  /** One close of the per-uid store, then one of the global store. */
  lemma RunCloses(req: Request, env: Env, closes: Closes)
    ensures Only(Run(req, env, closes), Close) == [DbClosed(closes.db), GlobalDbClosed(closes.global)]
  {
    var c := [DbClosed(closes.db), GlobalDbClosed(closes.global)];
    OnlyRun(req, env, closes, Close);
    OnlyOne(CallActive, Close);
    OnlyOfSteps(ReachReturn(req, env).events, Close);
    OnlyClosing(ReplyOf(req, env), closes, Close);
    assert [] + [] + c == c;
  }

  /** The calls of kind `k` of a run that come from the steps before `RETURN:`. */
  lemma RunSteps(req: Request, env: Env, closes: Closes, k: Kind)
    requires k == Check || k == Open || k == Unmarshal || k == StoreKind
    ensures Only(Run(req, env, closes), k) == Only(ReachReturn(req, env).events, k)
  {
    OnlyRun(req, env, closes, k);
    OnlyOne(CallActive, k);
    OnlyClosing(ReplyOf(req, env), closes, k);
    assert [] + Only(ReachReturn(req, env).events, k) + [] == Only(ReachReturn(req, env).events, k);
  }

  /** The checks are those of the handler's gate. */
  lemma RunChecks(req: Request, env: Env, closes: Closes)
    ensures Only(Run(req, env, closes), Check) == CheckGate(GateOf(req), env).events
  {
    var g := CheckGate(GateOf(req), env).events;
    RunSteps(req, env, closes, Check);
    OnlyReach(req, env, Check);
    OnlyPrepare(req, env, Check);
    OnlyBody(req, env, Check);
    assert g + [] == g;
  }

  /** The opens are those `Opens` gives. */
  lemma RunOpens(req: Request, env: Env, closes: Closes)
    ensures Only(Run(req, env, closes), Open) == Opens(req, env)
  {
    var o := Opens(req, env);
    RunSteps(req, env, closes, Open);
    OnlyReach(req, env, Open);
    OnlyPrepare(req, env, Open);
    OnlyBody(req, env, Open);
    assert o + [] == o;
  }

  /** The store calls up to `RETURN:` are the body's, once the gate and both opens passed. */
  lemma ReachStore(req: Request, env: Env)
    ensures Only(ReachReturn(req, env).events, StoreKind) ==
      if Prepare(req, env).code == NoError then Only(Body(req, env).events, StoreKind) else []
    ensures |Only(ReachReturn(req, env).events, StoreKind)| <= 1
  {
    OnlyReach(req, env, StoreKind);
    OnlyPrepare(req, env, StoreKind);
    OnlyBody(req, env, StoreKind);
    var b := Only(Body(req, env).events, StoreKind);
    assert [] + b == b;
  }

  /**
   * Once the gate and both opens passed, the store is called exactly once,
   * unless a handler that unmarshals could not build its record.
   */
  lemma StoreCalledOnce(req: Request, env: Env, closes: Closes)
    requires Prepare(req, env).code == NoError
    requires Unmarshals(req) ==> env.recordOk
    ensures |Only(Run(req, env, closes), StoreKind)| == 1
  {
    RunSteps(req, env, closes, StoreKind);
    ReachStore(req, env);
    BodyShape(req, env);
    OnlyUnmarshalThenStore(Body(req, env).events, StoreKind);
  }

  /** At most one store call, and only once the gate and both opens passed. */
  lemma RunStore(req: Request, env: Env, closes: Closes)
    ensures |Only(Run(req, env, closes), StoreKind)| <= 1
    ensures Only(Run(req, env, closes), StoreKind) != [] ==>
      CheckGate(GateOf(req), env).code == NoError && env.dbOpen == NoError && env.globalOpen == NoError
  {
    RunSteps(req, env, closes, StoreKind);
    ReachStore(req, env);
  }

  /**
   * Every run enters the lifecycle first and leaves it last; in between come
   * only checks, opens, unmarshalling and store calls, then the reply, then
   * the per-uid close and the global close, in that order.
   */
  lemma RunShape(req: Request, env: Env, closes: Closes)
    ensures var t, n := Run(req, env, closes), |Run(req, env, closes)|;
      && n >= 5
      && t[0] == CallActive
      && (forall i :: 0 < i < n - 4 ==> IsStep(t[i]))
      && t[n - 4] == Replied(ReplyOf(req, env))
      && t[n - 3] == DbClosed(closes.db)
      && t[n - 2] == GlobalDbClosed(closes.global)
      && t[n - 1] == CallInactive
  {
    var steps, after := ReachReturn(req, env).events, Closing(ReplyOf(req, env), closes);
    ReachNonEmpty(req, env);
    BracketShape(steps, after);
  }

  /** Every handler makes at least one check or open before `RETURN:`. */
  lemma ReachNonEmpty(req: Request, env: Env)
    ensures |ReachReturn(req, env).events| >= 1
  {
    assert |ReachReturn(req, env).events| >= |Prepare(req, env).events|;
  }

  lemma BracketShape(steps: Trace, after: Trace)
    requires AllSteps(steps) && |steps| >= 1 && |after| == 4
    ensures var t, n := [CallActive] + steps + after, |steps| + 5;
      && |t| == n
      && t[0] == CallActive
      && (forall i :: 0 < i < n - 4 ==> IsStep(t[i]))
      && t[n - 4] == after[0] && t[n - 3] == after[1] && t[n - 2] == after[2] && t[n - 1] == after[3]
  {
    var t := [CallActive] + steps + after;
    forall i | 0 < i < |t| - 4
      ensures IsStep(t[i])
    {
      assert t[i] == steps[i - 1];
    }
  }

  /**
   * The close results are only logged: two runs that differ in them alone
   * differ in the two close events alone, and in particular send the same reply.
   */
  lemma CloseResultsIgnored(req: Request, env: Env, closes: Closes, closes': Closes)
    ensures var t, t' := Run(req, env, closes), Run(req, env, closes');
      && |t| == |t'|
      && forall i :: 0 <= i < |t| && i != |t| - 3 && i != |t| - 2 ==> t[i] == t'[i]
  {
  }

  // ---------------------------------------------------------------------
  // The privilege gate and the opens
  // ---------------------------------------------------------------------

  /**
   * A denial ends the call before any open, unmarshal or store operation:
   * the run is the lifecycle bracket, the checks, the reply and the closes.
   * The reply carries PermissionDenied, except in the handlers whose error
   * reply is always RecordNotFound.
   */
  lemma DeniedTouchesNothing(req: Request, env: Env, closes: Closes)
    requires CheckGate(GateOf(req), env).code != NoError
    ensures Run(req, env, closes) ==
      [CallActive] + CheckGate(GateOf(req), env).events + Closing(ReplyOf(req, env), closes)
    ensures ReplyOf(req, env) == Error(if RuleOf(req) == ByVariantFixed then RecordNotFound else PermissionDenied)
  {
    var g := CheckGate(GateOf(req), env);
    assert ReachReturn(req, env) == AtReturn(g.events, PermissionDenied, None, Initial(req));
  }

  /**
   * Mutating handlers other than the package-name delete run the read check,
   * then the write check only if the read check passed; the store is opened,
   * per-uid store first and in write mode, exactly when both passed.
   */
  lemma MutatingChecksReadThenWrite(req: Request, env: Env, closes: Closes)
    requires Mutating(req) && !req.AccountDeleteByPackageName?
    ensures var t, read, write := Run(req, env, closes), CheckRead(env.readProbe, env.engine),
                                  CheckWrite(env.writeProbe, env.engine);
      && Only(t, Check) == [PrivilegeChecked(AccountRead, read)]
                           + (if read == NoError then [PrivilegeChecked(AccountWrite, write)] else [])
      && (Only(t, Open) != [] <==> read == NoError && write == NoError)
      && (Only(t, Open) != [] ==> Only(t, Open)[0] == DbOpened(1, env.pid, req.uid, env.dbOpen))
  {
    RunChecks(req, env, closes);
    RunOpens(req, env, closes);
  }

  /**
   * Read-only handlers run the read check alone; the store is opened,
   * per-uid store first and in read mode, exactly when it passed.
   */
  lemma ReadOnlyChecksRead(req: Request, env: Env, closes: Closes)
    requires !Mutating(req)
    ensures var t, read := Run(req, env, closes), CheckRead(env.readProbe, env.engine);
      && Only(t, Check) == [PrivilegeChecked(AccountRead, read)]
      && (Only(t, Open) != [] <==> read == NoError)
      && (Only(t, Open) != [] ==> Only(t, Open)[0] == DbOpened(0, env.pid, req.uid, env.dbOpen))
  {
    RunChecks(req, env, closes);
    RunOpens(req, env, closes);
  }

  /**
   * The package-name delete runs the two checks only when the caller passes
   * `permission`; without it the run goes straight to the write-mode open.
   */
  lemma PermissionFlagDecidesChecks(packageName: string, permission: bool, uid: int, env: Env, closes: Closes)
    ensures var req := AccountDeleteByPackageName(packageName, permission, uid);
            var t, read, write := Run(req, env, closes), CheckRead(env.readProbe, env.engine),
                                  CheckWrite(env.writeProbe, env.engine);
      && (!permission ==> Only(t, Check) == [] && Only(t, Open) != [] && Only(t, Open)[0] == DbOpened(1, env.pid, uid, env.dbOpen))
      && (permission ==> Only(t, Check) == [PrivilegeChecked(AccountRead, read)]
                                          + (if read == NoError then [PrivilegeChecked(AccountWrite, write)] else []))
  {
    var req := AccountDeleteByPackageName(packageName, permission, uid);
    RunChecks(req, env, closes);
    RunOpens(req, env, closes);
  }

  /** Whichever way the gate went, the flag reaches the store operation unchanged. */
  lemma PermissionFlagReachesStore(req: Request, env: Env, closes: Closes)
    requires req.AccountDeleteByPackageName? && Prepare(req, env).code == NoError
    ensures Only(Run(req, env, closes), StoreKind)
            == [StoreCalled(DeleteByPackageName(req.packageName, req.permission, env.pid, req.uid))]
  {
    RunSteps(req, env, closes, StoreKind);
    ReachStore(req, env);
    StoreOf(req, env, StoreCalled(DeleteByPackageName(req.packageName, req.permission, env.pid, req.uid)));
  }

  /** The body's store calls, for a body that is that one call. */
  lemma StoreOf(req: Request, env: Env, e: Event)
    requires Body(req, env).events == [e] && e.StoreCalled?
    ensures Only(Body(req, env).events, StoreKind) == [e]
  {
    OnlyOne(e, StoreKind);
  }

  // ---------------------------------------------------------------------
  // Which reply a handler sends
  // ---------------------------------------------------------------------

  /**
   * A failed check or open sends its code back (RecordNotFound in the
   * handlers whose error reply is fixed), and nothing of the body runs.
   */
  lemma PreparationFailureReply(req: Request, env: Env)
    requires Prepare(req, env).code != NoError
    ensures ReachReturn(req, env).events == Prepare(req, env).events
    ensures ReplyOf(req, env) ==
      Error(if RuleOf(req) == ByVariantFixed then RecordNotFound else Prepare(req, env).code)
  {
  }

  /** A success reply is sent only when the gate and both opens passed. */
  lemma SuccessNeedsPreparation(req: Request, env: Env)
    ensures ReplyOf(req, env).Complete? ==>
      && CheckGate(GateOf(req), env).code == NoError
      && env.dbOpen == NoError
      && env.globalOpen == NoError
      && ReplyOf(req, env).completion == Completion(req)
  {
    var r := ReachReturn(req, env);
    if Prepare(req, env).code != NoError {
      assert r.code != NoError && r.variant.None?;
    }
  }

  /** The handlers that read a record from the call before touching the store. */
  predicate Unmarshals(req: Request) {
    req.AccountAdd? || req.AccountTypeAdd? || req.AccountUpdateById? || req.AccountUpdateByUserName?
    || req.AccountUpdateByIdEx? || req.AccountQueryById?
  }

  /** When the record cannot be built, these handlers skip the store. */
  lemma UnmarshalFailureSkipsStore(req: Request, env: Env, closes: Closes)
    requires Unmarshals(req) && Prepare(req, env).code == NoError && !env.recordOk
    ensures Only(Run(req, env, closes), StoreKind) == []
  {
    RunSteps(req, env, closes, StoreKind);
    ReachStore(req, env);
    UnmarshalFailureBody(req, env);
    OnlyOne(RecordBuilt(false), StoreKind);
  }

  lemma UnmarshalFailureBody(req: Request, env: Env)
    requires Unmarshals(req) && !env.recordOk
    ensures Body(req, env).events == [RecordBuilt(false)]
  {
  }

  /** ... and reply DbFailed; the extended update replies InvalidParameter. */
  lemma UnmarshalFailureReply(req: Request, env: Env)
    requires Unmarshals(req) && Prepare(req, env).code == NoError && !env.recordOk
    ensures ReplyOf(req, env) == Error(if req.AccountUpdateByIdEx? then InvalidParameter else DbFailed)
  {
  }

  /**
   * The account-type update does not look at the result of unmarshalling:
   * it calls the store with a NULL record ...
   */
  lemma TypeUpdateIgnoresUnmarshal(req: Request, env: Env, closes: Closes)
    requires req.TypeUpdateByAppId? && Prepare(req, env).code == NoError && !env.recordOk
    ensures Only(Run(req, env, closes), StoreKind) == [StoreCalled(UpdateTypeByAppId(None, req.appId))]
  {
    RunSteps(req, env, closes, StoreKind);
    ReachStore(req, env);
    TypeUpdateBody(req, env);
    OnlyBuiltThenStored(false, StoreCalled(UpdateTypeByAppId(None, req.appId)));
  }

  lemma OnlyBuiltThenStored(ok: bool, e: Event)
    requires e.StoreCalled?
    ensures Only([RecordBuilt(ok)] + [e], StoreKind) == [e]
  {
    OnlyAppend([RecordBuilt(ok)], [e], StoreKind);
    OnlyOne(RecordBuilt(ok), StoreKind);
    OnlyOne(e, StoreKind);
    assert [] + [e] == [e];
  }

  lemma TypeUpdateBody(req: Request, env: Env)
    requires req.TypeUpdateByAppId? && !env.recordOk
    ensures Body(req, env).events == [RecordBuilt(false)] + [StoreCalled(UpdateTypeByAppId(None, req.appId))]
  {
  }

  /** ... and replies with the store's code. */
  lemma TypeUpdateReply(req: Request, env: Env)
    requires req.TypeUpdateByAppId? && Prepare(req, env).code == NoError
    ensures ReplyOf(req, env) ==
      if env.answer.code != NoError then Error(env.answer.code) else Complete(Completion(req), Unit)
  {
  }

  /**
   * Three handlers complete with another method's completion function: the
   * user-name delete and update as their by-id forms, the capability-type
   * query as the capability query.
   */
  lemma BorrowedCompletions(userName: string, packageName: string, id: int, data: Row,
                            capabilityType: string, capabilityValue: int, uid: int)
    ensures Completion(AccountDeleteByUserName(userName, packageName, uid)) == Completion(AccountDeleteById(id, uid))
    ensures Completion(AccountUpdateByUserName(data, userName, packageName, uid))
            == Completion(AccountUpdateById(data, id, uid))
    ensures Completion(AccountQueryByCapabilityType(capabilityType, uid))
            == Completion(AccountQueryByCapability(capabilityType, capabilityValue, uid))
  {
  }

  /** Each handler completes through its own method, except the three that borrow another's. */
  lemma CompletionNamesOwnMethod(req: Request)
    ensures Completion(req) == MethodName(req) <==> !Borrows(req)
  {
    if req.AccountDeleteByUserName? {
      assert Completion(req) == "account_delete_from_db_by_id";
    } else if req.AccountUpdateByUserName? {
      assert Completion(req) == "account_update_to_db_by_id";
    } else if req.AccountQueryByCapabilityType? {
      assert Completion(req) == "account_query_account_by_capability";
    }
  }

  /** The handlers that fetch a list and marshal it into the reply. */
  predicate ListsRows(req: Request) {
    req.AccountQueryAll? || req.AccountTypeQueryAll? || req.AccountQueryByUserName?
    || req.AccountQueryByPackageName? || req.AccountQueryByCapability? || req.AccountQueryByCapabilityType?
    || req.CapabilityQueryByAccountId? || req.TypeQueryProviderFeatureByAppId? || req.TypeQueryByProviderFeature?
  }

  /**
   * An empty (NULL) list is RecordNotFound, whatever code the store gave
   * (the provider-feature type query jumps to `RETURN:` on a store failure,
   * and its reply there is RecordNotFound too).
   */
  lemma EmptyListNotFound(req: Request, env: Env)
    requires ListsRows(req) && Prepare(req, env).code == NoError && env.answer.rows == []
    ensures ReplyOf(req, env) == Error(RecordNotFound)
  {
  }

  /**
   * A non-empty list that marshals is a success reply carrying the whole
   * list, even when the store also returned an error code, except in the
   * one list handler that replies by code.
   */
  lemma NonEmptyListSucceeds(req: Request, env: Env)
    requires ListsRows(req) && Prepare(req, env).code == NoError && env.answer.rows != [] && env.marshalOk
    requires req.TypeQueryByProviderFeature? || RuleOf(req) == ByCode ==> env.answer.code == NoError
    ensures ReplyOf(req, env) == Complete(Completion(req), Variant(Some(Rows(env.answer.rows))))
  {
  }

  /**
   * Where the reply is chosen by the marshalled value alone, a marshalling
   * failure with no earlier error sends an error reply that carries NoError.
   */
  lemma MarshalFailureRepliesNoError(req: Request, env: Env)
    requires Prepare(req, env).code == NoError && !env.marshalOk
    requires || ((req.AccountQueryAll? || req.AccountTypeQueryAll?) && env.answer.rows != [])
             || (req.AccountQueryByPackageName? && env.answer.rows != [] && env.answer.code == NoError)
             || (req.AccountQueryById? && env.recordOk && env.answer.code == NoError)
    ensures ReplyOf(req, env) == Error(NoError)
  {
  }

  // ---------------------------------------------------------------------
  // A sequence of calls
  // ---------------------------------------------------------------------

  /** One handler invocation: the request and what its collaborators gave. */
  datatype Invocation = Invocation(req: Request, env: Env, closes: Closes)

  /** The calls made while serving `calls` one after another, as the handlers append them to the log. */
  function Serve(calls: seq<Invocation>): Trace {
    if calls == [] then []
    else
      var last := calls[|calls| - 1];
      Serve(calls[..|calls| - 1]) + Run(last.req, last.env, last.closes)
  }

  /** Entries and exits in strict alternation, `n` of each. */
  predicate Alternating(l: Trace, n: nat) {
    && |l| == 2 * n
    && forall i :: 0 <= i < |l| ==> l[i] == if i % 2 == 0 then CallActive else CallInactive
  }

  lemma AlternatingExtend(l: Trace, n: nat)
    requires Alternating(l, n)
    ensures Alternating(l + [CallActive, CallInactive], n + 1)
  {
    var l' := l + [CallActive, CallInactive];
    forall i | 0 <= i < |l'|
      ensures l'[i] == if i % 2 == 0 then CallActive else CallInactive
    {
      if i >= |l| {
        assert i == 2 * n || i == 2 * n + 1;
      }
    }
  }

  /**
   * Serving calls one after another enters and leaves the lifecycle in
   * strict alternation, so calls never overlap and the in-flight count is
   * back to zero after each call.
   */
  lemma {:induction false} SessionAlternates(calls: seq<Invocation>)
    ensures Alternating(Only(Serve(calls), Lifecycle), |calls|)
  {
    if calls != [] {
      var front, last := calls[..|calls| - 1], calls[|calls| - 1];
      SessionAlternates(front);
      OnlyAppend(Serve(front), Run(last.req, last.env, last.closes), Lifecycle);
      RunLifecycle(last.req, last.env, last.closes);
      AlternatingExtend(Only(Serve(front), Lifecycle), |front|);
    }
  }

  /** The replies of a sequence of calls, one per call, in call order. */
  predicate RepliesInOrder(r: Trace, calls: seq<Invocation>) {
    && |r| == |calls|
    && forall i :: 0 <= i < |r| ==> r[i] == Replied(ReplyOf(calls[i].req, calls[i].env))
  }

  lemma RepliesExtend(r: Trace, calls: seq<Invocation>, call: Invocation)
    requires RepliesInOrder(r, calls)
    ensures RepliesInOrder(r + [Replied(ReplyOf(call.req, call.env))], calls + [call])
  {
  }

  /** Serving calls one after another sends one reply per call, in call order. */
  lemma {:induction false} SessionRepliesOnce(calls: seq<Invocation>)
    ensures RepliesInOrder(Only(Serve(calls), ReplyKind), calls)
  {
    if calls != [] {
      var front, last := calls[..|calls| - 1], calls[|calls| - 1];
      SessionRepliesOnce(front);
      RunReply(last.req, last.env, last.closes);
      RepliesAppend(Serve(front), Run(last.req, last.env, last.closes), calls);
    }
  }

  lemma RepliesAppend(s: Trace, t: Trace, calls: seq<Invocation>)
    requires calls != []
    requires RepliesInOrder(Only(s, ReplyKind), calls[..|calls| - 1])
    requires Only(t, ReplyKind) == [Replied(ReplyOf(calls[|calls| - 1].req, calls[|calls| - 1].env))]
    ensures RepliesInOrder(Only(s + t, ReplyKind), calls)
  {
    var front, last := calls[..|calls| - 1], calls[|calls| - 1];
    OnlyAppend(s, t, ReplyKind);
    RepliesExtend(Only(s, ReplyKind), front, last);
    SplitLast(calls);
  }

  lemma SplitLast(calls: seq<Invocation>)
    requires calls != []
    ensures calls[..|calls| - 1] + [calls[|calls| - 1]] == calls
  {
  }
}
