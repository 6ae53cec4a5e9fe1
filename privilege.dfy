/**
 * The privilege gate: derive the caller's credentials from the D-Bus
 * invocation, ask the policy engine (cynara) about one privilege, and turn
 * the outcome into exactly one result code (server/src/account-server.c:129-235).
 * Every failure on the way is a denial: the gate fails closed.
 */
module Privilege {
  import opened Wrappers
  import opened Errors

  const AccountRead := "http://tizen.org/privilege/account.read"
  const AccountWrite := "http://tizen.org/privilege/account.write"

  /** What `cynara_check` answers. */
  datatype CynaraAnswer =
    | AccessAllowed
    | AccessDenied
    | OtherAnswer(code: int)  // any other return value: an engine error, "not resolved", ...

  /**
   * The policy engine, as a function of (client, session, user, privilege).
   * The engine itself is outside this model; only its answer matters.
   */
  type PolicyEngine = (string, string, string, string) -> CynaraAnswer

  /**
   * What the transport and the credential library report for one invocation,
   * one field per lookup. A lookup that fails (a NULL pointer, or a return
   * value other than CYNARA_API_SUCCESS) is `false` or `None`.
   */
  datatype Probe = Probe(
    connection: bool,        // g_dbus_method_invocation_get_connection
    sender: Option<string>,  // g_dbus_method_invocation_get_sender
    user: Option<string>,    // cynara_creds_gdbus_get_user
    client: Option<string>,  // cynara_creds_gdbus_get_client
    session: Option<string>  // cynara_session_from_pid on the caller's pid
  )

  /** The three strings handed to the policy engine. */
  datatype Credentials = Credentials(client: string, user: string, session: string)

  /**
   * `__get_information_for_cynara_check`: the lookups run in the order
   * connection, sender, user, client, session, and the first that fails ends
   * the derivation (the C function then returns -1).
   */
  function GetInformationForCheck(p: Probe): (r: Option<Credentials>)
    ensures r.Some? <==>
      p.connection && p.sender.Some? && p.user.Some? && p.client.Some? && p.session.Some?
    ensures r.Some? ==> r.value == Credentials(p.client.value, p.user.value, p.session.value)
  {
    if !p.connection then None
    else if p.sender.None? then None
    else if p.user.None? then None
    else if p.client.None? then None
    else if p.session.None? then None
    else Some(Credentials(p.client.value, p.user.value, p.session.value))
  }

  /** `__check_privilege_by_cynara`: only an explicit "allowed" grants; anything else denies. */
  function CheckByCynara(engine: PolicyEngine, c: Credentials, privilege: string): (r: ErrorCode)
    ensures r == NoError || r == PermissionDenied
    ensures r == NoError <==> engine(c.client, c.session, c.user, privilege) == AccessAllowed
  {
    match engine(c.client, c.session, c.user, privilege)
    case AccessAllowed => NoError
    case AccessDenied => PermissionDenied
    case OtherAnswer(_) => PermissionDenied
  }

  /** `_check_privilege`: NoError when the caller holds `privilege`, PermissionDenied otherwise. */
  function CheckPrivilege(p: Probe, engine: PolicyEngine, privilege: string): (r: ErrorCode)
    ensures r == NoError || r == PermissionDenied
    ensures r == NoError <==>
      && p.connection && p.sender.Some? && p.user.Some? && p.client.Some? && p.session.Some?
      && engine(p.client.value, p.session.value, p.user.value, privilege) == AccessAllowed
  {
    match GetInformationForCheck(p)
    case None => PermissionDenied
    case Some(c) => CheckByCynara(engine, c, privilege)
  }

  /** `_check_priviliege_account_read` */
  function CheckRead(p: Probe, engine: PolicyEngine): (r: ErrorCode)
    ensures r == NoError || r == PermissionDenied
    ensures r == NoError <==>
      && p.connection && p.sender.Some? && p.user.Some? && p.client.Some? && p.session.Some?
      && engine(p.client.value, p.session.value, p.user.value, AccountRead) == AccessAllowed
  {
    CheckPrivilege(p, engine, AccountRead)
  }

  /** `_check_priviliege_account_write` */
  function CheckWrite(p: Probe, engine: PolicyEngine): (r: ErrorCode)
    ensures r == NoError || r == PermissionDenied
    ensures r == NoError <==>
      && p.connection && p.sender.Some? && p.user.Some? && p.client.Some? && p.session.Some?
      && engine(p.client.value, p.session.value, p.user.value, AccountWrite) == AccessAllowed
  {
    CheckPrivilege(p, engine, AccountWrite)
  }
}
