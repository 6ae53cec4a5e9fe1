/**
 * The account service's error taxonomy, and the table that registers a
 * D-Bus error name for each code (server/src/account-server.c:55-74).
 */
module Errors {
  import opened Wrappers

  /** The `_ACCOUNT_ERROR_*` codes, in the order of the registration table. */
  datatype ErrorCode =
    | NoError
    | OutOfMemory
    | InvalidParameter
    | Duplicated
    | NoData
    | RecordNotFound
    | DbFailed
    | DbNotOpened
    | QuerySyntaxError
    | IteratorEnd
    | NotiFailed
    | PermissionDenied
    | XmlParseFailed
    | XmlFileNotFound
    | EventSubscriptionFail
    | NotRegisteredProvider
    | NotAllowMultiple
    | DatabaseBusy

  /** One row of `_account_svc_errors`: a code and the suffix appended to the service's error prefix. */
  datatype Entry = Entry(code: ErrorCode, name: string)

  /** The registration table, with its spellings as they are (".QuerySynTaxError", ".NotiFalied", ...). */
  const SvcErrors: seq<Entry> := [
    Entry(NoError, ".NoError"),
    Entry(OutOfMemory, ".OutOfMemory"),
    Entry(InvalidParameter, ".InvalidParameter"),
    Entry(Duplicated, ".Duplicated"),
    Entry(NoData, ".NoData"),
    Entry(RecordNotFound, ".RecordNotFound"),
    Entry(DbFailed, ".DBFailed"),
    Entry(DbNotOpened, ".DBNotOpened"),
    Entry(QuerySyntaxError, ".QuerySynTaxError"),
    Entry(IteratorEnd, ".IteratorEnd"),
    Entry(NotiFailed, ".NotiFalied"),
    Entry(PermissionDenied, ".PermissionDenied"),
    Entry(XmlParseFailed, ".XMLParseFailed"),
    Entry(XmlFileNotFound, ".FileNotFound"),
    Entry(EventSubscriptionFail, ".SubscriptionFailed"),
    Entry(NotRegisteredProvider, ".NotRegisteredProvider"),
    Entry(NotAllowMultiple, ".NotAllowMultiple"),
    Entry(DatabaseBusy, ".database_busy")
  ]

  /** The name a table registers for `code`: that of its first row with this code. */
  function NameOf(table: seq<Entry>, code: ErrorCode): (r: Option<string>)
    ensures r.Some? <==> exists i :: 0 <= i < |table| && table[i].code == code
    ensures r.Some? ==> exists i :: 0 <= i < |table| && table[i] == Entry(code, r.value)
  {
    if table == [] then None
    else if table[0].code == code then Some(table[0].name)
    else NameOf(table[1..], code)
  }

  /** The code a table registers under `name`: that of its first row with this name. */
  function CodeOf(table: seq<Entry>, name: string): (r: Option<ErrorCode>)
    ensures r.Some? <==> exists i :: 0 <= i < |table| && table[i].name == name
    ensures r.Some? ==> exists i :: 0 <= i < |table| && table[i] == Entry(r.value, name)
  {
    if table == [] then None
    else if table[0].name == name then Some(table[0].code)
    else CodeOf(table[1..], name)
  }

  /** No two rows of the table share a name. */
  predicate NamesDistinct(table: seq<Entry>) {
    forall i, j :: 0 <= i < j < |table| ==> table[i].name != table[j].name
  }

  /** With distinct names, looking up a code's name and then that name's code gives the code back. */
  lemma {:induction false} NameThenCode(table: seq<Entry>, code: ErrorCode)
    requires NamesDistinct(table)
    requires NameOf(table, code).Some?
    ensures CodeOf(table, NameOf(table, code).value) == Some(code)
  {
    if table[0].code != code {
      var n := NameOf(table, code).value;
      assert NamesDistinct(table[1..]) by {
        forall i, j | 0 <= i < j < |table[1..]| ensures table[1..][i].name != table[1..][j].name {
          assert table[1..][i] == table[i + 1] && table[1..][j] == table[j + 1];
        }
      }
      NameThenCode(table[1..], code);
      var k :| 0 <= k < |table[1..]| && table[1..][k] == Entry(code, n);
      assert table[k + 1].name == n;
      assert table[0].name != n;
    }
  }

  /** The registered table never reuses a name. */
  lemma SvcErrorsDistinct()
    ensures NamesDistinct(SvcErrors)
  {
  }

  /** The registered table names every code. */
  lemma SvcErrorsComplete(code: ErrorCode)
    ensures NameOf(SvcErrors, code).Some?
  {
    var i :=
      match code
      case NoError => 0
      case OutOfMemory => 1
      case InvalidParameter => 2
      case Duplicated => 3
      case NoData => 4
      case RecordNotFound => 5
      case DbFailed => 6
      case DbNotOpened => 7
      case QuerySyntaxError => 8
      case IteratorEnd => 9
      case NotiFailed => 10
      case PermissionDenied => 11
      case XmlParseFailed => 12
      case XmlFileNotFound => 13
      case EventSubscriptionFail => 14
      case NotRegisteredProvider => 15
      case NotAllowMultiple => 16
      case DatabaseBusy => 17;
    assert SvcErrors[i].code == code;
  }

  /** The D-Bus error name (after the service prefix) a reply carrying `code` is sent with. */
  function ErrorName(code: ErrorCode): (name: string)
    ensures Entry(code, name) in SvcErrors
    ensures CodeOf(SvcErrors, name) == Some(code)
  {
    SvcErrorsComplete(code);
    SvcErrorsDistinct();
    NameThenCode(SvcErrors, code);
    NameOf(SvcErrors, code).value
  }
}
