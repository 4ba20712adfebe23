/**
  The diagnostic endpoint. It assembles a status record one field at a time
  and never fails: every error raised while it looks at the store is caught
  and reported, cut to a short excerpt, in the `database` field.

  The store handle and the environment are inputs. `DbHandle` says whether a
  handle exists, what reading its `name` attribute does, and what listing its
  collections returns; each environment variable is the optional string the
  environment lookup would return.
*/
module Health {
  import opened Wrappers
  import opened Documents

  /** Reading the handle's `name`: a value, no such attribute, or an exception with its text. */
  datatype NameAttr = HasName(name: string) | NoName | NameRaises(message: string)

  datatype DbHandle =
    | NoHandle
    | Handle(nameAttr: NameAttr, listing: Result<seq<string>, string>)

  datatype Status = Status(
    backend: string,
    database: string,
    databaseUrl: Option<string>,
    databaseName: Option<string>,
    connectionStatus: string,
    collections: seq<string>)

  const MaxCollections: nat := 10
  const MaxErrorText: nat := 50

  const Ok: string := "\U{2705} "
  const Cross: string := "\U{274C} "
  const Warning: string := "\U{26A0}\U{FE0F}  "

  const Running: string := Ok + "Running"
  const NotAvailable: string := Cross + "Not Available"
  const Available: string := Ok + "Available"
  const Configured: string := Ok + "Configured"
  const ConnectedName: string := Ok + "Connected"
  const Working: string := Ok + "Connected & Working"
  const ListingErrorPrefix: string := Warning + "Connected but Error: "
  const NotInitialized: string := Warning + "Available but not initialized"
  const ErrorPrefix: string := Cross + "Error: "
  const IsSet: string := Ok + "Set"
  const NotSet: string := Cross + "Not Set"

  /** At most the first `n` elements of `s`, as the slice `s[:n]` gives. */
  function Take<T>(s: seq<T>, n: nat): (r: seq<T>)
    ensures |r| <= n
    ensures r <= s
    ensures |s| <= n ==> r == s
    ensures |s| > n ==> |r| == n
  {
    if |s| <= n then s else s[..n]
  }

  /** The value reported for an environment variable: only whether it is set and non-empty. */
  function EnvFlag(v: Option<string>): (r: string)
    ensures r == IsSet <==> v.Some? && v.value != ""
    ensures r == NotSet <==> v.None? || v.value == ""
  {
    if Truthy(v) then IsSet else NotSet
  }

  /** The database error text is a fixed prefix and at most fifty characters of the exception's text. */
  predicate ReportsError(database: string, prefix: string, message: string) {
    exists k: nat :: k <= MaxErrorText && k <= |message| && database == prefix + message[..k]
  }

  lemma ExcerptReported(prefix: string, message: string)
    ensures ReportsError(prefix + Take(message, MaxErrorText), prefix, message)
  {
    var k := |Take(message, MaxErrorText)|;
    assert Take(message, MaxErrorText) == message[..k];
  }

  method TestDatabase(db: DbHandle, databaseUrlEnv: Option<string>, databaseNameEnv: Option<string>)
    returns (response: Status)
    ensures response.backend == Running
    ensures response.databaseUrl == Some(EnvFlag(databaseUrlEnv))
    ensures response.databaseName == Some(EnvFlag(databaseNameEnv))
    ensures |response.collections| <= MaxCollections
    ensures db.NoHandle? ==>
      response.database == NotInitialized && response.connectionStatus == "Not Connected" && response.collections == []
    ensures db.Handle? && db.nameAttr.NameRaises? ==>
      && response.database == ErrorPrefix + Take(db.nameAttr.message, MaxErrorText)
      && ReportsError(response.database, ErrorPrefix, db.nameAttr.message)
      && response.connectionStatus == "Not Connected"
      && response.collections == []
    ensures db.Handle? && !db.nameAttr.NameRaises? ==> response.connectionStatus == "Connected"
    ensures db.Handle? && !db.nameAttr.NameRaises? && db.listing.Success? ==>
      && response.database == Working
      && response.collections <= db.listing.value
      && response.collections == Take(db.listing.value, MaxCollections)
    ensures db.Handle? && !db.nameAttr.NameRaises? && db.listing.Failure? ==>
      && response.database == ListingErrorPrefix + Take(db.listing.error, MaxErrorText)
      && ReportsError(response.database, ListingErrorPrefix, db.listing.error)
      && response.collections == []
  {
    response := Status(Running, NotAvailable, None, None, "Not Connected", []);
    // `raised` is the text of an exception that reached the outer handler.
    var raised: Option<string> := None;
    if db.Handle? {
      response := response.(database := Available);
      response := response.(databaseUrl := Some(Configured));
      match db.nameAttr {
        case HasName(name) =>
          response := response.(databaseName := Some(name));
        case NoName =>
          response := response.(databaseName := Some(ConnectedName));
        case NameRaises(message) =>
          raised := Some(message);
      }
      if raised.None? {
        response := response.(connectionStatus := "Connected");
        match db.listing {
          case Success(names) =>
            response := response.(collections := Take(names, MaxCollections));
            response := response.(database := Working);
          case Failure(message) =>
            response := response.(database := ListingErrorPrefix + Take(message, MaxErrorText));
            ExcerptReported(ListingErrorPrefix, message);
        }
      }
    } else {
      response := response.(database := NotInitialized);
    }
    if raised.Some? {
      response := response.(database := ErrorPrefix + Take(raised.value, MaxErrorText));
      ExcerptReported(ErrorPrefix, raised.value);
    }
    response := response.(databaseUrl := Some(EnvFlag(databaseUrlEnv)));
    response := response.(databaseName := Some(EnvFlag(databaseNameEnv)));
  }
}
