/** The integrations part of the settings page
    (src/pages/settings/Settings.tsx): the list of connections per
    platform, the OAuth callback that checks the returned state against
    the stored one and asks the `social-auth` function to exchange the
    code, and the disconnect handler. The query string, the signed-in
    user, the session, the function's reply and the table's replies are
    parameters. */
module Settings {
  import opened Wrappers
  import opened Types
  import opened Text
  import opened Http
  import Seqs
  import ClientStorage
  import Credentials
  import SocialConnect
  import SocialAuth

  datatype Status = Connected | Disconnected

  /** One row of the integrations list. */
  datatype Connection = Connection(platform: Platform, name: string, status: Status)

  const InitialConnections: seq<Connection> := [
    Connection(Facebook, "", Disconnected),
    Connection(Instagram, "", Disconnected),
    Connection(YouTube, "", Disconnected),
    Connection(TikTok, "", Disconnected)
  ]

  /** `pages?.[0]?.name || ''`. */
  function PageName(a: SocialAccount): (r: string)
    ensures a.pages.Some? && |a.pages.value| > 0 && a.pages.value[0].name.Some? ==> r == a.pages.value[0].name.value
    ensures a.pages.None? || a.pages.value == [] || a.pages.value[0].name.None? ==> r == ""
  {
    if a.pages.None? || |a.pages.value| == 0 then "" else OrElse(a.pages.value[0].name, "")
  }

  /** One entry after a fetch: connected, named after the first row of its
      platform, or disconnected with no name. */
  function Refreshed(c: Connection, accounts: seq<SocialAccount>): Connection {
    var row := Seqs.Find((a: SocialAccount) => a.platform == c.platform, accounts);
    if row.Some? then c.(status := Connected, name := PageName(row.value))
    else c.(status := Disconnected, name := "")
  }

  /** `prev.map(...)`: the list keeps its length and order; an entry is
      connected exactly when some fetched row has its platform. */
  function Refresh(prev: seq<Connection>, accounts: seq<SocialAccount>): (r: seq<Connection>)
    ensures |r| == |prev|
    ensures forall k :: 0 <= k < |r| ==> r[k].platform == prev[k].platform
    ensures forall k :: 0 <= k < |r| ==>
              (r[k].status == Connected <==> exists a :: a in accounts && a.platform == prev[k].platform)
    ensures forall k :: 0 <= k < |r| && r[k].status == Disconnected ==> r[k].name == ""
  {
    Seqs.Map((c: Connection) => Refreshed(c, accounts), prev)
  }

  /** A connected entry is named after the first fetched row of its
      platform. */
  lemma RefreshNamesFirstRow(prev: seq<Connection>, accounts: seq<SocialAccount>, k: nat, j: nat)
    requires k < |prev| && j < |accounts| && accounts[j].platform == prev[k].platform
    requires forall i :: 0 <= i < j ==> accounts[i].platform != prev[k].platform
    ensures Refresh(prev, accounts)[k] == Connection(prev[k].platform, PageName(accounts[j]), Connected)
  {
    var row := Seqs.Find((a: SocialAccount) => a.platform == prev[k].platform, accounts);
    var i :| 0 <= i < |accounts| && accounts[i] == row.value && accounts[i].platform == prev[k].platform
             && forall i' :: 0 <= i' < i ==> accounts[i'].platform != prev[k].platform;
    assert i == j;
  }

  /** The user's entry for a platform is connected exactly when the table
      holds a row for that (user, platform) pair. */
  lemma RefreshConnectedIffKey(prev: seq<Connection>, rows: seq<SocialAccount>, userId: string, k: nat)
    requires k < |prev|
    ensures Refresh(prev, Credentials.RowsOfUser(rows, userId))[k].status == Connected
            <==> Credentials.HasKey(rows, Credentials.Key(userId, prev[k].platform))
  {
    var mine := Credentials.RowsOfUser(rows, userId);
    var p := prev[k].platform;
    if Credentials.HasKey(rows, Credentials.Key(userId, p)) {
      var x :| x in rows && Credentials.KeyOf(x) == Credentials.Key(userId, p);
      assert x in mine;
    }
  }

  /** Over a well-keyed table, a connected entry is named after the user's
      one row for that platform. */
  lemma RefreshNamesTheRow(prev: seq<Connection>, rows: seq<SocialAccount>, userId: string, k: nat, x: SocialAccount)
    requires Credentials.WellKeyed(rows) && k < |prev|
    requires x in rows && Credentials.KeyOf(x) == Credentials.Key(userId, prev[k].platform)
    ensures Refresh(prev, Credentials.RowsOfUser(rows, userId))[k] == Connection(prev[k].platform, PageName(x), Connected)
  {
    var mine := Credentials.RowsOfUser(rows, userId);
    var p := prev[k].platform;
    assert x in mine;
    var f := Seqs.Find((a: SocialAccount) => a.platform == p, mine);
    var j0 :| 0 <= j0 < |mine| && mine[j0] == f.value && mine[j0].platform == p
              && forall i :: 0 <= i < j0 ==> mine[i].platform != p;
    assert mine[j0] in mine;
    Credentials.KeyIsUnique(rows, mine[j0], x);
    RefreshNamesFirstRow(prev, mine, k, j0);
  }

  /** Disconnecting a platform and fetching again shows that platform as
      disconnected, with no name, and every card of another platform as
      the fetch before the delete showed it. */
  lemma DisconnectThenRefresh(prev: seq<Connection>, rows: seq<SocialAccount>, userId: string, p: Platform, k: nat)
    requires Credentials.WellKeyed(rows) && k < |prev| && prev[k].platform == p
    ensures Refresh(prev, Credentials.RowsOfUser(Credentials.DeleteRows(rows, userId, p), userId))[k]
            == Connection(p, "", Disconnected)
    ensures forall j :: 0 <= j < |prev| && prev[j].platform != p ==>
              Refresh(prev, Credentials.RowsOfUser(Credentials.DeleteRows(rows, userId, p), userId))[j]
              == Refresh(prev, Credentials.RowsOfUser(rows, userId))[j]
  {
    var d := Credentials.DeleteRows(rows, userId, p);
    Credentials.DeleteRemovesOnlyThePair(rows, userId, p);
    RefreshConnectedIffKey(prev, d, userId, k);
    forall j | 0 <= j < |prev| && prev[j].platform != p
      ensures Refresh(prev, Credentials.RowsOfUser(d, userId))[j] == Refresh(prev, Credentials.RowsOfUser(rows, userId))[j]
    {
      OtherCardUnchanged(prev, rows, userId, p, j);
    }
  }

  lemma OtherCardUnchanged(prev: seq<Connection>, rows: seq<SocialAccount>, userId: string, p: Platform, j: nat)
    requires Credentials.WellKeyed(rows) && j < |prev| && prev[j].platform != p
    ensures Refresh(prev, Credentials.RowsOfUser(Credentials.DeleteRows(rows, userId, p), userId))[j]
            == Refresh(prev, Credentials.RowsOfUser(rows, userId))[j]
  {
    var d := Credentials.DeleteRows(rows, userId, p);
    var key := Credentials.Key(userId, prev[j].platform);
    Credentials.DeleteRemovesOnlyThePair(rows, userId, p);
    RefreshConnectedIffKey(prev, d, userId, j);
    RefreshConnectedIffKey(prev, rows, userId, j);
    if Credentials.HasKey(rows, key) {
      var x :| x in rows && Credentials.KeyOf(x) == key;
      assert x in d;
      RefreshNamesTheRow(prev, rows, userId, j, x);
      RefreshNamesTheRow(prev, d, userId, j, x);
    } else {
      assert !Credentials.HasKey(d, key);
    }
  }

  /** The query string of the page: `platform`, `code` and `state`. */
  datatype Query = Query(platform: Option<string>, code: Option<string>, state: Option<string>)

  datatype Callback = Skip | InvalidState | Proceed(platform: string, code: string, userId: string)

  /** The storage key the callback reads, from the raw `platform` value. */
  function CallbackKey(platform: string): string {
    platform + "_oauth_state"
  }

  /** The callback effect's decision: it acts only when the three
      parameters and the user id are all present, and proceeds only when
      the state equals the stored one. */
  function CallbackDecision(q: Query, userId: Option<string>, stored: map<string, string>): (c: Callback)
    ensures c.Skip? <==> !(TruthyOpt(q.platform) && TruthyOpt(q.code) && TruthyOpt(q.state) && TruthyOpt(userId))
    ensures c.InvalidState? <==> && !c.Skip?
                                 && !(CallbackKey(q.platform.value) in stored
                                      && stored[CallbackKey(q.platform.value)] == q.state.value)
    ensures c.Proceed? ==> c == Proceed(q.platform.value, q.code.value, userId.value)
  {
    if !(TruthyOpt(q.platform) && TruthyOpt(q.code) && TruthyOpt(q.state) && TruthyOpt(userId)) then Skip
    else
      var key := CallbackKey(q.platform.value);
      var storedState := if key in stored then Some(stored[key]) else None;
      if storedState != Some(q.state.value) then InvalidState
      else Proceed(q.platform.value, q.code.value, userId.value)
  }

  /** A callback that carries the state the connect card stored for the
      same platform proceeds to the exchange for that platform. */
  lemma ConnectThenCallback(p: Platform, suffix: string, code: string, userId: string, before: map<string, string>)
    requires code != "" && userId != ""
    ensures var stored := before[SocialConnect.StateKey(p) := SocialConnect.StateValue(p, suffix)];
            var q := Query(Some(PlatformName(p)), Some(code), Some(SocialConnect.StateValue(p, suffix)));
            CallbackDecision(q, Some(userId), stored) == Proceed(PlatformName(p), code, userId)
  {
    assert PlatformName(p) != "" by { assert |PlatformName(p)| > 0 by { match p case _ => } }
  }

  /** A state other than the stored one, or none stored at all, is
      refused. */
  lemma ForeignStateRefused(q: Query, userId: string, stored: map<string, string>)
    requires TruthyOpt(q.platform) && TruthyOpt(q.code) && TruthyOpt(q.state) && userId != ""
    requires CallbackKey(q.platform.value) !in stored || stored[CallbackKey(q.platform.value)] != q.state.value
    ensures CallbackDecision(q, Some(userId), stored) == InvalidState
  {
  }

  /** `getSession`'s reply. */
  datatype SessionReply = SessionReply(error: Option<string>, accessToken: Option<string>)

  /** The POST to `social-auth/<platform>-auth`. */
  datatype ExchangeCall = ExchangeCall(segment: string, authorization: string, userIdHeader: string, code: string)

  /** What `handleOAuthCallback` did: the call it made, if any, and whether
      it succeeded (then the list is fetched again) or the message of the
      error toast. */
  datatype Exchanged = Exchanged(call: Option<ExchangeCall>, outcome: Result<bool>)

  const ConnectFailed: string := "Failed to connect account"

  function ExchangeFor(platform: string, code: string, userId: string, token: string): ExchangeCall {
    ExchangeCall(platform + "-auth", "Bearer " + token, userId, code)
  }

  /** `handleOAuthCallback`. A reply body that is not JSON is taken as an
      empty object. */
  function OAuthCallback(platform: string, code: string, userId: string, session: SessionReply,
                         reply: ExchangeCall -> Response): (e: Exchanged)
    ensures e.call.Some? <==> session.error.None? && TruthyOpt(session.accessToken)
    ensures e.call.Some? ==> e.call.value == ExchangeFor(platform, code, userId, session.accessToken.value)
    ensures session.error.Some? ==> e.outcome == Err("Failed to get session")
    ensures session.error.None? && !TruthyOpt(session.accessToken) ==> e.outcome == Err("No access token available")
    ensures e.outcome.Ok? <==> && e.call.Some? && IsOk(reply(e.call.value))
                               && reply(e.call.value).body.Some? && reply(e.call.value).body.value.success == Some(true)
    ensures e.call.Some? && !IsOk(reply(e.call.value)) ==>
              e.outcome == Err(OrElse(if reply(e.call.value).body.Some? then reply(e.call.value).body.value.error else None,
                                      ConnectFailed))
    ensures e.call.Some? && IsOk(reply(e.call.value)) && e.outcome.Err? ==> e.outcome == Err(ConnectFailed)
  {
    if session.error.Some? then Exchanged(None, Err("Failed to get session"))
    else if !TruthyOpt(session.accessToken) then Exchanged(None, Err("No access token available"))
    else
      var call := ExchangeFor(platform, code, userId, session.accessToken.value);
      var response := reply(call);
      var body := if response.body.Some? then response.body.value else Json(None, None, None, None);
      if !IsOk(response) then Exchanged(Some(call), Err(OrElse(body.error, ConnectFailed)))
      else if body.success != Some(true) then Exchanged(Some(call), Err(ConnectFailed))
      else Exchanged(Some(call), Ok(true))
  }

  /** The exchange names the segment from which the server recovers the
      same platform, for both platforms it supports. */
  lemma ExchangeSegmentRoundTrip(p: Platform, code: string, userId: string, token: string)
    requires p == Facebook || p == YouTube
    ensures SocialAuth.StoredPlatform(ExchangeFor(PlatformName(p), code, userId, token).segment) == Some(p)
  {
    var seg := ExchangeFor(PlatformName(p), code, userId, token).segment;
    if p == Facebook {
      assert seg == "facebook-auth" by { assert PlatformName(p) == "facebook"; }
    } else {
      assert seg == "youtube-auth" by { assert PlatformName(p) == "youtube"; }
    }
    SocialAuth.StoredPlatformOfSegments();
  }

  /** The page's own state. */
  class SettingsPage {
    var connections: seq<Connection>
    var isLoading: bool

    constructor ()
      ensures connections == InitialConnections && isLoading
    {
      connections, isLoading := InitialConnections, true;
    }

    /** `fetchConnectedAccounts`: no query without a user id; otherwise the
        user's rows (or the query's error) refresh the list. The `finally`
        clears the loading flag on every path, the early return included. */
    method FetchConnectedAccounts(userId: Option<string>, rows: seq<SocialAccount>, failure: Option<string>)
      modifies this
      ensures !isLoading
      ensures !TruthyOpt(userId) ==> connections == old(connections)
      ensures TruthyOpt(userId) && failure.None? ==>
                connections == Refresh(old(connections), Credentials.RowsOfUser(rows, userId.value))
      ensures failure.Some? ==> connections == old(connections)
    {
      if TruthyOpt(userId) {
        isLoading := true;
        if failure.None? {
          connections := Refresh(connections, Credentials.RowsOfUser(rows, userId.value));
        }
      }
      isLoading := false;
    }

    /** The callback effect: a matching state is removed from storage and
        the URL replaced by `/settings`; a mismatch leaves storage as it
        was. Returns the decision and the navigation, if any. */
    method CheckCallback(storage: ClientStorage.LocalStorage, q: Query, userId: Option<string>)
      returns (c: Callback, navigateTo: Option<string>)
      modifies storage
      ensures c == CallbackDecision(q, userId, old(storage.items))
      ensures c.Proceed? ==> && storage.items == old(storage.items) - {CallbackKey(c.platform)}
                             && navigateTo == Some("/settings")
      ensures !c.Proceed? ==> storage.items == old(storage.items) && navigateTo.None?
    {
      c := CallbackDecision(q, userId, storage.items);
      navigateTo := None;
      if c.Proceed? {
        storage.RemoveItem(CallbackKey(c.platform));
        navigateTo := Some("/settings");
      }
    }

    /** `handleOAuthCallback` with the refetch it does on success. */
    method CompleteCallback(platform: string, code: string, userId: string, session: SessionReply,
                            reply: ExchangeCall -> Response, rows: seq<SocialAccount>, fetchFailure: Option<string>)
      returns (e: Exchanged)
      modifies this
      ensures e == OAuthCallback(platform, code, userId, session, reply)
      ensures e.outcome.Err? ==> connections == old(connections) && isLoading == old(isLoading)
      ensures e.outcome.Ok? ==> !isLoading
      ensures e.outcome.Ok? && userId != "" && fetchFailure.None? ==>
                connections == Refresh(old(connections), Credentials.RowsOfUser(rows, userId))
      ensures e.outcome.Ok? && (userId == "" || fetchFailure.Some?) ==> connections == old(connections)
    {
      e := OAuthCallback(platform, code, userId, session, reply);
      if e.outcome.Ok? {
        FetchConnectedAccounts(Some(userId), rows, fetchFailure);
      }
    }

    /** `handleDisconnect`: without a user id nothing happens; otherwise
        the (platform, user) row is deleted and, when that succeeded, the
        list is fetched again. Returns whether the delete succeeded. */
    method HandleDisconnect(table: Credentials.CredentialTable, p: Platform, userId: Option<string>,
                            deleteFailure: Option<string>, fetchFailure: Option<string>)
      returns (deleted: bool)
      requires table.Valid()
      modifies this, table
      ensures table.Valid()
      ensures deleted <==> TruthyOpt(userId) && deleteFailure.None?
      ensures !deleted ==> table.rows == old(table.rows) && connections == old(connections) && isLoading == old(isLoading)
      ensures deleted ==> !isLoading
      ensures deleted ==> table.rows == Credentials.DeleteRows(old(table.rows), userId.value, p)
      ensures deleted && fetchFailure.None? ==>
                connections == Refresh(old(connections), Credentials.RowsOfUser(table.rows, userId.value))
      ensures deleted && fetchFailure.Some? ==> connections == old(connections)
    {
      deleted := false;
      if !TruthyOpt(userId) {
        return;
      }
      var err := table.Delete(userId.value, p, deleteFailure);
      if err.None? {
        deleted := true;
        FetchConnectedAccounts(userId, table.rows, fetchFailure);
      }
    }
  }

  /** The card deletes the row and then calls the page's handler, which
      deletes it again: the second delete changes nothing. */
  lemma CardThenPageDelete(rows: seq<SocialAccount>, userId: string, p: Platform)
    requires Credentials.WellKeyed(rows)
    ensures Credentials.DeleteRows(Credentials.DeleteRows(rows, userId, p), userId, p)
            == Credentials.DeleteRows(rows, userId, p)
  {
    Credentials.DeleteRemovesOnlyThePair(rows, userId, p);
  }
}
