/** `postToSocialMedia`: the client fans a post out to the `social-post`
    function, one call per connected account, and folds the settled results
    into one success or one error. The auth session, the account query and
    the function's replies are parameters; the calls run concurrently in the
    source and are modelled one after another, each seeing only its own
    reply. */
module SocialMediaService {
  import opened Wrappers
  import opened Types
  import opened Text
  import opened Http
  import Seqs

  datatype PostContent = PostContent(
    message: string,
    mediaUrl: Option<string>,
    scheduledFor: Option<Time>,
    platforms: seq<Platform>)

  /** One call of `social-post/<platform>`. */
  datatype Invocation = Invocation(
    platform: Platform,
    /** The `Authorization` header value. */
    authorization: string,
    message: string,
    mediaUrl: Option<string>,
    scheduledFor: Option<Time>,
    accountId: string)

  /** `Promise.allSettled`'s per-call result. */
  datatype Settled = Fulfilled(value: Option<Json>) | Rejected(reason: string)

  datatype Posting = Posting(result: Result<seq<Settled>>, calls: seq<Invocation>)

  const FailurePrefix: string := "Failed to post to some platforms: "

  /** `.in('platform', platforms).eq('user_id', uid)`. */
  function Matching(rows: seq<SocialAccount>, platforms: seq<Platform>, userId: string): seq<SocialAccount> {
    Seqs.Filter((a: SocialAccount) => a.platform in platforms && a.userId == userId, rows)
  }

  function InvocationFor(content: PostContent, sessionToken: Option<string>, a: SocialAccount): Invocation {
    Invocation(a.platform, "Bearer " + Show(sessionToken), content.message, content.mediaUrl,
               content.scheduledFor, a.id)
  }

  /** The settled result of one call from its reply. */
  function Settle(a: SocialAccount, reply: Response): (s: Settled)
    ensures s.Fulfilled? <==> IsOk(reply)
    ensures s.Rejected? ==> s.reason == OrElse(if reply.body.Some? then reply.body.value.message else None,
                                               "Failed to post to " + PlatformName(a.platform))
  {
    if IsOk(reply) then Fulfilled(reply.body)
    else
      var message := if reply.body.Some? then reply.body.value.message else None;
      Rejected(OrElse(message, "Failed to post to " + PlatformName(a.platform)))
  }

  function Reasons(results: seq<Settled>): (r: seq<string>)
    ensures |r| <= |results|
    ensures r == [] <==> forall k :: 0 <= k < |results| ==> results[k].Fulfilled?
  {
    if results == [] then []
    else if results[0].Rejected? then [results[0].reason] + Reasons(results[1..])
    else
      assert forall k :: 1 <= k < |results| ==> results[k] == results[1..][k - 1];
      Reasons(results[1..])
  }

  /** One settled result per account, each from that account's own reply. */
  function Results(accounts: seq<SocialAccount>, calls: seq<Invocation>, invoke: Invocation -> Response): (r: seq<Settled>)
    requires |calls| == |accounts|
    ensures |r| == |accounts|
    ensures forall k :: 0 <= k < |r| ==> r[k] == Settle(accounts[k], invoke(calls[k]))
  {
    seq(|accounts|, k requires 0 <= k < |accounts| => Settle(accounts[k], invoke(calls[k])))
  }

  /** The fan-out over the matched accounts and the fold of its results. */
  function FanOut(content: PostContent, accounts: seq<SocialAccount>, sessionToken: Option<string>,
                  invoke: Invocation -> Response): (p: Posting)
    ensures |p.calls| == |accounts|
    ensures forall k :: 0 <= k < |accounts| ==> p.calls[k] == InvocationFor(content, sessionToken, accounts[k])
    ensures p.result.Ok? <==> forall k :: 0 <= k < |accounts| ==> IsOk(invoke(p.calls[k]))
    ensures p.result.Ok? ==> p.result.value == Results(accounts, p.calls, invoke)
    ensures p.result.Err? ==> p.result.msg == FailurePrefix + Join(Reasons(Results(accounts, p.calls, invoke)), ", ")
  {
    var calls := Seqs.Map((a: SocialAccount) => InvocationFor(content, sessionToken, a), accounts);
    var results := Results(accounts, calls, invoke);
    var reasons := Reasons(results);
    if reasons != [] then Posting(Err(FailurePrefix + Join(reasons, ", ")), calls)
    else Posting(Ok(results), calls)
  }

  /** The whole call. `user` is the signed-in user's id, `query` the account
      query's error or rows, `invoke` the function's reply to each call. */
  function PostToSocialMedia(content: PostContent, user: Option<string>, query: Result<seq<SocialAccount>>,
                             sessionToken: Option<string>, invoke: Invocation -> Response): (p: Posting)
    ensures user.None? ==> p == Posting(Err("Not authenticated"), [])
    ensures user.Some? && query.Err? ==> p == Posting(Err(query.msg), [])
    ensures user.Some? && query.Ok? ==> |p.calls| == |Matching(query.value, content.platforms, user.value)|
    ensures p.result.Ok? ==> p.calls != [] && forall k :: 0 <= k < |p.calls| ==> IsOk(invoke(p.calls[k]))
  {
    if user.None? then Posting(Err("Not authenticated"), [])
    else if query.Err? then Posting(Err(query.msg), [])
    else
      var accounts := Matching(query.value, content.platforms, user.value);
      if |accounts| == 0 then Posting(Err("No connected social accounts found"), [])
      else FanOut(content, accounts, sessionToken, invoke)
  }

  /** Without a signed-in user nothing is posted. */
  lemma NotAuthenticated(content: PostContent, query: Result<seq<SocialAccount>>, token: Option<string>, invoke: Invocation -> Response)
    ensures PostToSocialMedia(content, None, query, token, invoke) == Posting(Err("Not authenticated"), [])
  {
  }

  /** With a user, exactly one call is made per account of that user on a
      requested platform, in the order of the rows, each naming its account;
      requested platforms without an account are skipped. */
  lemma OneCallPerMatchedAccount(content: PostContent, userId: string, rows: seq<SocialAccount>, token: Option<string>,
                                 invoke: Invocation -> Response)
    ensures var p := PostToSocialMedia(content, Some(userId), Ok(rows), token, invoke);
            var matched := Matching(rows, content.platforms, userId);
            && |p.calls| == |matched|
            && (forall k :: 0 <= k < |matched| ==>
                  p.calls[k].accountId == matched[k].id && p.calls[k].platform == matched[k].platform)
            && (forall a :: a in matched <==> a in rows && a.platform in content.platforms && a.userId == userId)
            && Seqs.IsSubsequence(matched, rows)
  {
    CallsFollowMatching(content, userId, rows, token, invoke);
    MatchingSelects(rows, content.platforms, userId);
  }

  lemma CallsFollowMatching(content: PostContent, userId: string, rows: seq<SocialAccount>, token: Option<string>,
                            invoke: Invocation -> Response)
    ensures var p := PostToSocialMedia(content, Some(userId), Ok(rows), token, invoke);
            var matched := Matching(rows, content.platforms, userId);
            && |p.calls| == |matched|
            && (forall k :: 0 <= k < |matched| ==>
                  p.calls[k].accountId == matched[k].id && p.calls[k].platform == matched[k].platform)
  {
    var matched := Matching(rows, content.platforms, userId);
    if matched != [] {
      assert PostToSocialMedia(content, Some(userId), Ok(rows), token, invoke) == FanOut(content, matched, token, invoke);
    }
  }

  lemma MatchingSelects(rows: seq<SocialAccount>, platforms: seq<Platform>, userId: string)
    ensures var matched := Matching(rows, platforms, userId);
            && (forall a :: a in matched <==> a in rows && a.platform in platforms && a.userId == userId)
            && Seqs.IsSubsequence(matched, rows)
  {
    Seqs.FilterIsSubsequence((a: SocialAccount) => a.platform in platforms && a.userId == userId, rows);
  }

  /** The post fails up front only when no account matches at all. */
  lemma FailsUpFrontOnlyWithoutAccounts(content: PostContent, userId: string, rows: seq<SocialAccount>,
                                        token: Option<string>, invoke: Invocation -> Response)
    ensures var p := PostToSocialMedia(content, Some(userId), Ok(rows), token, invoke);
            p.result == Err("No connected social accounts found") <==> Matching(rows, content.platforms, userId) == []
  {
    var matched := Matching(rows, content.platforms, userId);
    if matched != [] {
      var p := FanOut(content, matched, token, invoke);
      if p.result.Err? {
        var none: string := "No connected social accounts found";
        assert p.result.msg[0] == FailurePrefix[0] == 'F';
        assert none[0] == 'N';
        assert p.result.msg != none;
      }
    }
  }

  /** Each account's result depends on its own reply alone, and when every
      reply is OK the call returns one fulfilled result per account, in
      account order. */
  lemma AllSucceed(content: PostContent, userId: string, rows: seq<SocialAccount>, token: Option<string>,
                   invoke: Invocation -> Response)
    requires var matched := Matching(rows, content.platforms, userId);
             matched != [] && forall a :: a in matched ==> IsOk(invoke(InvocationFor(content, token, a)))
    ensures var p := PostToSocialMedia(content, Some(userId), Ok(rows), token, invoke);
            var matched := Matching(rows, content.platforms, userId);
            && p.result.Ok?
            && |p.result.value| == |matched|
            && forall k :: 0 <= k < |matched| ==>
                 p.result.value[k] == Fulfilled(invoke(InvocationFor(content, token, matched[k])).body)
  {
  }

  /** One failed call makes the whole post fail with the prefixed message,
      and that message names the failed call's reason. */
  lemma OneFailureFailsAll(content: PostContent, userId: string, rows: seq<SocialAccount>, token: Option<string>,
                           invoke: Invocation -> Response, k: nat)
    requires var matched := Matching(rows, content.platforms, userId);
             k < |matched| && !IsOk(invoke(InvocationFor(content, token, matched[k])))
    ensures var p := PostToSocialMedia(content, Some(userId), Ok(rows), token, invoke);
            var a := Matching(rows, content.platforms, userId)[k];
            && p.result.Err?
            && StartsWith(p.result.msg, FailurePrefix)
            && Contains(p.result.msg, Settle(a, invoke(InvocationFor(content, token, a))).reason)
  {
    var matched := Matching(rows, content.platforms, userId);
    var p := FanOut(content, matched, token, invoke);
    var results := Results(matched, p.calls, invoke);
    ReasonsHasEach(results, k);
    var reasons := Reasons(results);
    var i :| 0 <= i < |reasons| && reasons[i] == results[k].reason;
    JoinHasPart(reasons, ", ", i);
    PrefixKeepsContains(FailurePrefix, Join(reasons, ", "), reasons[i]);
  }

  /** Every rejected result's reason is among the reasons, in order. */
  lemma {:induction false} ReasonsHasEach(results: seq<Settled>, k: nat)
    requires k < |results| && results[k].Rejected?
    ensures exists i :: 0 <= i < |Reasons(results)| && Reasons(results)[i] == results[k].reason
  {
    if k == 0 {
      assert Reasons(results)[0] == results[0].reason;
    } else {
      ReasonsHasEach(results[1..], k - 1);
      var i :| 0 <= i < |Reasons(results[1..])| && Reasons(results[1..])[i] == results[1..][k - 1].reason;
      if results[0].Rejected? {
        assert Reasons(results)[i + 1] == results[k].reason;
      } else {
        assert Reasons(results)[i] == results[k].reason;
      }
    }
  }

  /** The reasons are exactly the rejected results' reasons, in order. */
  lemma {:induction false} ReasonsAreFailures(results: seq<Settled>)
    ensures Reasons(results) == Seqs.Map((s: Settled) => if s.Rejected? then s.reason else "",
                                         Seqs.Filter((s: Settled) => s.Rejected?, results))
  {
    if results != [] {
      ReasonsAreFailures(results[1..]);
    }
  }

  /** A reply without a `message` field, which is every reply the
      `social-post` function sends, is reported with the fixed text. */
  lemma ReasonWithoutMessage(a: SocialAccount, reply: Response)
    requires !IsOk(reply)
    requires reply.body.Some? ==> reply.body.value.message.None?
    ensures Settle(a, reply) == Rejected("Failed to post to " + PlatformName(a.platform))
  {
  }
}
