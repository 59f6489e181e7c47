// The stand-alone analytics script (cloudflare_aggregated_analytics.py):
// the query template filled in with Python's `%` operator, the attempt loop
// that posts it, and `process_data`, which folds a reply into rows and
// per-account totals the way the package's `process_analytics_data` does,
// but keeps each account's totals in the result map while adding to them.

module AnalyticsScript {
  import opened Base
  import opened Text
  import opened Http
  import opened Analytics

  // ---------------------------------------------------------------------------
  // GRAPHQL_QUERY

  /** The template: the package's query text with `%s` at the three argument places. */
  const QueryPieces := [QueryHead, QueryAfterTag, QueryAfterStart, QueryTail]
  const GraphqlQuery := Holes(QueryPieces)

  /**
   * `GRAPHQL_QUERY % (account_tag, start_time, end_time)` is the package's
   * `build_analytics_query` of the same three arguments; with any other
   * number of arguments the operator raises.
   */
  lemma QueryFormats(args: seq<string>)
    ensures Format(GraphqlQuery, args)
      == if |args| == 3 then Ok(BuildAnalyticsQuery(args[0], args[1], args[2])) else Raised(FormatError)
  {
    HeadPlain();
    AfterTagPlain();
    AfterStartPlain();
    TailPlain();
    FormatFour(QueryHead, QueryAfterTag, QueryAfterStart, QueryTail, args);
  }

  /** A template of four `%`-free pieces and three holes takes exactly three arguments. */
  lemma FormatFour(p0: string, p1: string, p2: string, p3: string, args: seq<string>)
    requires '%' !in p0 && '%' !in p1 && '%' !in p2 && '%' !in p3
    ensures Format(Holes([p0, p1, p2, p3]), args)
      == if |args| == 3 then Ok(Fill(p0, args[0], p1, args[1], p2, args[2], p3)) else Raised(FormatError)
  {
    var pieces := [p0, p1, p2, p3];
    assert forall k :: 0 <= k < |pieces| ==> '%' !in pieces[k] by {
      forall k | 0 <= k < |pieces| ensures '%' !in pieces[k] {
        assert k == 0 || k == 1 || k == 2 || k == 3;
      }
    }
    FormatHoles(pieces, args);
    if |args| == 3 {
      FillFour(p0, p1, p2, p3, args);
    }
  }

  lemma FillFour(p0: string, p1: string, p2: string, p3: string, args: seq<string>)
    requires |args| == 3
    ensures Interleave([p0, p1, p2, p3], args) == Fill(p0, args[0], p1, args[1], p2, args[2], p3)
  {
    var a, b, c := args[0], args[1], args[2];
    var tail := p2 + c + p3;
    assert Interleave([p2, p3], args[2..]) == tail by {
      assert [p2, p3][1..] == [p3] && args[2..][1..] == [];
    }
    var mid := p1 + b + tail;
    assert Interleave([p1, p2, p3], args[1..]) == mid by {
      assert [p1, p2, p3][1..] == [p2, p3] && args[1..][1..] == args[2..];
    }
    assert Interleave([p0, p1, p2, p3], args) == p0 + a + mid by {
      assert [p0, p1, p2, p3][1..] == [p1, p2, p3];
    }
    calc {
      p0 + a + mid;
      { AppendAssociates(p0 + a, p1 + b, tail); }
      p0 + a + (p1 + b) + tail;
      { AppendAssociates(p0 + a, p1, b); }
      p0 + a + p1 + b + tail;
      { AppendAssociates(p0 + a + p1 + b, p2 + c, p3); }
      p0 + a + p1 + b + (p2 + c) + p3;
      { AppendAssociates(p0 + a + p1 + b, p2, c); }
      Fill(p0, a, p1, b, p2, c, p3);
    }
  }

  // ---------------------------------------------------------------------------
  // fetch_graphql_data

  /** Every reply but a 429 ends the attempt loop: a raised exception propagates out of it. */
  predicate Final(reply: Reply<Response>) {
    !(reply.Response? && reply.status == 429)
  }

  /** `data.get("data")` is truthy: present, and an object with at least one key. */
  predicate HasData(body: Response) {
    body.data.Some? && (body.data.value.viewer.Some? || body.data.value.otherKeys > 0)
  }

  /** What the loop returns on a reply that ends it. */
  function Outcome(reply: Reply<Response>): Result<Option<Response>> {
    match reply
    case Thrown => Raised(TransportError)
    case Response(status, body) =>
      if status != 200 then Ok(None)
      else if !HasData(body) then Ok(None)
      else Ok(Some(body))
  }

  /**
   * `fetch_graphql_data`: the query is formatted once and posted up to
   * `max_retries` times; the first reply that is not a 429 decides the
   * outcome, and when every attempt is rate-limited the result is None.
   */
  method FetchGraphqlData(accountTag: string, startTime: string, endTime: string,
                          replies: nat -> Reply<Response>, maxRetries: int)
    returns (r: Result<Option<Response>>, query: string, posts: nat)
    ensures query == BuildAnalyticsQuery(accountTag, startTime, endTime)
    ensures var first := FirstFinal(replies, Final, Attempts(maxRetries));
      && r == (if first.Some? then Outcome(replies(first.value)) else Ok(None))
      && posts == (if first.Some? then first.value + 1 else Attempts(maxRetries))
  {
    var args := [accountTag, startTime, endTime];
    QueryFormats(args);
    query := Format(GraphqlQuery, args).value;
    r, posts := PostQuery(replies, maxRetries);
    assert query == BuildAnalyticsQuery(accountTag, startTime, endTime);
  }

  /** The attempt loop of `fetch_graphql_data`, once the query is formatted. */
  method PostQuery(replies: nat -> Reply<Response>, maxRetries: int)
    returns (r: Result<Option<Response>>, posts: nat)
    ensures var first := FirstFinal(replies, Final, Attempts(maxRetries));
      && r == (if first.Some? then Outcome(replies(first.value)) else Ok(None))
      && posts == (if first.Some? then first.value + 1 else Attempts(maxRetries))
  {
    var n := Attempts(maxRetries);
    posts := 0;
    for attempt := 0 to n
      invariant posts == attempt
      invariant forall k :: 0 <= k < attempt ==> !Final(replies(k))
    {
      var reply := replies(attempt);
      posts := posts + 1;
      if reply.Thrown? {
        FirstFinalAt(replies, Final, n, attempt);
        return Raised(TransportError), posts;
      }
      if reply.status == 429 {
        continue;
      }
      FirstFinalAt(replies, Final, n, attempt);
      if reply.status != 200 {
        return Ok(None), posts;
      }
      var data := reply.body;
      if !HasData(data) {
        return Ok(None), posts;
      }
      return Ok(Some(data)), posts;
    }
    return Ok(None), posts;
  }

  /** A body is returned only from a 200 reply, and only when it has data. */
  lemma OutcomeReturnsData(reply: Reply<Response>)
    ensures Outcome(reply).Ok? && Outcome(reply).value.Some?
      <==> reply.Response? && reply.status == 200 && HasData(reply.body)
    ensures Outcome(reply).Ok? && Outcome(reply).value.Some? ==> Outcome(reply).value.value == reply.body
    ensures Outcome(reply).Raised? <==> reply.Thrown?
  {
  }

  /** A 200 reply with a "data" object is returned whatever keys it holds; only an empty object is not data. */
  lemma DataObjectTruthiness(body: Response)
    requires body.data.Some?
    ensures Outcome(Reply.Response(200, body)) == Ok(None) <==> body.data.value == Data(None, 0)
    ensures Outcome(Reply.Response(200, body)) != Ok(None) ==> Outcome(Reply.Response(200, body)) == Ok(Some(body))
  {
  }

  /**
   * A status other than 200 and 429 on attempt `i`, after `i` rate-limited
   * attempts, gives None with no further post.
   */
  lemma FailedStatusStops(replies: nat -> Reply<Response>, maxRetries: int, i: nat)
    requires i < Attempts(maxRetries)
    requires forall k :: 0 <= k < i ==> replies(k).Response? && replies(k).status == 429
    requires replies(i).Response? && replies(i).status != 200 && replies(i).status != 429
    ensures FirstFinal(replies, Final, Attempts(maxRetries)) == Some(i)
    ensures Outcome(replies(i)) == Ok(None)
  {
    FirstFinalAt(replies, Final, Attempts(maxRetries), i);
  }

  /** Rate-limited on every attempt: no reply ends the loop, and the result is None. */
  lemma AllRateLimitedGivesNone(replies: nat -> Reply<Response>, maxRetries: int)
    requires forall k :: 0 <= k < Attempts(maxRetries) ==> replies(k).Response? && replies(k).status == 429
    ensures FirstFinal(replies, Final, Attempts(maxRetries)) == None
  {
  }

  // ---------------------------------------------------------------------------
  // process_data

  /**
   * `process_data`: no rows and no totals without a reply or without its
   * "data"; otherwise the same rows and totals as the package's
   * `process_analytics_data`. Each account's entry of the map is set to
   * zero first and then added to in place, so an account that repeats an
   * earlier name starts again from zero.
   */
  method ProcessData(data: Option<Response>) returns (rows: seq<Row>, totals: map<string, Sums>)
    ensures data.None? || data.value.data.None? ==> rows == [] && totals == map[]
    ensures data.Some? && data.value.data.Some? ==>
      var accounts := AccountsOf(data.value.data.value);
      rows == AllRows(accounts) && totals == Totals(accounts)
  {
    if data.None? || data.value.data.None? {
      return [], map[];
    }
    rows := [];
    totals := map[];
    var accounts := AccountsOf(data.value.data.value);
    for i := 0 to |accounts|
      invariant rows == AllRows(accounts[..i])
      invariant totals == Totals(accounts[..i])
    {
      var account := accounts[i];
      ghost var before := totals;
      totals := totals[account.name := Zero];
      rows, totals := AccumulateAccount(account, rows, totals);
      ResetThenAdd(before, account.name, AccountTotal(account));
      AccountStep(accounts, i);
    }
    assert accounts[..|accounts|] == accounts;
  }

  /**
   * The zone loop of `process_data` for one account whose entry in `totals0`
   * is already there: appends the account's rows and adds its counters to
   * that entry, leaving the other entries alone.
   */
  method AccumulateAccount(account: Account, rows0: seq<Row>, totals0: map<string, Sums>)
    returns (rows: seq<Row>, totals: map<string, Sums>)
    requires account.name in totals0
    ensures rows == rows0 + AccountRows(account)
    ensures totals == totals0[account.name := Add(totals0[account.name], AccountTotal(account))]
  {
    var name := account.name;
    var zones := account.zones;
    rows, totals := rows0, totals0;
    for j := 0 to |zones|
      invariant rows == rows0 + ZonesRows(name, zones[..j])
      invariant totals == totals0[name := Add(totals0[name], SumZones(zones[..j]))]
    {
      ZoneRowsStep(rows0, name, zones, j);
      ZoneSumStep(zones, j);
      AddAssociates(totals0[name], SumZones(zones[..j]), SumGroups(zones[j].groups));
      rows, totals := AccumulateZone(name, zones[j], rows, totals);
    }
    assert zones[..|zones|] == zones;
  }

  /**
   * The entry loop of `process_data` for one zone: appends a row per entry
   * and adds each entry's counters, field by field, to the account's entry.
   */
  method AccumulateZone(name: string, zone: Zone, rows0: seq<Row>, totals0: map<string, Sums>)
    returns (rows: seq<Row>, totals: map<string, Sums>)
    requires name in totals0
    ensures rows == rows0 + GroupRows(name, zone.name, zone.groups)
    ensures totals == totals0[name := Add(totals0[name], SumGroups(zone.groups))]
  {
    var groups := zone.groups;
    rows, totals := rows0, totals0;
    for k := 0 to |groups|
      invariant rows == rows0 + GroupRows(name, zone.name, groups[..k])
      invariant totals == totals0[name := Add(totals0[name], SumGroups(groups[..k]))]
    {
      var stats := groups[k].sum;
      RowStep(rows0, name, zone.name, groups, k);
      SumStep(totals0[name], groups, k);
      rows := rows + [EntryRow(name, zone.name, groups[k])];
      totals := totals[name := totals[name].(requests := totals[name].requests + stats.requests)];
      totals := totals[name := totals[name].(cachedRequests := totals[name].cachedRequests + stats.cachedRequests)];
      totals := totals[name := totals[name].(bytes := totals[name].bytes + stats.bytes)];
      totals := totals[name := totals[name].(wafEvents := totals[name].wafEvents + stats.wafEvents)];
      totals := totals[name := totals[name].(rateLimitedRequests := totals[name].rateLimitedRequests + stats.rateLimitedRequests)];
    }
    assert groups[..|groups|] == groups;
  }

  /** Setting an entry to zero and then adding `v` to it leaves `v` there. */
  lemma ResetThenAdd(m: map<string, Sums>, k: string, v: Sums)
    ensures m[k := Zero][k := Add(m[k := Zero][k], v)] == m[k := v]
  {
    assert Add(Zero, v) == v;
  }

  /** One account more: its rows follow, and its total replaces any earlier one of its name. */
  lemma AccountStep(accounts: seq<Account>, i: nat)
    requires i < |accounts|
    ensures AllRows(accounts[..i + 1]) == AllRows(accounts[..i]) + AccountRows(accounts[i])
    ensures Totals(accounts[..i + 1]) == Totals(accounts[..i])[accounts[i].name := AccountTotal(accounts[i])]
  {
    assert accounts[..i + 1][..i] == accounts[..i];
  }

  lemma AddAssociates(a: Sums, b: Sums, c: Sums)
    ensures Add(Add(a, b), c) == Add(a, Add(b, c))
  {
  }
}
