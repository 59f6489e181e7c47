// cf_box/aggregated_analytics.py: the GraphQL query for one account's daily
// HTTP request groups, and the folding of the reply into one row per group
// and five counters per account.

module Analytics {
  import opened Base
  import opened Text

  // ---------------------------------------------------------------------------
  // The reply, as far as the aggregation reads it. A missing `zones` or
  // `httpRequests1dGroups` list is empty; a missing `viewer` or `data` is None.

  datatype Dimensions = Dimensions(country: Option<string>, httpMethod: Option<string>)

  /** The five summed counters of a group; also the shape of an account's totals. */
  datatype Sums = Sums(requests: int, cachedRequests: int, bytes: int, wafEvents: int, rateLimitedRequests: int)

  datatype Group = Group(dimensions: Dimensions, sum: Sums)
  datatype Zone = Zone(name: string, groups: seq<Group>)
  datatype Account = Account(name: string, zones: seq<Zone>)
  datatype Viewer = Viewer(accounts: seq<Account>)

  /**
   * The "data" object: its `viewer` object, if it has one, and how many
   * other keys it holds (a `viewer` whose value is not an object counts
   * among them), which decide whether the object is empty.
   */
  datatype Data = Data(viewer: Option<Viewer>, otherKeys: nat)

  /** The parsed reply; `None`, `{}` and a reply without "data" all read as `Response(None)`. */
  datatype Response = Response(data: Option<Data>)

  /**
   * One result row: account and zone name, the two dimensions, and the
   * counters (`cached_requests`, `waf_events` and `rate_limited_requests`
   * under their snake_case keys).
   */
  datatype Row = Row(accountName: string, zone: string, country: string, httpMethod: string, sums: Sums)

  const Zero := Sums(0, 0, 0, 0, 0)

  function Add(a: Sums, b: Sums): Sums {
    Sums(a.requests + b.requests, a.cachedRequests + b.cachedRequests, a.bytes + b.bytes,
         a.wafEvents + b.wafEvents, a.rateLimitedRequests + b.rateLimitedRequests)
  }

  // ---------------------------------------------------------------------------
  // build_analytics_query

  /** `n` spaces. */
  function Indent(n: nat): (r: string)
    ensures |r| == n && forall k :: 0 <= k < n ==> r[k] == ' '
  {
    seq(n, _ => ' ')
  }

  /** Query text: each part is an indentation of that many spaces followed by its text. */
  function Indented(parts: seq<(nat, string)>): string {
    if parts == [] then [] else Indent(parts[0].0) + parts[0].1 + Indented(parts[1..])
  }

  /**
   * The text of the query around its three arguments, line by line, as
   * indentations and texts; each of the three arguments stands between
   * double quotes.
   */
  const HeadParts := [
    (0, "\n"),
    (0, "query {\n"),
    (2, "viewer {\n"),
    (4, "accounts(filter: { accountTag: \"")]
  const AfterTagParts := [
    (0, "\" }) {\n"),
    (6, "name\n"),
    (6, "zones {\n"),
    (8, "name\n"),
    (8, "httpRequests1dGroups(\n"),
    (10, "limit: 100,\n"),
    (10, "filter: { datetime_geq: \"")]
  const AfterStartParts := [
    (0, "\", datetime_leq: \"")]
  const TailOpenParts := [
    (0, "\" }\n"),
    (8, ") {\n")]
  const DimensionsParts := [
    (10, "dimensions {\n"),
    (12, "datetime\n"),
    (12, "clientCountryName\n"),
    (12, "clientRequestHTTPMethodName\n"),
    (10, "}\n")]
  const SumParts := [
    (10, "sum {\n"),
    (12, "requests\n"),
    (12, "cachedRequests\n"),
    (12, "bytes\n"),
    (12, "encryptedRequests\n"),
    (12, "wafEvents\n"),
    (12, "rateLimitedRequests\n"),
    (10, "}\n")]
  const CloseParts := [
    (8, "}\n"),
    (6, "}\n"),
    (4, "}\n"),
    (2, "}\n"),
    (0, "}\n")]

  const QueryHead := Indented(HeadParts)
  const QueryAfterTag := Indented(AfterTagParts)
  const QueryAfterStart := Indented(AfterStartParts)
  const QueryDimensions := Indented(DimensionsParts)
  const QuerySum := Indented(SumParts)
  const QueryClose := Indented(CloseParts)
  const QueryTail := Indented(TailOpenParts) + QueryDimensions + QuerySum + QueryClose

  /** Spaces hold no character other than a space. */
  lemma IndentPlain(c: char, n: nat)
    requires c != ' '
    ensures c !in Indent(n)
  {
  }

  /** Indented text holds no character other than a space that none of its parts' texts holds. */
  lemma {:induction false} IndentedPlain(c: char, parts: seq<(nat, string)>)
    requires c != ' ' && forall k :: 0 <= k < |parts| ==> c !in parts[k].1
    ensures c !in Indented(parts)
  {
    if parts != [] {
      IndentPlain(c, parts[0].0);
      IndentedPlain(c, parts[1..]);
      NotInAppend(c, Indent(parts[0].0), parts[0].1);
      NotInAppend(c, Indent(parts[0].0) + parts[0].1, Indented(parts[1..]));
    }
  }

  /** None of the template's fixed pieces holds a `%`. */
  lemma HeadPlain()
    ensures '%' !in QueryHead
  {
    IndentedPlain('%', HeadParts);
  }

  lemma AfterTagPlain()
    ensures '%' !in QueryAfterTag
  {
    IndentedPlain('%', AfterTagParts);
  }

  lemma AfterStartPlain()
    ensures '%' !in QueryAfterStart
  {
    IndentedPlain('%', AfterStartParts);
  }

  lemma TailPlain()
    ensures '%' !in QueryTail
  {
    IndentedPlain('%', TailOpenParts);
    DimensionsPlain();
    SumPlain();
    ClosePlain();
    var open := Indented(TailOpenParts);
    NotInAppend('%', open, QueryDimensions);
    NotInAppend('%', open + QueryDimensions, QuerySum);
    NotInAppend('%', open + QueryDimensions + QuerySum, QueryClose);
  }

  lemma DimensionsPlain()
    ensures '%' !in QueryDimensions
  {
    IndentedPlain('%', DimensionsParts);
  }

  lemma SumPlain()
    ensures '%' !in QuerySum
  {
    IndentedPlain('%', SumParts);
  }

  lemma ClosePlain()
    ensures '%' !in QueryClose
  {
    IndentedPlain('%', CloseParts);
  }

  function BuildAnalyticsQuery(accountTag: string, startTime: string, endTime: string): string {
    Fill(QueryHead, accountTag, QueryAfterTag, startTime, QueryAfterStart, endTime, QueryTail)
  }

  /** A template of three holes, filled in. */
  function Fill(head: string, a: string, p1: string, b: string, p2: string, c: string, p3: string): string {
    head + a + p1 + b + p2 + c + p3
  }

  /**
   * Reads back a value up to the next double quote, which must open `piece`;
   * gives the value and what follows the piece.
   */
  function Field(r: string, piece: string): (p: Option<(string, string)>)
    ensures p.Some? ==> r == p.value.0 + piece + p.value.1 && '"' !in p.value.0
  {
    if '"' !in r then None
    else
      var i := IndexOf(r, '"');
      if |piece| <= |r| - i && r[i..i + |piece|] == piece then
        assert r == r[..i] + piece + r[i + |piece|..];
        Some((r[..i], r[i + |piece|..]))
      else None
  }

  lemma {:induction false} FieldOf(v: string, piece: string, rest: string)
    requires '"' !in v && |piece| > 0 && piece[0] == '"'
    ensures Field(v + piece + rest, piece) == Some((v, rest))
  {
    var r := v + piece + rest;
    IndexOfSplit(v, '"', piece[1..] + rest);
    assert r == v + ['"'] + (piece[1..] + rest);
    assert r[|v|..|v| + |piece|] == piece;
  }

  /** The three holes of a text made by Fill from the same template, read back by their positions. */
  function Read(q: string, head: string, p1: string, p2: string, p3: string): Option<(string, string, string)> {
    if |q| < |head| || q[..|head|] != head then None
    else
      match Field(q[|head|..], p1)
      case None => None
      case Some((a, r1)) =>
        match Field(r1, p2)
        case None => None
        case Some((b, r2)) =>
          match Field(r2, p3)
          case None => None
          case Some((c, r3)) => if r3 == [] then Some((a, b, c)) else None
  }

  lemma {:induction false} ReadFill(head: string, a: string, p1: string, b: string, p2: string, c: string, p3: string)
    requires '"' !in a && '"' !in b && '"' !in c
    requires |p1| > 0 && p1[0] == '"' && |p2| > 0 && p2[0] == '"' && |p3| > 0 && p3[0] == '"'
    ensures Read(Fill(head, a, p1, b, p2, c, p3), head, p1, p2, p3) == Some((a, b, c))
  {
    var q := Fill(head, a, p1, b, p2, c, p3);
    var r2 := c + p3 + [];
    var r1 := b + p2 + r2;
    var r0 := a + p1 + r1;
    assert q == head + r0;
    assert q[..|head|] == head && q[|head|..] == r0;
    FieldOf(a, p1, r1);
    FieldOf(b, p2, r2);
    FieldOf(c, p3, []);
  }

  lemma {:induction false} FillRead(q: string, head: string, p1: string, p2: string, p3: string)
    requires Read(q, head, p1, p2, p3).Some?
    ensures var (a, b, c) := Read(q, head, p1, p2, p3).value;
      && '"' !in a && '"' !in b && '"' !in c
      && q == Fill(head, a, p1, b, p2, c, p3)
  {
    var body := q[|head|..];
    var (a, r1) := Field(body, p1).value;
    var (b, r2) := Field(r1, p2).value;
    var (c, r3) := Field(r2, p3).value;
    assert Read(q, head, p1, p2, p3) == Some((a, b, c)) && r3 == [] && q[..|head|] == head;
    Glue(q, head, a, p1, b, p2, c, p3, r1, r2);
  }

  /** The pieces read back, glued together again, give the whole text. */
  lemma Glue(q: string, head: string, a: string, p1: string, b: string, p2: string, c: string, p3: string,
             r1: string, r2: string)
    requires |head| <= |q| && q[..|head|] == head
    requires q[|head|..] == a + p1 + r1 && r1 == b + p2 + r2 && r2 == c + p3 + []
    ensures q == Fill(head, a, p1, b, p2, c, p3)
  {
    assert q == head + q[|head|..];
    Associate(head, a, p1, b, p2, c, p3);
  }

  lemma Associate(a: string, b: string, c: string, d: string, e: string, f: string, g: string)
    ensures a + (b + c + (d + e + (f + g))) == a + b + c + d + e + f + g
  {
  }

  /** The three arguments of a query built by BuildAnalyticsQuery, read back by their positions. */
  function ParseAnalyticsQuery(q: string): Option<(string, string, string)> {
    Read(q, QueryHead, QueryAfterTag, QueryAfterStart, QueryTail)
  }

  /**
   * The account tag and the two times stand verbatim at their places in the
   * query: arguments without a double quote are read back from it.
   */
  lemma QueryRoundTrip(accountTag: string, startTime: string, endTime: string)
    requires '"' !in accountTag && '"' !in startTime && '"' !in endTime
    ensures ParseAnalyticsQuery(BuildAnalyticsQuery(accountTag, startTime, endTime)) == Some((accountTag, startTime, endTime))
  {
    assert QueryAfterTag[0] == '"' && QueryAfterStart[0] == '"' && QueryTail[0] == '"';
    ReadFill(QueryHead, accountTag, QueryAfterTag, startTime, QueryAfterStart, endTime, QueryTail);
  }

  /** Conversely, every query the parser accepts is the one built from what it reads. */
  lemma ParsedQueryBuilds(q: string)
    requires ParseAnalyticsQuery(q).Some?
    ensures var (tag, start, end) := ParseAnalyticsQuery(q).value;
      && '"' !in tag && '"' !in start && '"' !in end
      && q == BuildAnalyticsQuery(tag, start, end)
  {
    FillRead(q, QueryHead, QueryAfterTag, QueryAfterStart, QueryTail);
  }

  // ---------------------------------------------------------------------------
  // The aggregation, as functions of the reply

  /** The row of one group: a missing dimension reads "Unknown". */
  function EntryRow(accountName: string, zoneName: string, g: Group): Row {
    Row(accountName, zoneName, g.dimensions.country.GetOr("Unknown"), g.dimensions.httpMethod.GetOr("Unknown"), g.sum)
  }

  /** The rows of one zone's groups, in the groups' order. */
  function GroupRows(accountName: string, zoneName: string, groups: seq<Group>): seq<Row> {
    if groups == [] then []
    else GroupRows(accountName, zoneName, groups[..|groups| - 1]) + [EntryRow(accountName, zoneName, groups[|groups| - 1])]
  }

  /**
   * The k-th row of a zone is made from its k-th group: it names the account
   * and the zone, copies the counters, and reads "Unknown" for a missing
   * dimension.
   */
  lemma {:induction false} GroupRowsAt(accountName: string, zoneName: string, groups: seq<Group>)
    ensures var rows := GroupRows(accountName, zoneName, groups);
      && |rows| == |groups|
      && forall k :: 0 <= k < |groups| ==>
           rows[k] == Row(accountName, zoneName, groups[k].dimensions.country.GetOr("Unknown"),
                          groups[k].dimensions.httpMethod.GetOr("Unknown"), groups[k].sum)
  {
    if groups != [] {
      GroupRowsAt(accountName, zoneName, groups[..|groups| - 1]);
    }
  }

  /** The rows of an account's zones, zone after zone. */
  function ZonesRows(accountName: string, zones: seq<Zone>): seq<Row> {
    if zones == [] then []
    else
      var last := zones[|zones| - 1];
      ZonesRows(accountName, zones[..|zones| - 1]) + GroupRows(accountName, last.name, last.groups)
  }

  /** Every row of an account names that account. */
  lemma {:induction false} ZonesRowsName(accountName: string, zones: seq<Zone>)
    ensures forall r :: r in ZonesRows(accountName, zones) ==> r.accountName == accountName
  {
    if zones != [] {
      var last := zones[|zones| - 1];
      ZonesRowsName(accountName, zones[..|zones| - 1]);
      GroupRowsAt(accountName, last.name, last.groups);
    }
  }

  function AccountRows(a: Account): seq<Row> {
    ZonesRows(a.name, a.zones)
  }

  /** All rows, account after account. */
  function AllRows(accounts: seq<Account>): seq<Row> {
    if accounts == [] then []
    else AllRows(accounts[..|accounts| - 1]) + AccountRows(accounts[|accounts| - 1])
  }

  function SumGroups(groups: seq<Group>): Sums {
    if groups == [] then Zero
    else Add(SumGroups(groups[..|groups| - 1]), groups[|groups| - 1].sum)
  }

  function SumZones(zones: seq<Zone>): Sums {
    if zones == [] then Zero
    else Add(SumZones(zones[..|zones| - 1]), SumGroups(zones[|zones| - 1].groups))
  }

  /** The five counters of an account: the sums over all groups of all its zones. */
  function AccountTotal(a: Account): Sums {
    SumZones(a.zones)
  }

  /** The totals by account name, each account in turn replacing any earlier one of that name. */
  function Totals(accounts: seq<Account>): map<string, Sums> {
    if accounts == [] then map[]
    else
      var last := accounts[|accounts| - 1];
      Totals(accounts[..|accounts| - 1])[last.name := AccountTotal(last)]
  }

  /** `data["data"].get("viewer", {}).get("accounts", [])`. */
  function AccountsOf(d: Data): seq<Account> {
    match d.viewer
    case None => []
    case Some(v) => v.accounts
  }

  // ---------------------------------------------------------------------------
  // process_analytics_data

  /**
   * `process_analytics_data`: with no "data", no rows and no totals;
   * otherwise one row per group and the totals of every account.
   */
  method ProcessAnalyticsData(response: Response) returns (rows: seq<Row>, totals: map<string, Sums>)
    ensures response.data.None? ==> rows == [] && totals == map[]
    ensures response.data.Some? ==>
      rows == AllRows(AccountsOf(response.data.value)) && totals == Totals(AccountsOf(response.data.value))
  {
    if response.data.None? {
      return [], map[];
    }
    rows := [];
    totals := map[];
    var accounts := AccountsOf(response.data.value);
    for i := 0 to |accounts|
      invariant rows == AllRows(accounts[..i])
      invariant totals == Totals(accounts[..i])
    {
      var account := accounts[i];
      var sums;
      rows, sums := ProcessAccount(account, rows);
      assert accounts[..i + 1][..i] == accounts[..i];
      totals := totals[account.name := sums];
    }
    assert accounts[..|accounts|] == accounts;
  }

  /**
   * The body of the account loop of `process_analytics_data`: appends one
   * row per group of each zone of the account and adds up its counters.
   */
  method ProcessAccount(account: Account, rows0: seq<Row>) returns (rows: seq<Row>, sums: Sums)
    ensures rows == rows0 + AccountRows(account)
    ensures sums == AccountTotal(account)
  {
    rows := rows0;
    var zones := account.zones;
    sums := Zero;
    for j := 0 to |zones|
      invariant rows == rows0 + ZonesRows(account.name, zones[..j])
      invariant sums == SumZones(zones[..j])
    {
      ZoneRowsStep(rows0, account.name, zones, j);
      ZoneSumStep(zones, j);
      rows, sums := ProcessZone(account.name, zones[j], rows, sums);
    }
    assert zones[..|zones|] == zones;
  }

  /**
   * The body of the zone loop of `process_analytics_data`: appends the row
   * of each group of the zone and adds its counters to `sums0`.
   */
  method ProcessZone(accountName: string, zone: Zone, rows0: seq<Row>, sums0: Sums)
    returns (rows: seq<Row>, sums: Sums)
    ensures rows == rows0 + GroupRows(accountName, zone.name, zone.groups)
    ensures sums == Add(sums0, SumGroups(zone.groups))
  {
    rows, sums := rows0, sums0;
    var groups := zone.groups;
    for k := 0 to |groups|
      invariant rows == rows0 + GroupRows(accountName, zone.name, groups[..k])
      invariant sums == Add(sums0, SumGroups(groups[..k]))
    {
      var stats := groups[k].sum;
      RowStep(rows0, accountName, zone.name, groups, k);
      SumStep(sums0, groups, k);
      rows := rows + [EntryRow(accountName, zone.name, groups[k])];
      sums := sums.(requests := sums.requests + stats.requests);
      sums := sums.(cachedRequests := sums.cachedRequests + stats.cachedRequests);
      sums := sums.(bytes := sums.bytes + stats.bytes);
      sums := sums.(wafEvents := sums.wafEvents + stats.wafEvents);
      sums := sums.(rateLimitedRequests := sums.rateLimitedRequests + stats.rateLimitedRequests);
    }
    assert groups[..|groups|] == groups;
  }

  /** One group more: the rows gain its entry and the sums its counters. */
  lemma RowStep(start: seq<Row>, accountName: string, zoneName: string, groups: seq<Group>, k: nat)
    requires k < |groups|
    ensures start + GroupRows(accountName, zoneName, groups[..k]) + [EntryRow(accountName, zoneName, groups[k])]
      == start + GroupRows(accountName, zoneName, groups[..k + 1])
  {
    GroupsStep(accountName, zoneName, groups, k);
    AppendAssociates(start, GroupRows(accountName, zoneName, groups[..k]), [EntryRow(accountName, zoneName, groups[k])]);
  }

  lemma SumStep(base: Sums, groups: seq<Group>, k: nat)
    requires k < |groups|
    ensures Add(Add(base, SumGroups(groups[..k])), groups[k].sum) == Add(base, SumGroups(groups[..k + 1]))
  {
    assert groups[..k + 1][..k] == groups[..k];
  }

  /** One zone more: its rows follow those of the earlier zones, its counters add to theirs. */
  lemma ZoneRowsStep(start: seq<Row>, accountName: string, zones: seq<Zone>, j: nat)
    requires j < |zones|
    ensures start + ZonesRows(accountName, zones[..j]) + GroupRows(accountName, zones[j].name, zones[j].groups)
      == start + ZonesRows(accountName, zones[..j + 1])
  {
    ZonesStep(accountName, zones, j);
    AppendAssociates(start, ZonesRows(accountName, zones[..j]), GroupRows(accountName, zones[j].name, zones[j].groups));
  }

  lemma ZoneSumStep(zones: seq<Zone>, j: nat)
    requires j < |zones|
    ensures Add(SumZones(zones[..j]), SumGroups(zones[j].groups)) == SumZones(zones[..j + 1])
  {
    ZonesStep("", zones, j);
  }

  lemma GroupsStep(accountName: string, zoneName: string, groups: seq<Group>, k: nat)
    requires k < |groups|
    ensures GroupRows(accountName, zoneName, groups[..k + 1])
      == GroupRows(accountName, zoneName, groups[..k]) + [EntryRow(accountName, zoneName, groups[k])]
    ensures SumGroups(groups[..k + 1]) == Add(SumGroups(groups[..k]), groups[k].sum)
  {
    assert groups[..k + 1][..k] == groups[..k];
  }

  lemma ZonesStep(accountName: string, zones: seq<Zone>, j: nat)
    requires j < |zones|
    ensures ZonesRows(accountName, zones[..j + 1])
      == ZonesRows(accountName, zones[..j]) + GroupRows(accountName, zones[j].name, zones[j].groups)
    ensures SumZones(zones[..j + 1]) == Add(SumZones(zones[..j]), SumGroups(zones[j].groups))
  {
    assert zones[..j + 1][..j] == zones[..j];
  }

  // ---------------------------------------------------------------------------
  // Properties of the aggregation

  /** How many groups the accounts hold over all their zones. */
  function ZonesEntryCount(zones: seq<Zone>): nat {
    if zones == [] then 0 else ZonesEntryCount(zones[..|zones| - 1]) + |zones[|zones| - 1].groups|
  }

  function EntryCount(accounts: seq<Account>): nat {
    if accounts == [] then 0 else EntryCount(accounts[..|accounts| - 1]) + ZonesEntryCount(accounts[|accounts| - 1].zones)
  }

  /** One row per group: the row count is the number of groups over all zones of all accounts. */
  lemma {:induction false} RowCount(accounts: seq<Account>)
    ensures |AllRows(accounts)| == EntryCount(accounts)
  {
    if accounts != [] {
      RowCount(accounts[..|accounts| - 1]);
      ZonesRowCount(accounts[|accounts| - 1].name, accounts[|accounts| - 1].zones);
    }
  }

  lemma {:induction false} ZonesRowCount(accountName: string, zones: seq<Zone>)
    ensures |ZonesRows(accountName, zones)| == ZonesEntryCount(zones)
  {
    if zones != [] {
      var last := zones[|zones| - 1];
      ZonesRowCount(accountName, zones[..|zones| - 1]);
      GroupRowsAt(accountName, last.name, last.groups);
    }
  }

  /** Rows come in account order: the rows of a list of accounts followed by more are the two runs of rows in turn. */
  lemma {:induction false} AllRowsAppend(xs: seq<Account>, ys: seq<Account>)
    ensures AllRows(xs + ys) == AllRows(xs) + AllRows(ys)
    decreases |ys|
  {
    if ys == [] {
      assert xs + ys == xs;
    } else {
      var ys', last := ys[..|ys| - 1], ys[|ys| - 1];
      assert (xs + ys)[..|xs + ys| - 1] == xs + ys' && (xs + ys)[|xs + ys| - 1] == last;
      calc {
        AllRows(xs + ys);
        AllRows(xs + ys') + AccountRows(last);
        { AllRowsAppend(xs, ys'); }
        AllRows(xs) + AllRows(ys') + AccountRows(last);
        { AppendAssociates(AllRows(xs), AllRows(ys'), AccountRows(last)); }
        AllRows(xs) + AllRows(ys);
      }
    }
  }

  /** The sum of the counters of some rows. */
  function SumRows(rows: seq<Row>): Sums {
    if rows == [] then Zero else Add(SumRows(rows[..|rows| - 1]), rows[|rows| - 1].sums)
  }

  lemma {:induction false} SumRowsAppend(xs: seq<Row>, ys: seq<Row>)
    ensures SumRows(xs + ys) == Add(SumRows(xs), SumRows(ys))
    decreases |ys|
  {
    if ys == [] {
      assert xs + ys == xs;
    } else {
      var ys' := ys[..|ys| - 1];
      assert (xs + ys)[..|xs + ys| - 1] == xs + ys';
      SumRowsAppend(xs, ys');
    }
  }

  lemma {:induction false} GroupRowsSum(accountName: string, zoneName: string, groups: seq<Group>)
    ensures SumRows(GroupRows(accountName, zoneName, groups)) == SumGroups(groups)
  {
    if groups != [] {
      var rows := GroupRows(accountName, zoneName, groups);
      assert rows[..|rows| - 1] == GroupRows(accountName, zoneName, groups[..|groups| - 1]);
      GroupRowsSum(accountName, zoneName, groups[..|groups| - 1]);
    }
  }

  /**
   * Each counter of an account's totals is the sum of that counter over the
   * account's rows.
   */
  lemma {:induction false} TotalIsSumOfRows(a: Account)
    ensures AccountTotal(a) == SumRows(AccountRows(a))
  {
    ZonesTotal(a.name, a.zones);
  }

  lemma {:induction false} ZonesTotal(accountName: string, zones: seq<Zone>)
    ensures SumZones(zones) == SumRows(ZonesRows(accountName, zones))
  {
    if zones != [] {
      var last := zones[|zones| - 1];
      ZonesTotal(accountName, zones[..|zones| - 1]);
      SumRowsAppend(ZonesRows(accountName, zones[..|zones| - 1]), GroupRows(accountName, last.name, last.groups));
      GroupRowsSum(accountName, last.name, last.groups);
    }
  }

  /** An account without zones, or whose zones have no groups, gets all five counters at 0. */
  lemma {:induction false} EmptyAccountTotal(zones: seq<Zone>)
    requires forall k :: 0 <= k < |zones| ==> zones[k].groups == []
    ensures SumZones(zones) == Zero
  {
    if zones != [] {
      var init := zones[..|zones| - 1];
      assert forall k :: 0 <= k < |init| ==> init[k] == zones[k];
      EmptyAccountTotal(init);
      assert SumGroups(zones[|zones| - 1].groups) == Zero;
    }
  }

  /** Every account of the reply, and nothing else, has a totals entry. */
  lemma {:induction false} TotalsKeys(accounts: seq<Account>)
    ensures Totals(accounts).Keys == set k | 0 <= k < |accounts| :: accounts[k].name
  {
    if accounts != [] {
      var init := accounts[..|accounts| - 1];
      TotalsKeys(init);
      var names := set k | 0 <= k < |accounts| :: accounts[k].name;
      var initNames := set k | 0 <= k < |init| :: init[k].name;
      assert names == initNames + {accounts[|accounts| - 1].name} by {
        forall n | n in names ensures n in initNames + {accounts[|accounts| - 1].name} {
          var k :| 0 <= k < |accounts| && accounts[k].name == n;
          if k < |init| { assert init[k].name == n; }
        }
        forall n | n in initNames ensures n in names {
          var k :| 0 <= k < |init| && init[k].name == n;
          assert accounts[k].name == n;
        }
      }
    }
  }

  /** Of two accounts with the same name, the later one's totals are the ones kept. */
  lemma {:induction false} LastAccountWins(accounts: seq<Account>, j: nat)
    requires j < |accounts|
    requires forall k :: j < k < |accounts| ==> accounts[k].name != accounts[j].name
    ensures accounts[j].name in Totals(accounts)
    ensures Totals(accounts)[accounts[j].name] == AccountTotal(accounts[j])
  {
    var init := accounts[..|accounts| - 1];
    if j < |accounts| - 1 {
      LastAccountWins(init, j);
    }
  }
}
