// cloudflare_data_export.py: the standalone export script's retrying
// request, its page-by-page fetching, its own masking of e-mail addresses and
// account ids (which differ from module DataExport's), and its in-place
// anonymisation of accounts, zones and DNS records.

module DataExportScript {
  import opened Base
  import opened Text
  import opened Http
  import Client
  import DataExport
  import Rewrite

  // ---------------------------------------------------------------------------
  // request_with_retries

  /**
   * An attempt ends the loop when it is a response that is neither 429 nor
   * an HTTP error: `raise_for_status` raises for the statuses from 400 to
   * 599, and the loop catches that and tries again.
   */
  predicate Completes<B>(reply: Reply<B>) {
    reply.Response? && reply.status != 429 && !(400 <= reply.status < 600)
  }

  /**
   * `request_with_retries`: at most `max_retries` attempts; the body of the
   * first completing one, or None once they are used up.
   */
  method RequestWithRetries<B>(replies: nat -> Reply<B>, maxRetries: int) returns (r: Option<B>, attempts: nat)
    ensures var first := FirstFinal(replies, Completes, Attempts(maxRetries));
      && r == (if first.Some? then Some(replies(first.value).body) else None)
      && attempts == (if first.Some? then first.value + 1 else Attempts(maxRetries))
  {
    var n := Attempts(maxRetries);
    attempts := 0;
    while attempts < n
      invariant attempts <= n
      invariant forall k :: 0 <= k < attempts ==> !Completes(replies(k))
    {
      var reply := replies(attempts);
      attempts := attempts + 1;
      if reply.Response? && reply.status == 429 {
        continue;
      }
      if reply.Thrown? || 400 <= reply.status < 600 {
        continue;
      }
      FirstFinalAt(replies, Completes, n, attempts - 1);
      return Some(reply.body), attempts;
    }
    return None, attempts;
  }

  /**
   * The script and the package's client end their retry loops on the same
   * replies, except a status of 600 or more, which only the script accepts.
   */
  lemma CompletesAgainstClient<B>(reply: Reply<B>)
    ensures reply.Response? && reply.status < 600 ==> (Completes(reply) <==> Client.Completes(reply))
    ensures reply.Response? && reply.status >= 600 ==> Completes(reply) && !Client.Completes(reply)
    ensures reply.Thrown? ==> !Completes(reply) && !Client.Completes(reply)
  {
  }

  /** The tests' case: a first reply of 200 is returned after one attempt. */
  lemma RequestFirstOk<B>(replies: nat -> Reply<B>, body: B)
    requires replies(0) == Response(200, body)
    ensures FirstFinal(replies, Completes, Attempts(5)) == Some(0)
  {
    FirstFinalAt(replies, Completes, 5, 0);
  }

  // ---------------------------------------------------------------------------
  // fetch_all_pages

  /** A reply envelope whose `result` is a list (a missing or empty one is `[]`). */
  datatype Page<T> = Page(success: bool, result: seq<T>)

  /** The page URL: the paging parameters open the query, or extend the one the URL has. */
  function PageUrl(url: string, perPage: int, page: int): string {
    if '?' !in url then url + "?per_page=" + IntToString(perPage) + "&page=" + IntToString(page)
    else url + "&per_page=" + IntToString(perPage) + "&page=" + IntToString(page)
  }

  /** The script builds the same page URLs as the package's client. */
  lemma PageUrlAgrees(url: string, perPage: int, page: int)
    ensures PageUrl(url, perPage, page) == Client.PageUrl(url, perPage, page)
  {
    var a, b := IntToString(perPage), IntToString(page);
    if '?' !in url {
      assert "?per_page=" == "?" + "per_page=";
      Regroup(url, "?", a, b);
    } else {
      assert "&per_page=" == "&" + "per_page=";
      Regroup(url, "&", a, b);
    }
  }

  lemma Regroup(url: string, sep: string, a: string, b: string)
    ensures url + (sep + "per_page=") + a + "&page=" + b == url + sep + ("per_page=" + a + "&page=" + b)
  {
  }

  /** A page as the package's client reads it: its list, as a list result. */
  function AsEnvelope<T>(p: Option<Page<T>>): (e: Option<Client.Envelope<T>>)
    ensures e.Some? <==> p.Some?
  {
    match p
    case None => None
    case Some(pg) => Some(Client.Envelope(pg.success, Some(Client.Items(pg.result))))
  }

  function Envelopes<T>(pages: seq<Option<Page<T>>>): (es: seq<Option<Client.Envelope<T>>>)
    ensures |es| == |pages|
    ensures forall k :: 0 <= k < |pages| ==> es[k] == AsEnvelope(pages[k])
  {
    seq(|pages|, k requires 0 <= k < |pages| => AsEnvelope(pages[k]))
  }

  /**
   * `fetch_all_pages`: `pages[k]` is what `request_with_retries` returned
   * for page `k + 1`. It requests the same URLs and gathers the same
   * results as the package's `fetch_all_pages` does on list replies.
   */
  method FetchAllPages<T>(url: string, perPage: int, pages: seq<Option<Page<T>>>)
    returns (results: seq<T>, urls: seq<string>)
    ensures Client.FetchedAll(url, perPage, Envelopes(pages), results, urls)
  {
    ghost var envelopes := Envelopes(pages);
    var page := 1;
    results := [];
    urls := [];
    while true
      invariant 1 <= page <= |pages| + 1 && |urls| == page - 1
      invariant urls == Client.PageUrls(url, perPage, |urls|)
      invariant Client.FullPages(envelopes, perPage, |urls|)
      invariant results == Client.Gathered(envelopes, |urls|)
      decreases |pages| + 1 - page
    {
      var pageUrl := PageUrl(url, perPage, page);
      PageUrlAgrees(url, perPage, page);
      assert Client.PageUrls(url, perPage, page) == urls + [pageUrl];
      urls := urls + [pageUrl];
      var data := if page - 1 < |pages| then pages[page - 1] else None;
      assert Client.PageAt(envelopes, page - 1) == AsEnvelope(data);
      assert Client.Gathered(envelopes, page) == results + Client.Contribution(AsEnvelope(data));
      if data.None? || !data.value.success || data.value.result == [] {
        Client.StopsAt(url, perPage, envelopes, page);
        return;
      }
      results := results + data.value.result;
      if |data.value.result| < perPage {
        Client.StopsAt(url, perPage, envelopes, page);
        return;
      }
      page := page + 1;
    }
  }

  /** The tests' scenario: one item on a first page of 50 ends the listing there. */
  lemma FetchAllPagesExample<T>(x: T, results: seq<T>, urls: seq<string>)
    requires Client.FetchedAll("http://example.com", 50,
                               Envelopes([Some(Page(true, [x])), Some(Page(true, []))]), results, urls)
    ensures results == [x] && |urls| == 1
  {
    var envelopes := Envelopes([Some(Page(true, [x])), Some(Page(true, []))]);
    assert Client.PageAt(envelopes, 0) == Some(Client.Envelope(true, Some(Client.Items([x]))));
    assert !Client.Continues(Client.PageAt(envelopes, 0), 50);
    assert Client.Gathered(envelopes, 1) == [x];
  }

  // ---------------------------------------------------------------------------
  // anonymize_email, anonymize_account_id

  /**
   * The script's domain mask: the first character, one star per further
   * character before the first dot, then the domain from that dot on. An
   * empty domain raises on its first character, one with no dot on the
   * search for it.
   */
  function MaskDomain(domain: string): (r: Result<string>)
    ensures domain == [] ==> r == Raised(IndexError)
    ensures domain != [] && '.' !in domain ==> r == Raised(NotFoundError)
  {
    if domain == [] then Raised(IndexError)
    else if '.' !in domain then Raised(NotFoundError)
    else
      var i := IndexOf(domain, '.');
      Ok([domain[0]] + Repeat('*', i - 1) + domain[i..])
  }

  /** `anonymize_email` of the script: the package's local-part mask and the script's domain mask. */
  function AnonymizeEmail(email: string): (r: Result<string>)
  {
    if '@' !in email then Ok(email)
    else
      var parts := Split(email, '@');
      if |parts| != 2 then Raised(UnpackError)
      else
        match MaskDomain(parts[1])
        case Raised(e) => Raised(e)
        case Ok(d) => Ok(DataExport.MaskLocalPart(parts[0]) + "@" + d)
  }

  /**
   * The masked domain keeps its length and its first character, hides the
   * rest of the first label, and keeps everything from the first dot on;
   * a domain that starts with a dot gets one more dot in front.
   */
  lemma {:induction false} MaskDomainShape(domain: string)
    requires '.' in domain
    ensures var i := IndexOf(domain, '.');
      && MaskDomain(domain).Ok?
      && (i > 0 ==> var d := MaskDomain(domain).value;
            && |d| == |domain| && d[0] == domain[0]
            && (forall k :: 0 < k < i ==> d[k] == '*')
            && d[i..] == domain[i..])
      && (i == 0 ==> MaskDomain(domain).value == "." + domain)
  {
    var i := IndexOf(domain, '.');
    var d := MaskDomain(domain).value;
    var stars := Repeat('*', i as int - 1);
    assert d == [domain[0]] + stars + domain[i..];
    if i > 0 {
      assert |stars| == i - 1;
      forall k | 0 < k < i ensures d[k] == '*' {
        assert d[k] == stars[k - 1];
      }
      assert d[i..] == domain[i..];
    } else {
      assert stars == [];
      assert domain[0] == '.';
      assert d == ['.'] + domain;
    }
  }

  /**
   * Where the two domain masks agree and where they part: they agree on a
   * domain with a dot after its first character; the package leaves a
   * dotless or empty domain as it is, where the script raises; the package
   * raises on a leading dot, where the script doubles it.
   */
  lemma {:induction false} MaskDomainAgainstPackage(domain: string)
    ensures '.' in domain && IndexOf(domain, '.') > 0 ==> MaskDomain(domain) == DataExport.MaskDomain(domain)
    ensures '.' !in domain ==> DataExport.MaskDomain(domain) == Ok(domain) && MaskDomain(domain).Raised?
    ensures '.' in domain && IndexOf(domain, '.') == 0 ==>
      DataExport.MaskDomain(domain) == Raised(IndexError) && MaskDomain(domain) == Ok("." + domain)
  {
    DataExport.MaskDomainShape(domain);
    if '.' in domain {
      MaskDomainShape(domain);
    }
  }

  /** The whole of the script's `anonymize_email` on an address with exactly one "@". */
  lemma {:induction false} AnonymizeEmailShape(name: string, domain: string)
    requires '@' !in name && '@' !in domain
    ensures AnonymizeEmail(name + "@" + domain) ==
      match MaskDomain(domain)
      case Raised(e) => Raised(e)
      case Ok(d) => Ok(DataExport.MaskLocalPart(name) + "@" + d)
  {
    SplitJoin([name, domain], '@');
    assert Join([name, domain], '@') == name + "@" + domain;
  }

  /**
   * Both `anonymize_email` versions give the same masked address when the
   * domain has a dot after its first character; an address with no "@"
   * comes back from both unchanged, and one with several "@" makes both
   * raise.
   */
  lemma {:induction false} AnonymizeEmailAgainstPackage(email: string)
    ensures '@' !in email ==> AnonymizeEmail(email) == Ok(email) == DataExport.AnonymizeEmail(email)
    ensures Count(email, '@') >= 2 ==> AnonymizeEmail(email) == Raised(UnpackError) == DataExport.AnonymizeEmail(email)
    ensures Count(email, '@') == 1 ==>
      var parts := Split(email, '@');
      && |parts| == 2
      && ('.' in parts[1] && IndexOf(parts[1], '.') > 0 ==> AnonymizeEmail(email) == DataExport.AnonymizeEmail(email))
  {
    SplitShape(email, '@');
    if Count(email, '@') == 1 {
      var parts := Split(email, '@');
      MaskDomainAgainstPackage(parts[1]);
    }
  }

  /**
   * `anonymize_account_id` of the script: the first six characters, "...",
   * and the last six, whatever the length (a shorter id appears twice).
   */
  function AnonymizeAccountId(id: string): (r: string)
    ensures var k := if |id| < 6 then |id| else 6;
      && |r| == 2 * k + 3
      && r[..k] == id[..k] && r[k..k + 3] == "..." && r[k + 3..] == id[|id| - k..]
  {
    Take(id, 6) + "..." + Last(id, 6)
  }

  /** An id of six or more characters is masked once and for all. */
  lemma AccountIdIdempotent(id: string)
    requires |id| >= 6
    ensures AnonymizeAccountId(AnonymizeAccountId(id)) == AnonymizeAccountId(id)
  {
    var r := AnonymizeAccountId(id);
    assert r == r[..6] + r[6..9] + r[9..];
  }

  /** A shorter id is not: masking it again makes it longer. */
  lemma AccountIdShortGrows()
    ensures AnonymizeAccountId("abc") == "abc...abc"
    ensures |AnonymizeAccountId(AnonymizeAccountId("abc"))| == 15
  {
  }

  /**
   * Against the package's mask (ids of ten or more characters): the script
   * keeps two more characters at the end.
   */
  lemma AccountIdAgainstPackage(id: string)
    requires |id| >= 10
    ensures var r := AnonymizeAccountId(id);
      DataExport.AnonymizeAccountId(DataExport.Str(id)) == DataExport.Str(r[..9] + r[11..])
  {
    var r := AnonymizeAccountId(id);
    assert r[11..] == id[|id| - 4..];
  }

  /** The tests' id. */
  lemma AnonymizeAccountIdExample()
    ensures AnonymizeAccountId("1234567890abcdef") == "123456...abcdef"
  {
  }

  // ---------------------------------------------------------------------------
  // anonymize_data

  /** An account, and the `account` object inside a zone. */
  datatype Account = Account(id: string, name: string)

  datatype Zone = Zone(id: string, name: string, account: Account)

  /** A DNS record; `account_id` and `name` may be missing (None). */
  datatype DnsRecord = DnsRecord(id: string, recordType: string, content: string,
                                 accountId: Option<string>, name: Option<string>)

  /** The export dictionary: the lists under "accounts", "zones" and "dns_records" (a missing one is empty). */
  class Export {
    var accounts: seq<Account>
    var zones: seq<Zone>
    var dnsRecords: seq<DnsRecord>

    constructor (accounts: seq<Account>, zones: seq<Zone>, dnsRecords: seq<DnsRecord>)
      ensures this.accounts == accounts && this.zones == zones && this.dnsRecords == dnsRecords
    {
      this.accounts := accounts;
      this.zones := zones;
      this.dnsRecords := dnsRecords;
    }
  }

  /**
   * The two assignments for one account: the id is masked first, then the
   * name. When the name's masking raises, the new id is already in place.
   */
  function MaskAccount(a: Account): (r: (Account, bool))
  {
    var masked := a.(id := AnonymizeAccountId(a.id));
    match AnonymizeEmail(a.name)
    case Raised(_) => (masked, false)
    case Ok(m) => (masked.(name := m), true)
  }

  /** The same two assignments on a zone's `account` object. */
  function MaskZone(z: Zone): (r: (Zone, bool))
  {
    var (a, ok) := MaskAccount(z.account);
    (z.(account := a), ok)
  }

  /** The same on a record, reading a missing `account_id` or `name` as "". */
  function MaskRecord(d: DnsRecord): (r: (DnsRecord, bool))
  {
    var masked := d.(accountId := Some(AnonymizeAccountId(d.accountId.GetOr(""))));
    match AnonymizeEmail(d.name.GetOr(""))
    case Raised(_) => (masked, false)
    case Ok(m) => (masked.(name := Some(m)), true)
  }

  /** Which loop of `anonymize_data` raised, and at which position. */
  datatype Section = Accounts | Zones | DnsRecords
  datatype Failure = Failure(section: Section, index: nat)

  /**
   * Each object's id is masked whether or not its name then raises; a name
   * is replaced exactly when masking it succeeds.
   */
  lemma MaskAccountFields(a: Account)
    ensures var (b, ok) := MaskAccount(a);
      && b.id == AnonymizeAccountId(a.id)
      && (ok <==> AnonymizeEmail(a.name).Ok?)
      && (ok ==> b.name == AnonymizeEmail(a.name).value)
      && (!ok ==> b.name == a.name)
  {
  }

  /** A zone changes only in its `account` object. */
  lemma MaskZoneFields(z: Zone)
    ensures var (y, ok) := MaskZone(z);
      && y.id == z.id && y.name == z.name
      && (y.account, ok) == MaskAccount(z.account)
  {
  }

  /**
   * A record ends with both keys present: a missing `account_id` becomes
   * "..." and a missing `name` becomes ""; the other fields are untouched.
   */
  lemma MaskRecordFields(d: DnsRecord)
    ensures var (e, ok) := MaskRecord(d);
      && e.id == d.id && e.recordType == d.recordType && e.content == d.content
      && e.accountId.Some?
      && (d.accountId.None? ==> e.accountId == Some("..."))
      && (ok ==> e.name.Some?)
      && (d.name.None? ==> ok && e.name == Some(""))
  {
    assert AnonymizeAccountId("") == "...";
  }

  /** The three lists of the export, as values. */
  datatype Lists = Lists(accounts: seq<Account>, zones: seq<Zone>, dnsRecords: seq<DnsRecord>)

  /**
   * What `anonymize_data` leaves in the three lists, and where it raised:
   * each list is rewritten up to its first failure, and a failure leaves the
   * later lists as they were.
   */
  function Anonymized(l: Lists): (Lists, Option<Failure>)
  {
    var accounts := Rewrite.Rewritten(l.accounts, MaskAccount);
    match Rewrite.FirstFailure(l.accounts, MaskAccount)
    case Some(i) => (l.(accounts := accounts), Some(Failure(Accounts, i)))
    case None =>
      var zones := Rewrite.Rewritten(l.zones, MaskZone);
      match Rewrite.FirstFailure(l.zones, MaskZone)
      case Some(i) => (Lists(accounts, zones, l.dnsRecords), Some(Failure(Zones, i)))
      case None =>
        var records := Rewrite.Rewritten(l.dnsRecords, MaskRecord);
        match Rewrite.FirstFailure(l.dnsRecords, MaskRecord)
        case Some(i) => (Lists(accounts, zones, records), Some(Failure(DnsRecords, i)))
        case None => (Lists(accounts, zones, records), None)
  }

  /**
   * The order of the three loops: the accounts are always rewritten; the
   * zones only when no account raised, the records only when no account and
   * no zone raised; the failure names the first object that raised.
   */
  lemma AnonymizedOrder(l: Lists)
    ensures var (m, f) := Anonymized(l);
      && m.accounts == Rewrite.Rewritten(l.accounts, MaskAccount)
      && (Rewrite.FirstFailure(l.accounts, MaskAccount).Some? ==>
            f == Some(Failure(Accounts, Rewrite.FirstFailure(l.accounts, MaskAccount).value))
            && m.zones == l.zones && m.dnsRecords == l.dnsRecords)
      && (Rewrite.FirstFailure(l.accounts, MaskAccount).None? ==>
            m.zones == Rewrite.Rewritten(l.zones, MaskZone))
      && (Rewrite.FirstFailure(l.accounts, MaskAccount).None? && Rewrite.FirstFailure(l.zones, MaskZone).Some? ==>
            f == Some(Failure(Zones, Rewrite.FirstFailure(l.zones, MaskZone).value))
            && m.dnsRecords == l.dnsRecords)
      && (Rewrite.FirstFailure(l.accounts, MaskAccount).None? && Rewrite.FirstFailure(l.zones, MaskZone).None? ==>
            m.dnsRecords == Rewrite.Rewritten(l.dnsRecords, MaskRecord)
            && (f.Some? <==> Rewrite.FirstFailure(l.dnsRecords, MaskRecord).Some?)
            && (f.Some? ==> f.value == Failure(DnsRecords, Rewrite.FirstFailure(l.dnsRecords, MaskRecord).value)))
  {
  }

  /**
   * `anonymize_data`: masks the accounts, then the zones' accounts, then the
   * records, each list in place and in order. An exception stops it where
   * it is raised: the objects before it and the failing object's id stay
   * masked, and the lists after it are not touched. Returns the same
   * object, and where the exception was raised if it was.
   */
  method AnonymizeData(data: Export) returns (r: Export, failure: Option<Failure>)
    modifies data
    ensures r == data
    ensures (Lists(data.accounts, data.zones, data.dnsRecords), failure)
      == Anonymized(Lists(old(data.accounts), old(data.zones), old(data.dnsRecords)))
  {
    var accounts, failedAt := Rewrite.RewriteAll(data.accounts, MaskAccount);
    data.accounts := accounts;
    if failedAt.Some? {
      return data, Some(Failure(Accounts, failedAt.value));
    }
    var zones;
    zones, failedAt := Rewrite.RewriteAll(data.zones, MaskZone);
    data.zones := zones;
    if failedAt.Some? {
      return data, Some(Failure(Zones, failedAt.value));
    }
    var records;
    records, failedAt := Rewrite.RewriteAll(data.dnsRecords, MaskRecord);
    data.dnsRecords := records;
    if failedAt.Some? {
      return data, Some(Failure(DnsRecords, failedAt.value));
    }
    return data, None;
  }
}
