// cf_box/data_export.py: masking of e-mail addresses and account ids, and the
// in-place anonymisation of the exported accounts. The same two masking
// functions appear, character for character, in cf_box/ip_list_manager.py;
// they are defined once here and module IpListManager states their
// properties as that file promises them.

module DataExport {
  import opened Base
  import opened Text
  import Rewrite

  /** A JSON scalar, as an account's `id` may hold in an API reply. */
  datatype Scalar = Str(s: string) | Int(i: int) | Bool(b: bool) | Null

  /**
   * The masked local part of an address: a local part of more than two
   * characters keeps its first and last character with stars in between;
   * a shorter one gets a single star appended.
   */
  function MaskLocalPart(name: string): (r: string)
    ensures |name| > 2 ==> |r| == |name| && r[0] == name[0] && r[|r| - 1] == name[|name| - 1]
    ensures |name| > 2 ==> forall k :: 0 < k < |r| - 1 ==> r[k] == '*'
    ensures |name| <= 2 ==> r == name + "*"
  {
    if |name| > 2 then [name[0]] + Repeat('*', |name| - 2) + [name[|name| - 1]]
    else name + "*"
  }

  /**
   * The masked domain: when it has a dot, its first label is cut to its
   * first character followed by one star per remaining character, and the
   * other labels are joined back unchanged; an empty first label raises.
   */
  function MaskDomain(domain: string): (r: Result<string>)
  {
    var labels := Split(domain, '.');
    if |labels| >= 2 then
      if labels[0] == "" then Raised(IndexError)
      else Ok([labels[0][0]] + Repeat('*', |labels[0]| - 1) + "." + Join(labels[1..], '.'))
    else Ok(domain)
  }

  /** `anonymize_email`: unpacking `email.split("@")` into two names raises unless there is exactly one "@". */
  function AnonymizeEmail(email: string): (r: Result<string>)
  {
    if '@' !in email then Ok(email)
    else
      var parts := Split(email, '@');
      if |parts| != 2 then Raised(UnpackError)
      else
        match MaskDomain(parts[1])
        case Raised(e) => Raised(e)
        case Ok(d) => Ok(MaskLocalPart(parts[0]) + "@" + d)
  }

  /** `anonymize_account_id`: non-strings and strings under 10 characters pass through. */
  function AnonymizeAccountId(id: Scalar): (r: Scalar)
    ensures r.Str? <==> id.Str?
  {
    if !id.Str? || |id.s| < 10 then id
    else Str(id.s[..6] + "..." + id.s[|id.s| - 4..])
  }

  // ---------------------------------------------------------------------------
  // Properties of the masking functions

  /** The mask of a domain, stated on the domain's first dot rather than on split/join. */
  lemma {:induction false} MaskDomainShape(domain: string)
    ensures '.' !in domain ==> MaskDomain(domain) == Ok(domain)
    ensures '.' in domain && IndexOf(domain, '.') == 0 ==> MaskDomain(domain) == Raised(IndexError)
    ensures '.' in domain && IndexOf(domain, '.') > 0 ==>
      var i := IndexOf(domain, '.');
      MaskDomain(domain) == Ok([domain[0]] + Repeat('*', i - 1) + domain[i..])
  {
    if '.' in domain {
      var i := IndexOf(domain, '.');
      var labels := Split(domain, '.');
      assert labels == [domain[..i]] + Split(domain[i + 1..], '.');
      assert labels[1..] == Split(domain[i + 1..], '.');
      JoinSplit(domain[i + 1..], '.');
      assert domain[i..] == "." + domain[i + 1..];
      if i > 0 {
        assert labels[0] == domain[..i] && labels[0][0] == domain[0];
        var stars := Repeat('*', i - 1);
        assert [domain[0]] + stars + "." + Join(labels[1..], '.')
            == [domain[0]] + stars + domain[i..];
      }
    }
  }

  /**
   * The whole of `anonymize_email` on an address with exactly one "@":
   * local part masked, domain masked as MaskDomainShape states.
   */
  lemma {:induction false} AnonymizeEmailShape(name: string, domain: string)
    requires '@' !in name && '@' !in domain
    ensures AnonymizeEmail(name + "@" + domain) ==
      match MaskDomain(domain)
      case Raised(e) => Raised(e)
      case Ok(d) => Ok(MaskLocalPart(name) + "@" + d)
  {
    var email := name + "@" + domain;
    SplitJoin([name, domain], '@');
    assert Join([name, domain], '@') == email;
  }

  /** An address with two or more "@" makes the unpacking raise. */
  lemma {:induction false} AnonymizeEmailRejectsManyAts(email: string)
    requires Count(email, '@') >= 2
    ensures AnonymizeEmail(email) == Raised(UnpackError)
  {
    SplitShape(email, '@');
  }

  /** A domain whose first dot is at `i > 0`: the first label becomes its first character and stars. */
  lemma MaskDomainAt(domain: string, i: nat)
    requires 0 < i < |domain| && domain[i] == '.' && '.' !in domain[..i]
    ensures MaskDomain(domain) == Ok([domain[0]] + Repeat('*', i - 1) + domain[i..])
  {
    IndexOfAt(domain, '.', i);
    MaskDomainShape(domain);
  }

  /**
   * An address with one "@" whose domain has its first dot at `i > 0` (as
   * "test@example.com" does, at 7): the local part masked, the first label
   * cut to its first character and stars, the rest of the domain kept.
   */
  lemma AnonymizeEmailAt(name: string, domain: string, i: nat)
    requires '@' !in name && '@' !in domain
    requires 0 < i < |domain| && domain[i] == '.' && '.' !in domain[..i]
    ensures AnonymizeEmail(name + "@" + domain)
      == Ok(MaskLocalPart(name) + "@" + ([domain[0]] + Repeat('*', i - 1) + domain[i..]))
  {
    MaskDomainAt(domain, i);
    AnonymizeEmailShape(name, domain);
  }

  /** A short local part gets a star, so the address changes, and keeps its one "@". */
  lemma {:induction false} AnonymizeEmailShortChanges(name: string, domain: string)
    requires '@' !in name && '@' !in domain && |name| <= 2
    requires MaskDomain(domain).Ok?
    ensures AnonymizeEmail(name + "@" + domain).Ok?
    ensures AnonymizeEmail(name + "@" + domain).value != name + "@" + domain
  {
    AnonymizeEmailShape(name, domain);
    var out := AnonymizeEmail(name + "@" + domain).value;
    var d := MaskDomain(domain).value;
    assert out == name + "*" + "@" + d;
    assert out[|name|] == '*';
    assert (name + "@" + domain)[|name|] == '@';
  }

  /** The tests' id: 16 characters become the first six, "...", and the last four. */
  lemma AnonymizeAccountIdExample()
    ensures AnonymizeAccountId(Str("1234567890abcdef")) == Str("123456...cdef")
    ensures AnonymizeAccountId(Str("short")) == Str("short")
  {
  }

  // ---------------------------------------------------------------------------
  // anonymize_data

  /** An exported account; a key the dictionary lacks is None. */
  datatype Account = Account(id: Option<Scalar>, name: Option<string>)

  datatype Zone = Zone(id: string, name: string)
  datatype DnsRecord = DnsRecord(id: string, recordType: string, name: string, content: string)

  /** The export dictionary: the lists under "accounts", "zones" and "dns_records". */
  class ExportData {
    var accounts: seq<Account>
    var zones: seq<Zone>
    var dnsRecords: seq<DnsRecord>

    constructor (accounts: seq<Account>, zones: seq<Zone>, dnsRecords: seq<DnsRecord>)
      ensures this.accounts == accounts && this.zones == zones && this.dnsRecords == dnsRecords
    {
      this.accounts := accounts;
      this.zones := zones;
      this.dnsRecords := dnsRecords;
    }
  }

  /**
   * The statements of the loop body for one account: the name is masked
   * first, then the id; each only when its key is there. When the name's
   * masking raises, the account is left as it was.
   */
  function MaskAccount(a: Account): (r: (Account, bool))
  {
    match a.name
    case Some(n) =>
      (match AnonymizeEmail(n)
       case Raised(_) => (a, false)
       case Ok(m) => (a.(name := Some(m), id := MaskId(a.id)), true))
    case None => (a.(id := MaskId(a.id)), true)
  }

  function MaskId(id: Option<Scalar>): Option<Scalar>
  {
    match id
    case Some(v) => Some(AnonymizeAccountId(v))
    case None => None
  }

  /** Only `name` and `id` change, and a missing key stays missing. */
  lemma MaskAccountFields(a: Account)
    ensures var (b, ok) := MaskAccount(a);
      && b.id.Some? == a.id.Some? && b.name.Some? == a.name.Some?
      && (ok ==> (a.id.Some? ==> b.id == Some(AnonymizeAccountId(a.id.value))))
      && (ok ==> (a.name.Some? ==> Ok(b.name.value) == AnonymizeEmail(a.name.value)))
      && (!ok <==> a.name.Some? && AnonymizeEmail(a.name.value).Raised?)
      && (!ok ==> b == a)
  {
  }

  /**
   * `anonymize_data`: with the flag off nothing changes; with it on, every
   * account is rewritten in place, in order, until one raises, whose
   * position is returned. The zones and DNS records are never touched.
   */
  method AnonymizeData(data: ExportData, anonymizeFlag: bool) returns (r: ExportData, failedAt: Option<nat>)
    modifies data
    ensures r == data
    ensures data.zones == old(data.zones) && data.dnsRecords == old(data.dnsRecords)
    ensures !anonymizeFlag ==> data.accounts == old(data.accounts) && failedAt == None
    ensures anonymizeFlag ==> data.accounts == Rewrite.Rewritten(old(data.accounts), MaskAccount)
    ensures anonymizeFlag ==> failedAt == Rewrite.FirstFailure(old(data.accounts), MaskAccount)
  {
    if !anonymizeFlag {
      return data, None;
    }
    var accounts;
    accounts, failedAt := Rewrite.RewriteAll(data.accounts, MaskAccount);
    data.accounts := accounts;
    return data, failedAt;
  }
}
