// The package's response models (cf_box/models.py): the one field
// validator, on account ids, and the defaults the models declare for the
// fields a reply may leave out. Fields holding free-form dictionaries or
// timestamps are not part of this model.

module Models {
  import opened Base

  // ---------------------------------------------------------------------------
  // CloudflareAccount

  datatype Account = Account(id: string, name: string, accountType: Option<string>)

  /** `validate_id`: an id that is empty or shorter than 8 characters is rejected; any other is kept as it is. */
  function ValidateId(v: string): (r: Result<string>)
  {
    if v == [] || |v| < 8 then Raised(ValidationError) else Ok(v)
  }

  /** Exactly the ids of at least 8 characters are accepted, and unchanged. */
  lemma ValidateIdAccepts(v: string)
    ensures ValidateId(v).Ok? <==> |v| >= 8
    ensures ValidateId(v).Ok? ==> ValidateId(v).value == v
    ensures ValidateId(v).Raised? ==> ValidateId(v).error == ValidationError
  {
  }

  /** Validating an accepted id again accepts it again. */
  lemma ValidateIdIdempotent(v: string)
    requires ValidateId(v).Ok?
    ensures ValidateId(ValidateId(v).value) == ValidateId(v)
  {
  }

  /** `CloudflareAccount(id=..., name=..., type=...)`: the account, or the validator's error. */
  function NewAccount(id: string, name: string, accountType: Option<string>): (r: Result<Account>)
    ensures r.Ok? <==> |id| >= 8
    ensures r.Ok? ==> r.value == Account(id, name, accountType)
  {
    match ValidateId(id)
    case Ok(v) => Ok(Account(v, name, accountType))
    case Raised(e) => Raised(e)
  }

  /** The tests' accounts: a 16-character id is accepted, "short" is not. */
  lemma NewAccountExamples()
    ensures NewAccount("1234567890abcdef", "Test Account", None) == Ok(Account("1234567890abcdef", "Test Account", None))
    ensures NewAccount("short", "Test Account", None) == Raised(ValidationError)
  {
    assert |"1234567890abcdef"| == 16;
    assert |"short"| == 5;
  }

  // ---------------------------------------------------------------------------
  // Declared defaults

  datatype DnsRecord = DnsRecord(id: string, recordType: string, name: string, content: string,
                                 proxied: bool, ttl: int, zoneId: Option<string>, zoneName: Option<string>)

  /** `CloudflareDNSRecord(...)`: `proxied` is False and `ttl` is 1 unless given. */
  function NewDnsRecord(id: string, recordType: string, name: string, content: string,
                        proxied: Option<bool>, ttl: Option<int>, zoneId: Option<string>, zoneName: Option<string>)
    : (r: DnsRecord)
    ensures r.proxied == (proxied.Some? && proxied.value)
    ensures r.ttl == (if ttl.Some? then ttl.value else 1)
    ensures r.id == id && r.recordType == recordType && r.name == name && r.content == content
    ensures r.zoneId == zoneId && r.zoneName == zoneName
  {
    DnsRecord(id, recordType, name, content, proxied.GetOr(false), ttl.GetOr(1), zoneId, zoneName)
  }

  datatype IpList = IpList(id: string, name: string, description: Option<string>, kind: string,
                           numItems: int, numReferencingFilters: int)

  /** `CloudflareIPList(...)`: both counters are 0 unless given. */
  function NewIpList(id: string, name: string, description: Option<string>, kind: string,
                     numItems: Option<int>, numReferencingFilters: Option<int>): (r: IpList)
    ensures r.numItems == (if numItems.Some? then numItems.value else 0)
    ensures r.numReferencingFilters == (if numReferencingFilters.Some? then numReferencingFilters.value else 0)
    ensures r.id == id && r.name == name && r.description == description && r.kind == kind
  {
    IpList(id, name, description, kind, numItems.GetOr(0), numReferencingFilters.GetOr(0))
  }

  /** One entry of `errors` or `messages`: a code and its text. */
  datatype Notice = Notice(code: int, message: string)

  datatype ApiResponse = ApiResponse(success: bool, errors: seq<Notice>, messages: seq<Notice>)

  /** `CloudflareAPIResponse(...)`: `errors` and `messages` are fresh empty lists unless given. */
  function NewApiResponse(success: bool, errors: Option<seq<Notice>>, messages: Option<seq<Notice>>)
    : (r: ApiResponse)
    ensures r.success == success
    ensures r.errors == (if errors.Some? then errors.value else [])
    ensures r.messages == (if messages.Some? then messages.value else [])
  {
    ApiResponse(success, errors.GetOr([]), messages.GetOr([]))
  }

  datatype Metrics = Metrics(requests: int, cachedRequests: int, bytes: int, encryptedRequests: int,
                             wafEvents: int, rateLimitedRequests: int)

  /** `CloudflareAnalyticsMetrics(...)`: every counter is 0 unless given. */
  function NewMetrics(requests: Option<int>, cachedRequests: Option<int>, bytes: Option<int>,
                      encryptedRequests: Option<int>, wafEvents: Option<int>, rateLimitedRequests: Option<int>)
    : (r: Metrics)
    ensures r.requests == (if requests.Some? then requests.value else 0)
    ensures r.cachedRequests == (if cachedRequests.Some? then cachedRequests.value else 0)
    ensures r.bytes == (if bytes.Some? then bytes.value else 0)
    ensures r.encryptedRequests == (if encryptedRequests.Some? then encryptedRequests.value else 0)
    ensures r.wafEvents == (if wafEvents.Some? then wafEvents.value else 0)
    ensures r.rateLimitedRequests == (if rateLimitedRequests.Some? then rateLimitedRequests.value else 0)
  {
    Metrics(requests.GetOr(0), cachedRequests.GetOr(0), bytes.GetOr(0), encryptedRequests.GetOr(0),
            wafEvents.GetOr(0), rateLimitedRequests.GetOr(0))
  }

  /** Nothing given: the declared defaults. */
  lemma DefaultsWhenOmitted(id: string, recordType: string, name: string, content: string, kind: string)
    ensures var r := NewDnsRecord(id, recordType, name, content, None, None, None, None);
      !r.proxied && r.ttl == 1
    ensures var l := NewIpList(id, name, None, kind, None, None);
      l.numItems == 0 && l.numReferencingFilters == 0
    ensures NewApiResponse(false, None, None) == ApiResponse(false, [], [])
    ensures NewMetrics(None, None, None, None, None, None) == Metrics(0, 0, 0, 0, 0, 0)
  {
  }
}
