# cf-box core, modelled in Dafny

This project models the parts of cf-box that make decisions. cf-box is a set of Python tools that export, anonymise and analyse data from Cloudflare accounts. The modelled parts are:

- **Analytics.** The package (`cf_box/aggregated_analytics.py`) and the stand-alone script (`cloudflare_aggregated_analytics.py`) both fold a GraphQL analytics reply into rows and per-account totals. The query text is built from the account tag and the time range. The script's `fetch_graphql_data` runs an attempt loop.
- **Anonymisation.** Three variants of the e-mail and account-id masks are modelled: `cf_box/data_export.py`, the identical copy in `cf_box/ip_list_manager.py`, and `cloudflare_data_export.py`. The `anonymize` dispatcher and both versions of `anonymize_data` are modelled too. `anonymize_data` rewrites the export's dictionaries in place.
- **Paging and retries.** This covers `fetch_all_pages` and `request` in `cf_box/client.py`, and `fetch_all_pages` and `request_with_retries` in `cloudflare_data_export.py`. It includes page URLs, how results accumulate, the stop conditions, attempt counting and the `get_zones` endpoint.
- **IP-list sync.** In `cloudflare_ip_list_manager.py`: the PUT payload of `sync_ip_list` and its result, and the account and target loop of `main`. That loop matches configured accounts and remote lists, prefers `sync_from` over `local_file`, and splits the source text into lines.
- **Models.** The account-id validator and the declared field defaults of `cf_box/models.py`.

The network, the files and the clock are replaced by oracles:

- Each HTTP attempt is the next element of a reply sequence (a function from the attempt number to a reply).
- Each page request is one element of a page sequence.
- The remote IP source, the local files, the API's IP lists and the PUT endpoint are functions from the request to its reply.

Python dictionaries are modelled as datatypes with one field per key that the code reads. A key that may be missing is an `Option`. A Python exception is the `Raised` case of a `Result`.

`sync_ip_list` (cloudflare_ip_list_manager.py:41-53) replaces a list's items with one PUT of the whole list. The code has no diff or batching step, so neither has the model.

Modules, one per file:

- `Base`: `Option`, `Result` and the exceptions.
- `Text`: Python's string operations as the code uses them: `split`, `join`, `strip`, `lstrip`, `index`, `%` formatting and `str()` of integers.
- `Http`: attempts and the first reply that ends an attempt loop.
- `Rewrite`: an in-place rewrite of a list that stops at the first raise.
- `Models`, `Client`, `DataExport`, `DataExportScript`, `IpListManager`, `IpListScript`, `Analytics` and `AnalyticsScript`: one module per source file.

## Model

| member | source | states |
|---|---|---|
| Text.Repeat | cf_box/data_export.py:48 | `c * n` has `max(n, 0)` characters, all `c` |
| Text.IndexOf | cloudflare_data_export.py:130 | `s.index(c)` is the position of the first `c`: that character is `c` and none comes before it |
| Text.IndexOfSplit | cloudflare_data_export.py:130 | the first `c` in `p + c + q` is at `|p|` when `p` has none |
| Text.Split | cf_box/data_export.py:47-49 | `split` always gives at least one piece |
| Text.SplitShape | cf_box/data_export.py:47-49 | `split` gives one piece more than there are separators, and no piece holds the separator |
| Text.JoinSplit | cf_box/data_export.py:49-52 | joining the pieces of a split with the same separator gives the string back |
| Text.SplitJoin | cf_box/data_export.py:49-52 | splitting a join of separator-free pieces gives the pieces back |
| Text.CountAppend | cf_box/data_export.py:47 | the number of `c` in a concatenation is the sum of the two counts |
| Text.LStrip | cloudflare_ip_list_manager.py:111 | `lstrip()` removes exactly the leading whitespace: a suffix, starting with a non-space, after whitespace only |
| Text.RStrip | cloudflare_ip_list_manager.py:111 | `rstrip()` removes exactly the trailing whitespace: a prefix, ending with a non-space, before whitespace only |
| Text.LStripChar | cf_box/client.py:92 | `lstrip('/')` removes exactly the leading `/` characters |
| Text.Digit | cloudflare_data_export.py:50 | a decimal digit character whose code is `'0'` plus the digit |
| Text.NatToString | cloudflare_data_export.py:50 | `str(n)` of a natural number is non-empty decimal digits without a leading zero |
| Text.IntToString | cloudflare_data_export.py:50 | `str(n)` of an integer is non-empty, made of digits and a minus sign |
| Text.NatToStringRoundTrip | cloudflare_data_export.py:50 | reading back the digits of `str(n)` gives `n` |
| Text.Format | cloudflare_aggregated_analytics.py:75 | `template % tuple(args)` with `%s` and `%%`: each `%s` takes the next argument verbatim; a missing or left-over argument or another conversion raises; its behaviour on plain text and holes is stated by FormatPlain, FormatHole and FormatHoles |
| Text.FormatPlain | cloudflare_aggregated_analytics.py:75 | `%` formatting copies text without `%` as it stands |
| Text.FormatHole | cloudflare_aggregated_analytics.py:75 | a `%s` takes the next argument, and raises when there is none |
| Text.FormatHoles | cloudflare_aggregated_analytics.py:75 | a template of `%`-free pieces with `%s` holes formats to the pieces interleaved with the arguments exactly when the argument count matches, and raises otherwise |
| Http.Attempts | cf_box/client.py:50 | `range(max_retries)` has `max_retries` attempts, none when it is not positive |
| Http.FirstFinal | cf_box/client.py:50-76 | the attempt that ends the loop is within the budget, ends it, and no earlier one does; None means no attempt within the budget ends it |
| Http.FirstFinalAt | cf_box/client.py:50-76 | an attempt that ends the loop after attempts that do not is the one found |
| Rewrite.FirstFailure | cf_box/data_export.py:86-90 | the position of the first element whose masking raises, and every earlier one succeeds; None when all succeed |
| Rewrite.Visited | cf_box/data_export.py:86-90 | the loop visits at most the whole list |
| Rewrite.Rewritten | cf_box/data_export.py:86-90 | the list keeps its length; visited elements are rewritten, later ones untouched |
| Rewrite.RewriteAll | cf_box/data_export.py:86-90 | the in-place loop leaves exactly Rewritten and reports exactly FirstFailure |
| Rewrite.FirstFailureAt | cf_box/data_export.py:86-90 | a raise at `i` after successes is the first failure |
| Rewrite.FirstFailureNone | cf_box/data_export.py:86-90 | no raise means no failure |
| Models.ValidateId | cf_box/models.py:17-23 | `validate_id`: an empty id or one under 8 characters raises the validation error; any other is returned as it is; stated by ValidateIdAccepts and ValidateIdIdempotent |
| Models.ValidateIdAccepts | cf_box/models.py:19-23 | `validate_id` accepts exactly ids of 8 or more characters, returns them unchanged, and raises a validation error otherwise (the empty id included) |
| Models.ValidateIdIdempotent | cf_box/models.py:19-23 | an accepted id is accepted again, unchanged |
| Models.NewAccount | cf_box/models.py:9-23 | an account is built exactly when its id is valid, with the given fields |
| Models.NewAccountExamples | tests/test_models.py:19-28 | a 16-character id is accepted; `"short"` is rejected |
| Models.NewDnsRecord | cf_box/models.py:37-47 | `proxied` defaults to False and `ttl` to 1; other fields are as given |
| Models.NewIpList | cf_box/models.py:63-71 | both counters default to 0 |
| Models.NewApiResponse | cf_box/models.py:53-58 | `errors` and `messages` default to empty lists |
| Models.NewMetrics | cf_box/models.py:86-94 | every counter defaults to 0 |
| Models.DefaultsWhenOmitted | cf_box/models.py:44-45 | with nothing given, every model has its declared defaults |
| Client.Request | cf_box/client.py:32-76 | `request` returns the body of the first reply that is neither a 429, nor a status of 400 or more, nor an exception, after that many attempts; None after `max_retries` attempts otherwise |
| Client.AllRateLimitedGivesNone | cf_box/client.py:56-76 | when every reply is a 429, no attempt completes and the result is None |
| Client.EndpointUrl | cf_box/client.py:92 | the request URL: the base URL, one `/` and the endpoint with its leading slashes dropped; its contract is its result `url`, stated by EndpointUrlStripsSlashes |
| Client.EndpointUrlStripsSlashes | cf_box/client.py:92 | the URL is the base, one `/`, and the endpoint without its leading slashes |
| Client.PageUrl | cf_box/client.py:95-96 | the page URL: the URL, `&` when it already holds a `?` and `?` otherwise, then `per_page` and `page`; stated by PageUrlQuery |
| Client.PageUrlQuery | cf_box/client.py:95-96 | a page URL extends the URL with `?` when it had none (then exactly one `?`) and with `&` when it had one (the `?` count unchanged) |
| Client.PageQueryPlain | cf_box/client.py:96 | the paging parameters hold no `?` |
| Client.PageUrls | cf_box/client.py:90-112 | the loop asks for `n` URLs |
| Client.PageUrlsAt | cf_box/client.py:96-112 | the k-th URL requested is the one for page k + 1 |
| Client.FetchAllPages | cf_box/client.py:78-115 | `fetch_all_pages` requests pages 1, 2, … at their page URLs; every page before the last is a full list page; the last is missing, unsuccessful, empty, a short list or a single object; the results are the pages' results in order |
| Client.FetchedAll | cf_box/client.py:78-115 | the specification of `fetch_all_pages`: pages 1, 2, … requested at their page URLs, each before the last a full list page, the last one stopping, the results the pages' results in order; FetchAllPages and FetchPages meet it |
| Client.FetchPages | cf_box/client.py:94-112 | the `while True` loop meets the same specification, from the endpoint URL on |
| Client.FullPagesAll | cf_box/client.py:103-112 | after `n` full list pages, the loop has gone on past each |
| Client.StopsAt | cf_box/client.py:100-110 | a loop that meets a stopping page after full pages has fetched all it will |
| Client.FetchAllPagesExample | tests/test_client.py:24-37 | two items on a first page of 50 end the listing with those two items, after one request |
| Client.SingleResultEnds | cf_box/client.py:108-110 | a single-object result is appended and ends the loop at that page |
| Client.ZonesEndpoint | cf_box/client.py:134-137 | `get_zones`: `zones?account.id=<id>` for a non-empty id, else `zones`; stated by ZonesOfAccountPageUrl and ZonesPageUrl |
| Client.ZonesOfAccountPageUrl | cf_box/client.py:134-136 | with an account id, the zones page URL extends the filtered endpoint with `&`, since it already holds a `?` |
| Client.ZonesPageUrl | cf_box/client.py:134-137 | without an account id, the zones page URL is `base/zones?per_page=..&page=..` |
| Client.EndpointPageUrl | cf_box/client.py:92 | an endpoint without a leading `/` is appended after one `/` |
| DataExport.MaskLocalPart | cf_box/data_export.py:48 | a local part longer than 2 keeps its length and first and last characters, with stars in between; a shorter one gets one `*` appended |
| DataExport.MaskDomain | cf_box/data_export.py:49-55 | the domain half of `anonymize_email`: with a dot, the first label cut to its first character and stars and the other labels joined back; without one, the domain; an empty first label raises IndexError; stated by MaskDomainShape and MaskDomainAt |
| DataExport.MaskDomainShape | cf_box/data_export.py:49-55 | no dot: the domain unchanged; a leading dot: an IndexError; otherwise the first label becomes its first character and stars, and the rest from the first dot is kept |
| DataExport.MaskDomainAt | cf_box/data_export.py:49-53 | a domain whose first dot is at `i > 0` masks to its first character, `i - 1` stars and the rest from the dot |
| DataExport.AnonymizeEmail | cf_box/data_export.py:45-56 | `anonymize_email`: text without `@` unchanged; one `@` gives the masked local part, `@` and the masked domain; more `@` raise on unpacking; stated by AnonymizeEmailShape, AnonymizeEmailAt, AnonymizeEmailRejectsManyAts and AnonymizeEmailShortChanges |
| DataExport.AnonymizeEmailShape | cf_box/data_export.py:45-56 | for an address with one `@`, the result is the masked local part, `@` and the masked domain, and it raises exactly when the domain masking does |
| DataExport.AnonymizeEmailAt | cf_box/data_export.py:45-56 | for `name@domain` with the first dot at `i > 0`, the result is the masked name, `@`, the first domain character, `i - 1` stars and the rest; so `test@example.com` gives `t**t@e******.com` |
| DataExport.AnonymizeEmailRejectsManyAts | cf_box/data_export.py:47 | two or more `@` make the unpacking raise |
| DataExport.AnonymizeEmailShortChanges | cf_box/data_export.py:48 | with a local part of at most 2 characters the address changes |
| DataExport.AnonymizeAccountId | cf_box/data_export.py:68-70 | the result is a string exactly when the id is; non-strings and ids under 10 characters pass through; others become the first 6 characters, `...` and the last 4 |
| DataExport.AnonymizeAccountIdExample | tests/test_data_export.py:35-45 | `1234567890abcdef` gives `123456...cdef`; `short` is unchanged |
| DataExport.MaskAccount | cf_box/data_export.py:86-90 | one pass of the account loop: `name` masked first, then `id`, each only when present; a raising name leaves the account unchanged; stated by MaskAccountFields |
| DataExport.MaskAccountFields | cf_box/data_export.py:86-90 | only `name` and `id` change, only when present, and to their masks; an account whose name masking raises is left as it was |
| DataExport.AnonymizeData | cf_box/data_export.py:73-92 | the same object is returned; zones and records are never changed; with the flag off nothing changes; with it on, the accounts are rewritten in place up to the first that raises |
| DataExportScript.RequestWithRetries | cloudflare_data_export.py:21-41 | the body of the first reply that is neither a 429, nor a 4xx/5xx, nor an exception; None after `max_retries` attempts |
| DataExportScript.CompletesAgainstClient | cloudflare_data_export.py:27-36 | the script completes on the same replies as the package's client, except statuses of 600 and above, which only the script accepts |
| DataExportScript.RequestFirstOk | test_cloudflare_data_export.py:98-106 | a first reply of 200 is returned on the first attempt |
| DataExportScript.PageUrl | cloudflare_data_export.py:50 | the script's page URL, `?` or `&` before `per_page` and `page` as the URL has no query or has one; stated by PageUrlAgrees |
| DataExportScript.PageUrlAgrees | cloudflare_data_export.py:50 | the script builds exactly the package client's page URL |
| DataExportScript.AsEnvelope | cloudflare_data_export.py:53-56 | a page reads as an envelope exactly when there is a reply |
| DataExportScript.Envelopes | cloudflare_data_export.py:49-61 | each page is read as the client's envelope |
| DataExportScript.FetchAllPages | cloudflare_data_export.py:44-63 | the script's loop meets the package's paging specification on the same pages |
| DataExportScript.FetchAllPagesExample | test_cloudflare_data_export.py:108-115 | one item on a first page of 50 ends the listing with that item, after one request |
| DataExportScript.MaskDomain | cloudflare_data_export.py:130 | an empty domain raises IndexError; a domain without a dot raises the ValueError of `index` |
| DataExportScript.MaskDomainShape | cloudflare_data_export.py:130 | with a dot: the first character, one star fewer than the dot's position, and the rest from the first dot |
| DataExportScript.MaskDomainAgainstPackage | cloudflare_data_export.py:130 | equal to the package's mask when the first dot is not leading; without a dot the package keeps the domain while the script raises |
| DataExportScript.AnonymizeEmail | cloudflare_data_export.py:124-131 | the script's `anonymize_email`: no `@` unchanged, more than one raises on unpacking, one gives the package's local-part mask, `@` and the script's domain mask; stated by AnonymizeEmailShape and AnonymizeEmailAgainstPackage |
| DataExportScript.AnonymizeEmailShape | cloudflare_data_export.py:126-131 | with one `@`: the package's local-part mask, `@` and the script's domain mask |
| DataExportScript.AnonymizeEmailAgainstPackage | cloudflare_data_export.py:124-131 | the same as the package with no `@` (unchanged) or with several (raises), and with one `@` wherever the domain masks agree |
| DataExportScript.AnonymizeAccountId | cloudflare_data_export.py:133-135 | no length guard: the first up-to-6 characters, `...` and the last up-to-6 |
| DataExportScript.AccountIdIdempotent | cloudflare_data_export.py:135 | an id of 6 or more characters is masked once and for all |
| DataExportScript.AccountIdShortGrows | cloudflare_data_export.py:135 | a shorter id grows when masked again |
| DataExportScript.AccountIdAgainstPackage | cloudflare_data_export.py:135 | for ids of 10 or more, the package's mask is the script's without its 10th and 11th characters: the script keeps two more trailing characters |
| DataExportScript.AnonymizeAccountIdExample | test_cloudflare_data_export.py:122-125 | `1234567890abcdef` gives `123456...abcdef` |
| DataExportScript.MaskAccount | cloudflare_data_export.py:139-141 | one pass of the account loop: the id masked first, then the name; a raising name leaves the new id in place; stated by MaskAccountFields |
| DataExportScript.MaskAccountFields | cloudflare_data_export.py:139-141 | the id is always masked first; the name is replaced exactly when its masking succeeds |
| DataExportScript.MaskZone | cloudflare_data_export.py:143-145 | one pass of the zone loop: the same two assignments on the zone's `account`; stated by MaskZoneFields |
| DataExportScript.MaskZoneFields | cloudflare_data_export.py:143-145 | a zone changes only in its `account` object, as an account does |
| DataExportScript.MaskRecord | cloudflare_data_export.py:147-149 | one pass of the record loop: `account_id` and `name` read as `""` when missing, the id set first; stated by MaskRecordFields |
| DataExportScript.MaskRecordFields | cloudflare_data_export.py:147-149 | a record always ends with `account_id` set, `...` when it was missing; a missing name becomes `""`; other fields are untouched |
| DataExportScript.Anonymized | cloudflare_data_export.py:137-151 | the three lists after `anonymize_data` and where it raised: each list rewritten up to its first failure, later lists untouched; stated by AnonymizedOrder and met by AnonymizeData |
| DataExportScript.AnonymizedOrder | cloudflare_data_export.py:137-151 | accounts are always rewritten; zones only when no account raised; records only when nothing raised before; the failure names the first object that raised |
| DataExportScript.AnonymizeData | cloudflare_data_export.py:137-151 | the same object is returned, and its three lists and the failure are exactly Anonymized of the old lists |
| IpListManager.Anonymize | cf_box/ip_list_manager.py:70-84 | `anonymize`: the flag off passes text through; text with `@` gets the address mask, other text the id mask; stated by AnonymizeDispatch and AnonymizeKeepsAtPresence |
| IpListManager.AnonymizeDispatch | cf_box/ip_list_manager.py:70-84 | the flag off is the identity; text with `@` gets the e-mail mask; other text gets the id mask (under 10 characters unchanged, else first 6, `...`, last 4) |
| IpListManager.AccountIdIdempotent | cf_box/ip_list_manager.py:65-67 | a masked id of 10 or more is 13 characters with the same first 6 and last 4, and masking again changes nothing |
| IpListManager.AccountIdExample | cf_box/ip_list_manager.py:65-67 | a 32-character id gives `123456...cdef` |
| IpListManager.MaskDomainChars | cf_box/ip_list_manager.py:46-52 | a masked domain holds only stars and characters of the domain |
| IpListManager.EmailKeepsOneAt | cf_box/ip_list_manager.py:42-53 | no `@`: unchanged; otherwise a result holds exactly one `@` |
| IpListManager.EmailPreservesLength | cf_box/ip_list_manager.py:45-53 | with a local part over 2 characters and a dot after the first domain character, the length is kept |
| IpListManager.AnonymizeKeepsAtPresence | cf_box/ip_list_manager.py:80-84 | the result holds an `@` exactly when the text does |
| IpListScript.Payload | cloudflare_ip_list_manager.py:46 | the PUT body, one `{"ip": ip}` item per address; stated by PayloadRoundTrip and PayloadOfIps |
| IpListScript.PayloadRoundTrip | cloudflare_ip_list_manager.py:46 | one `{"ip": ip}` item per address, in order, duplicates kept; the items give the addresses back |
| IpListScript.PayloadOfIps | cloudflare_ip_list_manager.py:46 | every payload is the one built from its addresses |
| IpListScript.SyncSucceeded | cloudflare_ip_list_manager.py:47-53 | the result of `sync_ip_list`: False on a request exception or a 4xx/5xx status, else the body's `success`, False when absent; stated by SyncSucceededCases |
| IpListScript.SyncSucceededCases | cloudflare_ip_list_manager.py:47-53 | the sync succeeds exactly on a non-4xx/5xx reply whose `success` is True; an exception, an error status or a missing `success` gives False |
| IpListScript.SyncIpList | cloudflare_ip_list_manager.py:41-53 | one PUT to the account's list, carrying the whole list as payload, and whether it succeeded |
| IpListScript.FindList | cloudflare_ip_list_manager.py:103 | a list found is one of the account's lists with that name; None means no list has it |
| IpListScript.FindListFirst | cloudflare_ip_list_manager.py:103 | the list found is the first of that name |
| IpListScript.Lines | cloudflare_ip_list_manager.py:111-117 | `strip().split('\n')` always gives at least one line |
| IpListScript.LinesRejoin | cloudflare_ip_list_manager.py:111-117 | the lines joined by newlines are the stripped text, no line holds a newline, and an empty text gives `[""]` |
| IpListScript.SourceLines | cloudflare_ip_list_manager.py:108-120 | `ip_data`: the lines of the remote text when `sync_from` is set, else of the local file when `local_file` is; empty when the read fails or neither is set; stated by SyncFromFirst, ReadSourceNotEmpty and EmptyBodyIsOneLine |
| IpListScript.SyncFromFirst | cloudflare_ip_list_manager.py:109-119 | with `sync_from` set, neither `local_file` nor the files change the lines |
| IpListScript.ReadSourceNotEmpty | cloudflare_ip_list_manager.py:108-121 | a source that was read gives a non-empty list |
| IpListScript.AllEvents | cloudflare_ip_list_manager.py:86-124 | what `main` reports for every remote account, account after account; ManageIpLists meets it, and NoListsSkipsAccount and OtherEntriesIgnored state its cases |
| IpListScript.ManageIpLists | cloudflare_ip_list_manager.py:86-124 | the account loop produces exactly AllEvents: account after account, configured entry after entry, target after target |
| IpListScript.ManageAccount | cloudflare_ip_list_manager.py:97-98 | the configured-account loop adds exactly the events of the entries whose id is the remote account's |
| IpListScript.TargetEvent | cloudflare_ip_list_manager.py:99-124 | one configured target: list missing, nothing to sync, or one PUT of the source lines with its result; stated by SyncedEvent and TargetEventsShape |
| IpListScript.SyncTargets | cloudflare_ip_list_manager.py:99-124 | the target loop adds exactly one event per target, in order |
| IpListScript.TargetEventsShape | cloudflare_ip_list_manager.py:99-124 | one event per target, the k-th being the k-th target's |
| IpListScript.SyncedEvent | cloudflare_ip_list_manager.py:103-124 | a PUT happens exactly when a list of the name exists and the source gave lines; it carries all those lines to that list, and its result is the sync's |
| IpListScript.OtherEntriesIgnored | cloudflare_ip_list_manager.py:97-98 | configured entries with other ids contribute nothing |
| IpListScript.NoListsSkipsAccount | cloudflare_ip_list_manager.py:91-95 | an account whose lists are missing or empty is skipped, whatever is configured |
| IpListScript.EmptyBodyIsOneLine | cloudflare_ip_list_manager.py:108-121 | an empty body gives one empty line, which is sent |
| Analytics.Indent | cf_box/aggregated_analytics.py:30-59 | an indentation of `n` spaces |
| Analytics.IndentedPlain | cf_box/aggregated_analytics.py:30-59 | query text written as indented parts holds no character, other than a space, that none of the parts' texts holds |
| Analytics.HeadPlain | cf_box/aggregated_analytics.py:30-33 | the query text before the account tag holds no `%` |
| Analytics.AfterTagPlain | cf_box/aggregated_analytics.py:33-39 | the text between the account tag and the start time holds no `%` |
| Analytics.AfterStartPlain | cf_box/aggregated_analytics.py:39 | the text between the start and end times holds no `%` |
| Analytics.TailPlain | cf_box/aggregated_analytics.py:39-59 | the text after the end time holds no `%` |
| Analytics.DimensionsPlain | cf_box/aggregated_analytics.py:41-45 | the dimensions block holds no `%` |
| Analytics.SumPlain | cf_box/aggregated_analytics.py:46-53 | the sum block holds no `%` |
| Analytics.ClosePlain | cf_box/aggregated_analytics.py:54-59 | the closing braces hold no `%` |
| Analytics.Field | cf_box/aggregated_analytics.py:33-39 | a value read up to a closing quote is quote-free and rebuilds the text |
| Analytics.FieldOf | cf_box/aggregated_analytics.py:33-39 | a quote-free value followed by a quoted piece reads back as that value |
| Analytics.ReadFill | cf_box/aggregated_analytics.py:30-59 | the three values filled into a template read back by position |
| Analytics.FillRead | cf_box/aggregated_analytics.py:30-59 | whatever is read back rebuilds the text it came from |
| Analytics.BuildAnalyticsQuery | cf_box/aggregated_analytics.py:19-59 | `build_analytics_query`: the query text with the account tag, start time and end time at their places; stated by QueryRoundTrip and ParsedQueryBuilds |
| Analytics.QueryRoundTrip | cf_box/aggregated_analytics.py:30-39 | `build_analytics_query` puts the account tag, start time and end time verbatim at their places: parsing them back gives them |
| Analytics.ParsedQueryBuilds | cf_box/aggregated_analytics.py:30-59 | every text the parser accepts is the query built from what it reads |
| Analytics.EntryRow | cf_box/aggregated_analytics.py:99-116 | the row of one group: account and zone names, country and method (`"Unknown"` when missing) and the counters; stated by GroupRowsAt |
| Analytics.GroupRowsAt | cf_box/aggregated_analytics.py:99-118 | one row per group, in order, carrying the account and zone names, `"Unknown"` for a missing dimension, and the group's five counters |
| Analytics.ZonesRowsName | cf_box/aggregated_analytics.py:106-107 | every row of an account names that account |
| Analytics.ProcessAnalyticsData | cf_box/aggregated_analytics.py:62-128 | no `"data"`: no rows and no totals; otherwise the rows are AllRows and the totals are Totals of the accounts |
| Analytics.ProcessAccount | cf_box/aggregated_analytics.py:84-124 | the account loop body appends the account's rows and computes its total |
| Analytics.ProcessZone | cf_box/aggregated_analytics.py:95-124 | the zone loop body appends the zone's rows and adds its groups' counters |
| Analytics.AllRows | cf_box/aggregated_analytics.py:83-118 | the rows of all accounts, account after account, zone after zone, group after group; stated by RowCount, AllRowsAppend and ZonesRowsName, met by ProcessAnalyticsData |
| Analytics.RowCount | cf_box/aggregated_analytics.py:83-118 | the row count is the number of groups over all zones of all accounts |
| Analytics.ZonesRowCount | cf_box/aggregated_analytics.py:95-118 | an account's row count is the number of its zones' groups |
| Analytics.AllRowsAppend | cf_box/aggregated_analytics.py:83-118 | rows come in account order |
| Analytics.SumRowsAppend | cf_box/aggregated_analytics.py:120-124 | the counters of concatenated rows add up |
| Analytics.GroupRowsSum | cf_box/aggregated_analytics.py:111-124 | a zone's counters are the sum of its rows' counters |
| Analytics.TotalIsSumOfRows | cf_box/aggregated_analytics.py:87-124 | each account's five totals are the sums of the matching fields of its rows |
| Analytics.ZonesTotal | cf_box/aggregated_analytics.py:95-124 | the zones' counters are the sum over their rows |
| Analytics.EmptyAccountTotal | cf_box/aggregated_analytics.py:87-126 | an account without groups gets all five counters at 0 |
| Analytics.Totals | cf_box/aggregated_analytics.py:83-126 | the per-account totals by name, a later account replacing an earlier one of the same name; stated by TotalsKeys, LastAccountWins and TotalIsSumOfRows, met by ProcessAnalyticsData |
| Analytics.TotalsKeys | cf_box/aggregated_analytics.py:83-126 | every account of the reply, and nothing else, has a totals entry |
| Analytics.LastAccountWins | cf_box/aggregated_analytics.py:126 | of accounts sharing a name, the last one's totals are kept |
| AnalyticsScript.QueryFormats | cloudflare_aggregated_analytics.py:37-75 | the template formats with exactly three arguments into the package's query for them, and raises otherwise |
| AnalyticsScript.FormatFour | cloudflare_aggregated_analytics.py:75 | a template of four `%`-free pieces formats exactly three arguments, and raises on any other count |
| AnalyticsScript.FetchGraphqlData | cloudflare_aggregated_analytics.py:69-100 | the query is the package's query; the result is decided by the first reply that is not a 429 within `max_retries` attempts; None when there is none |
| AnalyticsScript.PostQuery | cloudflare_aggregated_analytics.py:77-100 | the attempt loop: a 429 moves on to the next attempt; the first other reply decides the result, after that many attempts |
| AnalyticsScript.Outcome | cloudflare_aggregated_analytics.py:86-97 | what a reply that ends the attempt loop gives: not 200 or no data None, else the body; an exception propagates; stated by OutcomeReturnsData, DataObjectTruthiness and FailedStatusStops |
| AnalyticsScript.OutcomeReturnsData | cloudflare_aggregated_analytics.py:86-97 | a body is returned only from a 200 reply with data, and unchanged; only an exception propagates |
| AnalyticsScript.DataObjectTruthiness | cloudflare_aggregated_analytics.py:90-97 | a 200 reply with a `"data"` object gives None exactly when that object is empty, and the body otherwise, whatever keys it holds |
| AnalyticsScript.FailedStatusStops | cloudflare_aggregated_analytics.py:86-88 | a status other than 200 and 429 ends the loop at once with None |
| AnalyticsScript.AllRateLimitedGivesNone | cloudflare_aggregated_analytics.py:80-100 | every attempt rate-limited: None |
| AnalyticsScript.ProcessData | cloudflare_aggregated_analytics.py:103-150 | no reply or no `"data"`: no rows and no totals; otherwise the same rows and totals as the package |
| AnalyticsScript.AccumulateAccount | cloudflare_aggregated_analytics.py:125-148 | an account's zones append its rows and add its total to its entry |
| AnalyticsScript.AccumulateZone | cloudflare_aggregated_analytics.py:126-148 | a zone's groups append its rows and add its counters to the account's entry |
| AnalyticsScript.ResetThenAdd | cloudflare_aggregated_analytics.py:117-123 | resetting an entry to zero and then adding leaves only what was added: a repeated name starts again from zero |
| AnalyticsScript.AccountStep | cloudflare_aggregated_analytics.py:113-148 | one account more appends its rows and replaces its name's total |

## Left out

- HTTP transport is not modelled: sessions, headers, the `Retry-After` header and its `int()` parsing (which can raise ValueError), `sleep` and the random jitter. Each attempt's reply is an oracle value. A 429 only moves on to the next attempt.
- Python's `while True` in both `fetch_all_pages` has no bound. The model's page sequence is finite, and a request past its end reads as no reply, which ends the loop.
- A `KeyError` or `TypeError` on a reply or dictionary of the wrong shape is not modelled. Examples are a missing `name`, `sum` or `dimensions`, or `zone["account"]` being None. The datatypes hold the keys the code reads. Keys read with `.get(k, default)` are `Option`s or default to empty lists.
- `response.json()` failing to decode is not modelled.
- DataExportScript.MaskAccount: account ids are strings. A non-string id, which raises TypeError when sliced in the script, is not modelled. In `cf_box/data_export.py` ids are JSON scalars and non-strings pass through, as the code does.
- Aliasing between the export's inner dictionaries is not modelled. For example, a zone's `account` may be the same object as an entry of `accounts`. The model treats them as separate values.
- In `fetch_all_pages`, a single-object `result` that is falsy (an empty dictionary) ends the loop without being appended. The model's `Single` result is always appended.
- A reply's `"data"` object is modelled by its `viewer` object, if it has one, and the number of its other keys. So `data.get("data")` in the script is truthy exactly when that object is present and not empty. A `viewer` key whose value is null or not an object counts among the other keys and so reads as no accounts, where Python raises AttributeError.
- A `"data"` key whose value is null reads as `Response(None)` and gives no rows and no totals in Analytics.ProcessAnalyticsData and AnalyticsScript.ProcessData, where Python raises AttributeError on `data["data"].get("viewer", {})` (cf_box/aggregated_analytics.py:80, cloudflare_aggregated_analytics.py:112).
- In the IP-list script, a `sync_from` key with a null value takes the `sync_from` branch in Python. The model does not distinguish a null key from a missing one.
- The `record["account_id"]` key present but None is not modelled. Python's `record.get("account_id", "")` would then pass None to the mask.
- The oracles (reply sequences, remote text, file contents, IP lists, the PUT endpoint) are deterministic functions of the request.
- Text.Format models only the `%s` and `%%` conversions, which are the only ones the template uses.
- Pydantic field aliases, and the dictionary and datetime fields of the models, are not modelled.
- The loops are split into helper methods for their inner loops: Analytics.ProcessAccount and ProcessZone, AnalyticsScript.AccumulateAccount and AccumulateZone, IpListScript.ManageAccount and SyncTargets, Client.FetchPages, and AnalyticsScript.PostQuery. Each is specified against the same functions as its caller.
- These parts are not part of this model: the file writers and reports, Markdown, CSV and Excel output, regex-based report masking, the database and PDF modules, logging, YAML configuration loading, and the orchestration entry points. The entry points read environment variables, the API token and the clock.
- DataExport.AnonymizeEmailAt: the tests' `test@example.com` is covered by this general lemma (dot at position 7). The literal address is not restated.
- Client.ZonesOfAccountPageUrl: states the page URL in terms of the endpoint `zones?account.id=<id>` rather than spelling out the whole literal URL.
- `get_accounts`, `get_dns_records` and `post_graphql` are not modelled separately. They call `fetch_all_pages` or `request` with a fixed endpoint or URL, and those calls are modelled.
- Analytics.EntryRow, AnalyticsScript.ProcessData: a dimension key that is present with a null value gives None in Python (`dict.get` returns the stored None: cf_box/aggregated_analytics.py:103-104, cloudflare_aggregated_analytics.py:128-129); the model reads every missing or null dimension as `"Unknown"`.
- IpListScript.SourceLines: only FileNotFoundError is caught around the local file (cloudflare_ip_list_manager.py:116-120); the model reads every failed read as `FileMissing`. In Python a PermissionError, IsADirectoryError or UnicodeDecodeError, or `open(None)` for a null `local_file`, propagates and ends `main`.
- DataExportScript.FetchAllPages: a `result` that is an object rather than a list raises nothing in the script (cloudflare_data_export.py:56-59): `extend` adds its keys and `len` counts them. The model's pages carry only list results.
