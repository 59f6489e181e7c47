// The stand-alone IP-list script (cloudflare_ip_list_manager.py): the PUT
// payload that replaces a list's items, and the part of `main` that, for
// each remote account, picks the configured lists, reads their source and
// replaces their content. The Cloudflare API, the remote source and the
// local file are oracles: each maps the request it is given to its reply.

module IpListScript {
  import opened Base
  import opened Text

  // ---------------------------------------------------------------------------
  // sync_ip_list

  /** One item of the PUT payload: `{"ip": ip}`. */
  datatype Item = Item(ip: string)

  /** The PUT request `sync_ip_list` sends: the list's items URL and the payload. */
  datatype PutRequest = PutRequest(accountId: string, listId: string, payload: seq<Item>)

  /**
   * The reply to the PUT: a response with its status and the `success` of
   * its body (absent when the body has none), or a raised request exception.
   */
  datatype PutReply = Put(status: int, success: Option<bool>) | PutThrown

  /** `[{"ip": ip} for ip in ip_list]`. */
  function Payload(ips: seq<string>): (items: seq<Item>)
  {
    seq(|ips|, k requires 0 <= k < |ips| => Item(ips[k]))
  }

  /** The addresses a payload carries, in order. */
  function IpsOf(items: seq<Item>): (ips: seq<string>)
  {
    seq(|items|, k requires 0 <= k < |items| => items[k].ip)
  }

  /** One item per address, in the same order, duplicates kept: the payload gives back the addresses. */
  lemma PayloadRoundTrip(ips: seq<string>)
    ensures |Payload(ips)| == |ips|
    ensures forall k :: 0 <= k < |ips| ==> Payload(ips)[k] == Item(ips[k])
    ensures IpsOf(Payload(ips)) == ips
  {
  }

  /** And every payload is the one built from its addresses. */
  lemma PayloadOfIps(items: seq<Item>)
    ensures Payload(IpsOf(items)) == items
  {
    assert forall k :: 0 <= k < |items| ==> Payload(IpsOf(items))[k] == items[k];
  }

  /**
   * The result of `sync_ip_list` on a reply: False on a request exception
   * or a 4xx/5xx status (`raise_for_status`), otherwise the body's
   * `success`, False when it has none.
   */
  function SyncSucceeded(reply: PutReply): (ok: bool)
  {
    match reply
    case PutThrown => false
    case Put(status, success) => if 400 <= status < 600 then false else success.GetOr(false)
  }

  lemma SyncSucceededCases(reply: PutReply)
    ensures SyncSucceeded(reply)
      <==> reply.Put? && !(400 <= reply.status < 600) && reply.success == Some(true)
  {
  }

  /** `sync_ip_list(account_id, list_id, ip_list)`: one PUT of the whole list, and whether it succeeded. */
  function SyncIpList(accountId: string, listId: string, ips: seq<string>, put: PutRequest -> PutReply)
    : (r: (PutRequest, bool))
    ensures r.0.payload == Payload(ips) && r.0.accountId == accountId && r.0.listId == listId
    ensures r.1 == SyncSucceeded(put(r.0))
  {
    var request := PutRequest(accountId, listId, Payload(ips));
    (request, SyncSucceeded(put(request)))
  }

  // ---------------------------------------------------------------------------
  // Configuration and what the API reports

  /** An account as listed by the API; its `id` may be missing. */
  datatype RemoteAccount = RemoteAccount(id: Option<string>)

  /** An IP list of an account as listed by the API. */
  datatype RemoteList = RemoteList(id: string, name: string)

  /**
   * A configured target list: its name and, when the keys are present, the
   * URL to copy it from and the local file to read it from.
   */
  datatype Target = Target(name: string, syncFrom: Option<string>, localFile: Option<string>)

  /** A configured account: its id and its target lists (`[]` when the key is missing). */
  datatype ConfigEntry = ConfigEntry(id: string, lists: seq<Target>)

  /** The text at a source URL, or a request exception. */
  datatype Fetched = Fetched(text: string) | FetchFailed

  /** The contents of a local file, or FileNotFoundError. */
  datatype FileRead = FileText(text: string) | FileMissing

  /** The sources a run reads from. */
  datatype Sources = Sources(remote: string -> Fetched, files: string -> FileRead)

  // ---------------------------------------------------------------------------
  // Target and source selection

  /** `next((l for l in ip_lists if l['name'] == list_name), None)`. */
  function FindList(lists: seq<RemoteList>, name: string): (r: Option<RemoteList>)
    ensures r.Some? ==> r.value in lists && r.value.name == name
    ensures r.None? ==> forall l :: l in lists ==> l.name != name
  {
    if lists == [] then None
    else if lists[0].name == name then Some(lists[0])
    else FindList(lists[1..], name)
  }

  /** The list found is the first of that name. */
  lemma {:induction false} FindListFirst(lists: seq<RemoteList>, name: string, i: nat)
    requires i < |lists| && lists[i].name == name
    requires forall k :: 0 <= k < i ==> lists[k].name != name
    ensures FindList(lists, name) == Some(lists[i])
  {
    if i > 0 {
      FindListFirst(lists[1..], name, i - 1);
    }
  }

  /** `text.strip().split('\n')`. */
  function Lines(text: string): (lines: seq<string>)
    ensures |lines| >= 1
  {
    Split(Strip(text), '\n')
  }

  /**
   * The lines are the stripped text cut at each newline, nothing dropped or
   * merged: joined again they give the stripped text, and none holds a
   * newline. An empty or blank text gives one empty line.
   */
  lemma LinesRejoin(text: string)
    ensures Join(Lines(text), '\n') == Strip(text)
    ensures forall k :: 0 <= k < |Lines(text)| ==> '\n' !in Lines(text)[k]
    ensures Strip(text) == [] ==> Lines(text) == [""]
  {
    JoinSplit(Strip(text), '\n');
    SplitShape(Strip(text), '\n');
  }

  /**
   * `ip_data` for a target: the lines of the remote text when `sync_from`
   * is configured, else those of the local file when `local_file` is; empty
   * when the read fails or neither is configured.
   */
  function SourceLines(t: Target, sources: Sources): (ips: seq<string>)
  {
    if t.syncFrom.Some? then
      match sources.remote(t.syncFrom.value)
      case Fetched(text) => Lines(text)
      case FetchFailed => []
    else if t.localFile.Some? then
      match sources.files(t.localFile.value)
      case FileText(text) => Lines(text)
      case FileMissing => []
    else []
  }

  /** `sync_from` wins over `local_file`: with it, the local file is never read. */
  lemma SyncFromFirst(t: Target, sources: Sources, localFile: Option<string>, files: string -> FileRead)
    requires t.syncFrom.Some?
    ensures SourceLines(t, sources) == SourceLines(t.(localFile := localFile), sources.(files := files))
  {
  }

  /** A source that could be read always gives at least one line, so an empty list is never sent from it. */
  lemma ReadSourceNotEmpty(t: Target, sources: Sources)
    requires t.syncFrom.Some? ==> sources.remote(t.syncFrom.value).Fetched?
    requires t.syncFrom.None? ==> t.localFile.Some? && sources.files(t.localFile.value).FileText?
    ensures SourceLines(t, sources) != []
  {
  }

  // ---------------------------------------------------------------------------
  // main, from the account loop on

  /** What `main` does for one configured target, as it reports it. */
  datatype Event =
    | NoLists(accountId: Option<string>)                   // the account has no IP lists: skipped
    | ListMissing(listName: string)                         // no remote list of that name
    | NothingToSync(listName: string)                       // the source gave no lines: no PUT
    | Synced(listName: string, request: PutRequest, ok: bool) // one PUT of the lines, and its result

  /** The event of one target of a matching configured account. */
  function TargetEvent(accountId: string, t: Target, lists: seq<RemoteList>, sources: Sources,
                       put: PutRequest -> PutReply): Event
  {
    match FindList(lists, t.name)
    case None => ListMissing(t.name)
    case Some(l) =>
      var ips := SourceLines(t, sources);
      if ips == [] then NothingToSync(t.name)
      else
        var (request, ok) := SyncIpList(accountId, l.id, ips, put);
        Synced(t.name, request, ok)
  }

  /** The events of a configured account's targets, in order. */
  function TargetEvents(accountId: string, targets: seq<Target>, lists: seq<RemoteList>, sources: Sources,
                        put: PutRequest -> PutReply): seq<Event>
  {
    if targets == [] then []
    else
      TargetEvents(accountId, targets[..|targets| - 1], lists, sources, put)
      + [TargetEvent(accountId, targets[|targets| - 1], lists, sources, put)]
  }

  /** The events of the configured accounts whose id is the remote account's, in configuration order. */
  function EntryEvents(accountId: Option<string>, config: seq<ConfigEntry>, lists: seq<RemoteList>,
                       sources: Sources, put: PutRequest -> PutReply): seq<Event>
  {
    if config == [] then []
    else
      var e := config[|config| - 1];
      EntryEvents(accountId, config[..|config| - 1], lists, sources, put)
      + (if Some(e.id) == accountId then TargetEvents(e.id, e.lists, lists, sources, put) else [])
  }

  /** The events of one remote account: none of its targets when it has no IP lists. */
  function AccountEvents(account: RemoteAccount, config: seq<ConfigEntry>,
                         ipLists: Option<string> -> Option<seq<RemoteList>>, sources: Sources,
                         put: PutRequest -> PutReply): seq<Event>
  {
    var lists := ipLists(account.id);
    if lists.None? || lists.value == [] then [NoLists(account.id)]
    else EntryEvents(account.id, config, lists.value, sources, put)
  }

  /** The events of all remote accounts, account after account. */
  function AllEvents(accounts: seq<RemoteAccount>, config: seq<ConfigEntry>,
                     ipLists: Option<string> -> Option<seq<RemoteList>>, sources: Sources,
                     put: PutRequest -> PutReply): seq<Event>
  {
    if accounts == [] then []
    else
      AllEvents(accounts[..|accounts| - 1], config, ipLists, sources, put)
      + AccountEvents(accounts[|accounts| - 1], config, ipLists, sources, put)
  }

  /**
   * The account loop of `main` (after the accounts were fetched): for each
   * remote account, fetch its IP lists; skip it when there are none; else
   * handle the targets of every configured account with its id.
   */
  method ManageIpLists(accounts: seq<RemoteAccount>, config: seq<ConfigEntry>,
                       ipLists: Option<string> -> Option<seq<RemoteList>>, sources: Sources,
                       put: PutRequest -> PutReply)
    returns (events: seq<Event>)
    ensures events == AllEvents(accounts, config, ipLists, sources, put)
  {
    events := [];
    for i := 0 to |accounts|
      invariant events == AllEvents(accounts[..i], config, ipLists, sources, put)
    {
      var account := accounts[i];
      var lists := ipLists(account.id);
      assert accounts[..i + 1][..i] == accounts[..i];
      if lists.None? || lists.value == [] {
        events := events + [NoLists(account.id)];
        continue;
      }
      events := ManageAccount(account.id, config, lists.value, sources, put, events);
    }
    assert accounts[..|accounts|] == accounts;
  }

  /** The loop over the configured accounts, for one remote account that has IP lists. */
  method ManageAccount(accountId: Option<string>, config: seq<ConfigEntry>, lists: seq<RemoteList>,
                       sources: Sources, put: PutRequest -> PutReply, events0: seq<Event>)
    returns (events: seq<Event>)
    ensures events == events0 + EntryEvents(accountId, config, lists, sources, put)
  {
    events := events0;
    for j := 0 to |config|
      invariant events == events0 + EntryEvents(accountId, config[..j], lists, sources, put)
    {
      var entry := config[j];
      assert config[..j + 1][..j] == config[..j];
      if Some(entry.id) == accountId {
        AppendAssociates(events0, EntryEvents(accountId, config[..j], lists, sources, put),
                         TargetEvents(entry.id, entry.lists, lists, sources, put));
        events := SyncTargets(entry.id, entry.lists, lists, sources, put, events);
      } else {
        assert EntryEvents(accountId, config[..j + 1], lists, sources, put)
          == EntryEvents(accountId, config[..j], lists, sources, put);
      }
    }
    assert config[..|config|] == config;
  }

  /** The loop over one configured account's target lists. */
  method SyncTargets(accountId: string, targets: seq<Target>, lists: seq<RemoteList>, sources: Sources,
                     put: PutRequest -> PutReply, events0: seq<Event>)
    returns (events: seq<Event>)
    ensures events == events0 + TargetEvents(accountId, targets, lists, sources, put)
  {
    events := events0;
    for k := 0 to |targets|
      invariant events == events0 + TargetEvents(accountId, targets[..k], lists, sources, put)
    {
      var target := targets[k];
      assert targets[..k + 1][..k] == targets[..k];
      AppendAssociates(events0, TargetEvents(accountId, targets[..k], lists, sources, put),
                       [TargetEvent(accountId, target, lists, sources, put)]);
      var cfList := FindList(lists, target.name);
      if cfList.None? {
        events := events + [ListMissing(target.name)];
        continue;
      }
      var ipData: seq<string> := [];
      if target.syncFrom.Some? {
        var reply := sources.remote(target.syncFrom.value);
        if reply.Fetched? {
          ipData := Lines(reply.text);
        }
      } else if target.localFile.Some? {
        var read := sources.files(target.localFile.value);
        if read.FileText? {
          ipData := Lines(read.text);
        }
      }
      if ipData == [] {
        events := events + [NothingToSync(target.name)];
      } else {
        var (request, ok) := SyncIpList(accountId, cfList.value.id, ipData, put);
        events := events + [Synced(target.name, request, ok)];
      }
    }
    assert targets[..|targets|] == targets;
  }

  // ---------------------------------------------------------------------------
  // Properties of a run

  /**
   * Each target gives exactly one event; a PUT is sent only for a remote
   * list of the target's name, with the whole of the source's lines, to
   * that list of the configured account.
   */
  lemma {:induction false} TargetEventsShape(accountId: string, targets: seq<Target>, lists: seq<RemoteList>,
                                             sources: Sources, put: PutRequest -> PutReply)
    ensures var es := TargetEvents(accountId, targets, lists, sources, put);
      && |es| == |targets|
      && forall k :: 0 <= k < |targets| ==> es[k] == TargetEvent(accountId, targets[k], lists, sources, put)
  {
    if targets != [] {
      var n := |targets| - 1;
      TargetEventsShape(accountId, targets[..n], lists, sources, put);
      var es := TargetEvents(accountId, targets, lists, sources, put);
      forall k | 0 <= k < |targets|
        ensures es[k] == TargetEvent(accountId, targets[k], lists, sources, put)
      {
        if k < n {
          assert targets[..n][k] == targets[k];
        }
      }
    }
  }

  /** What a Synced event says: the list exists, the source had lines, and they all went in one PUT. */
  lemma SyncedEvent(accountId: string, t: Target, lists: seq<RemoteList>, sources: Sources,
                    put: PutRequest -> PutReply)
    ensures var e := TargetEvent(accountId, t, lists, sources, put);
      e.Synced? <==> FindList(lists, t.name).Some? && SourceLines(t, sources) != []
    ensures var e := TargetEvent(accountId, t, lists, sources, put);
      e.Synced? ==>
        && e.request == PutRequest(accountId, FindList(lists, t.name).value.id, Payload(SourceLines(t, sources)))
        && IpsOf(e.request.payload) == SourceLines(t, sources)
        && e.ok == SyncSucceeded(put(e.request))
  {
    PayloadRoundTrip(SourceLines(t, sources));
  }

  /** A configured account whose id is not the remote account's contributes nothing. */
  lemma {:induction false} OtherEntriesIgnored(accountId: Option<string>, config: seq<ConfigEntry>,
                                               lists: seq<RemoteList>, sources: Sources,
                                               put: PutRequest -> PutReply)
    requires forall k :: 0 <= k < |config| ==> Some(config[k].id) != accountId
    ensures EntryEvents(accountId, config, lists, sources, put) == []
  {
    if config != [] {
      OtherEntriesIgnored(accountId, config[..|config| - 1], lists, sources, put);
    }
  }

  /** An account whose IP lists are missing or empty gives one NoLists event, whatever is configured. */
  lemma NoListsSkipsAccount(account: RemoteAccount, config: seq<ConfigEntry>,
                            ipLists: Option<string> -> Option<seq<RemoteList>>, sources: Sources,
                            put: PutRequest -> PutReply)
    requires ipLists(account.id).None? || ipLists(account.id) == Some([])
    ensures AccountEvents(account, config, ipLists, sources, put) == [NoLists(account.id)]
  {
  }

  /** An empty body: stripping and splitting it gives one empty line, which is sent. */
  lemma EmptyBodyIsOneLine()
    ensures Lines("") == [""]
    ensures Payload(Lines("")) == [Item("")]
  {
    assert Strip("") == "";
  }
}
