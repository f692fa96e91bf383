/**
 * The Mailcow API client: how an authenticated request is built from the
 * settings, how the answer (given as an abstract `Reply`) becomes a result
 * or an error, and how the loaders and alias creation update the
 * `domains` and `mailboxes` lists and the notifications.
 */
module Mailcow {
  import opened Wrappers
  import opened Js
  import opened Settings
  import N = Notifications

  /** The second argument of `fetchWithAuth`: the fields the callers pass. */
  datatype Options = Options(verb: Option<string>, headers: map<string, string>, body: Option<Json>)

  const NoOptions := Options(None, map[], None)

  /**
   * A request handed to `fetch`. Header values are the strings `fetch`
   * makes of them; `body` is the value whose JSON text is sent; `verb`,
   * the HTTP method, is "GET" when the options name none, as with `fetch`.
   */
  datatype Request = Request(url: string, verb: string, headers: map<string, string>, body: Option<Json>)

  /**
   * How the server reacted to a request: a success status with its
   * parsed body, a status outside the success range with its status text,
   * or a thrown failure (network error, or a body that is not JSON).
   */
  datatype Reply = Delivered(body: Json) | HttpError(statusText: string) | NetworkError(error: Exception)

  /** The request that went out (None when the credentials gate refused) and what `fetchWithAuth` returned or threw. */
  datatype Exchange = Exchange(sent: Option<Request>, result: Result<Json, Exception>)

  const ApiPath := "/api/v1/"

  const DomainsEndpoint := "get/domain/all"
  const MailboxesEndpoint := "get/mailbox/all"
  const AliasEndpoint := "add/alias"

  const DomainsFailed := "Erreur lors du chargement des domaines"
  const MailboxesFailed := "Erreur lors du chargement des bo\U{ee}tes mail"
  const AliasCreated := "Alias cr\U{e9}\U{e9} avec succ\U{e8}s !"
  const AliasFailed := "Erreur lors de la cr\U{e9}ation de l'alias"

  /** The error `fetchWithAuth` throws for a status outside the success range; the status text can be read back from it. */
  function ApiError(statusText: string): (e: Exception)
    ensures e.name == "Error" && |e.message| == 12 + |statusText|
    ensures e.message[..12] == "Erreur API: " && e.message[12..] == statusText
  {
    Exception("Error", "Erreur API: " + statusText)
  }

  /** The request `fetchWithAuth` sends with the given credentials. */
  function Authorized(s: Record, endpoint: string, options: Options): (r: Request)
    ensures r.url == ToText(s.mailcowUrl) + ApiPath + endpoint
    ensures r.verb == options.verb.GetOr("GET") && r.body == options.body
    ensures r.headers.Keys == options.headers.Keys + {"X-API-Key", "Content-Type"}
    ensures forall h :: h in options.headers ==> r.headers[h] == options.headers[h]
    ensures "X-API-Key" !in options.headers ==> r.headers["X-API-Key"] == ToText(s.apiKey)
    ensures "Content-Type" !in options.headers ==> r.headers["Content-Type"] == "application/json"
  {
    var defaults := map["X-API-Key" := ToText(s.apiKey), "Content-Type" := "application/json"];
    Request(ToText(s.mailcowUrl) + ApiPath + endpoint, options.verb.GetOr("GET"), defaults + options.headers, options.body)
  }

  /** `fetchWithAuth(endpoint, options)` under the settings `s`, when the server answers `reply`. */
  function FetchWithAuth(s: Record, endpoint: string, options: Options, reply: Reply): (x: Exchange)
    ensures x.sent.Some? <==> IsConfigured(s)
    ensures x.sent.Some? ==> x.sent.value == Authorized(s, endpoint, options)
    ensures !IsConfigured(s) ==> x.result == Err(MissingConfiguration)
    ensures x.result.Ok? <==> IsConfigured(s) && reply.Delivered?
    ensures x.result.Ok? ==> x.result.value == reply.body
    ensures IsConfigured(s) && reply.HttpError? ==> x.result == Err(ApiError(reply.statusText))
    ensures IsConfigured(s) && reply.NetworkError? ==> x.result == Err(reply.error)
  {
    match GetCredentials(s)
    case Err(e) => Exchange(None, Err(e))
    case Ok(credentials) =>
      var request := Authorized(credentials, endpoint, options);
      match reply
      case Delivered(body) => Exchange(Some(request), Ok(body))
      case HttpError(statusText) => Exchange(Some(request), Err(ApiError(statusText)))
      case NetworkError(e) => Exchange(Some(request), Err(e))
  }

  /** Mapping property `name` over the elements, in order: the values read, or the TypeError of the first `null`. */
  function PropertyOfEach(items: seq<Json>, name: string): (r: Result<seq<Option<Json>>, Exception>)
    ensures r.Ok? <==> JNull !in items
    ensures r.Ok? ==> |r.value| == |items| && forall i :: 0 <= i < |items| ==> r.value[i] == Own(items[i], name)
    decreases |items|
  {
    if items == [] then Ok([])
    else
      match Property(items[0], name)
      case Err(e) => Err(e)
      case Ok(first) =>
        match PropertyOfEach(items[1..], name)
        case Err(e) => Err(e)
        case Ok(rest) => Ok([first] + rest)
  }

  /** The list a loader publishes and whether it adds an error notification. */
  datatype Listing = Listing(list: seq<Option<Json>>, failed: bool)

  /**
   * What `loadDomains` (`name` = "domain_name") or `loadMailboxes`
   * (`name` = "username") ends with, stated in terms of the settings and
   * the server's reply.
   */
  function Loaded(s: Record, endpoint: string, name: string, reply: Reply): (r: Listing)
    ensures r.failed <==> !IsConfigured(s) || !reply.Delivered? || (reply.body.JArr? && JNull in reply.body.items)
    ensures r.failed ==> r.list == []
    ensures !r.failed && reply.body.JArr? ==>
              |r.list| == |reply.body.items| &&
              forall i :: 0 <= i < |r.list| ==> r.list[i] == Own(reply.body.items[i], name)
    ensures !r.failed && !reply.body.JArr? ==> r.list == []
  {
    match FetchWithAuth(s, endpoint, NoOptions, reply).result
    case Err(_) => Listing([], true)
    case Ok(data) =>
      if data.JArr? then
        match PropertyOfEach(data.items, name)
        case Ok(list) => Listing(list, false)
        case Err(_) => Listing([], true)
      else Listing([], false)
  }

  /** Two domain records answered in order give the two names in that order, with no notification. */
  lemma DomainsInOrder(s: Record, first: string, second: string)
    requires IsConfigured(s)
    ensures Loaded(s, DomainsEndpoint, "domain_name",
                   Delivered(JArr([JObj(map["domain_name" := JStr(first)]), JObj(map["domain_name" := JStr(second)])])))
         == Listing([Some(JStr(first)), Some(JStr(second))], false)
  {
    var items := [JObj(map["domain_name" := JStr(first)]), JObj(map["domain_name" := JStr(second)])];
    assert JNull !in items;
    var r := Loaded(s, DomainsEndpoint, "domain_name", Delivered(JArr(items)));
    assert |r.list| == 2 && r.list[0] == Own(items[0], "domain_name") && r.list[1] == Own(items[1], "domain_name");
  }

  /** The object `createAlias` serialises as the request body. */
  function AliasBody(alias: string, domain: string, target: string): (b: Json)
    ensures b.JObj? && b.fields.Keys == {"address", "goto", "active"}
    ensures Own(b, "address") == Some(JStr(alias + "@" + domain))
    ensures Own(b, "goto") == Some(JStr(target))
    ensures Own(b, "active") == Some(JNum(1))
  {
    JObj(map["address" := JStr(alias + "@" + domain), "goto" := JStr(target), "active" := JNum(1)])
  }

  /** The options `createAlias` passes: a POST of the alias object, with no headers of its own. */
  function AliasOptions(alias: string, domain: string, target: string): (o: Options)
    ensures o.verb == Some("POST") && o.headers == map[] && o.body == Some(AliasBody(alias, domain, target))
  {
    Options(Some("POST"), map[], Some(AliasBody(alias, domain, target)))
  }

  /** With credentials, `createAlias` POSTs its body to `<url>/api/v1/add/alias` with exactly the two default headers. */
  lemma AliasRequest(s: Record, alias: string, domain: string, target: string, reply: Reply)
    requires IsConfigured(s)
    ensures FetchWithAuth(s, AliasEndpoint, AliasOptions(alias, domain, target), reply).sent
         == Some(Request(ToText(s.mailcowUrl) + "/api/v1/add/alias", "POST",
                         map["X-API-Key" := ToText(s.apiKey), "Content-Type" := "application/json"],
                         Some(AliasBody(alias, domain, target))))
  {
    var r := Authorized(s, AliasEndpoint, AliasOptions(alias, domain, target));
    assert r.headers == map["X-API-Key" := ToText(s.apiKey), "Content-Type" := "application/json"];
    assert ToText(s.mailcowUrl) + ApiPath + AliasEndpoint == ToText(s.mailcowUrl) + "/api/v1/add/alias";
  }

  /** With credentials, a loader GETs `<url>/api/v1/<endpoint>` with exactly the two default headers and no body. */
  lemma ListRequest(s: Record, endpoint: string, reply: Reply)
    requires IsConfigured(s)
    ensures FetchWithAuth(s, endpoint, NoOptions, reply).sent
         == Some(Request(ToText(s.mailcowUrl) + ApiPath + endpoint, "GET", map["X-API-Key" := ToText(s.apiKey), "Content-Type" := "application/json"], None))
  {
    var r := Authorized(s, endpoint, NoOptions);
    assert r.headers == map["X-API-Key" := ToText(s.apiKey), "Content-Type" := "application/json"];
  }

  /** The full URLs of the three endpoints under the base URL `u`. */
  lemma EndpointUrls(u: string)
    ensures u + ApiPath + DomainsEndpoint == u + "/api/v1/get/domain/all"
    ensures u + ApiPath + MailboxesEndpoint == u + "/api/v1/get/mailbox/all"
    ensures u + ApiPath + AliasEndpoint == u + "/api/v1/add/alias"
  {
  }

  /** The notification a loader adds when it fails: one 'error' entry, or none. */
  function FailureNotes(failed: bool, message: string, now: int): (notes: seq<N.Notification>)
    ensures |notes| == if failed then 1 else 0
    ensures failed ==> notes[0].kind == N.Error && notes[0].message == message && notes[0].id == now
  {
    if failed then [N.Notification(now, message, N.Error)] else []
  }

  /** The expiry a loader schedules with that notification (the default timeout), or none. */
  function FailureTimers(failed: bool, now: int): (timers: seq<N.Timer>)
    ensures |timers| == if failed then 1 else 0
    ensures failed ==> timers[0].id == now && timers[0].due == now + N.DefaultTimeout
  {
    if failed then [N.Timer(now, now + N.DefaultTimeout)] else []
  }

  /**
   * The API client. `domains` and `mailboxes` are the two list stores;
   * it reads the current settings and adds to the notification store.
   * Its invariant is what its subscription to the settings maintains:
   * while the settings are not configured, both lists are empty.
   */
  class MailcowService {
    var domains: seq<Option<Json>>
    var mailboxes: seq<Option<Json>>
    const settings: SettingsStore
    const notifications: N.NotificationStore

    ghost predicate Valid()
      reads this, settings
    {
      !IsConfigured(settings.value) ==> domains == [] && mailboxes == []
    }

    /** Both lists start empty; subscribing runs the reaction once on the current settings. */
    constructor (settings: SettingsStore, notifications: N.NotificationStore)
      ensures this.settings == settings && this.notifications == notifications
      ensures domains == [] && mailboxes == [] && Valid()
    {
      this.settings := settings;
      this.notifications := notifications;
      domains := [];
      mailboxes := [];
      // `subscribe` calls the reaction at once with the current settings.
      if !IsConfigured(settings.value) {
        domains := [];
        mailboxes := [];
      }
    }

    /** The subscription's reaction to a new settings value. */
    method SettingsChanged()
      modifies this
      ensures Valid()
      ensures !IsConfigured(settings.value) ==> domains == [] && mailboxes == []
      ensures IsConfigured(settings.value) ==> domains == old(domains) && mailboxes == old(mailboxes)
    {
      if !IsConfigured(settings.value) {
        domains := [];
        mailboxes := [];
      }
    }

    /** The body both loaders share: fetch, map the array, notify on a thrown error. */
    method FetchList(endpoint: string, name: string, failure: string, reply: Reply, now: int)
      returns (list: seq<Option<Json>>, ghost sent: Option<Request>)
      modifies notifications
      ensures sent == FetchWithAuth(settings.value, endpoint, NoOptions, reply).sent
      ensures !IsConfigured(settings.value) ==> sent == None
      ensures IsConfigured(settings.value) ==>
                sent == Some(Request(ToText(settings.value.mailcowUrl) + ApiPath + endpoint, "GET", map["X-API-Key" := ToText(settings.value.apiKey), "Content-Type" := "application/json"], None))
      ensures list == Loaded(settings.value, endpoint, name, reply).list
      ensures var failed := Loaded(settings.value, endpoint, name, reply).failed;
              && notifications.items == old(notifications.items) + FailureNotes(failed, failure, now)
              && notifications.timers == old(notifications.timers) + FailureTimers(failed, now)
    {
      var fetched := FetchWithAuth(settings.value, endpoint, NoOptions, reply);
      sent := fetched.sent;
      if IsConfigured(settings.value) {
        ListRequest(settings.value, endpoint, reply);
      }
      match fetched.result {
        case Err(_) =>
          notifications.Add(failure, Some(N.Error), None, now);
          list := [];
        case Ok(data) =>
          if data.JArr? {
            var mapped := PropertyOfEach(data.items, name);
            match mapped {
              case Ok(names) =>
                list := names;
              case Err(_) =>
                notifications.Add(failure, Some(N.Error), None, now);
                list := [];
            }
          } else {
            list := [];
          }
      }
    }

    /** `loadDomains()` when the server answers `reply` at clock reading `now`. */
    method LoadDomains(reply: Reply, now: int) returns (ghost sent: Option<Request>)
      requires Valid()
      modifies this, notifications
      ensures Valid()
      ensures !IsConfigured(settings.value) ==> sent == None
      ensures IsConfigured(settings.value) ==>
                sent == Some(Request(ToText(settings.value.mailcowUrl) + "/api/v1/get/domain/all", "GET", map["X-API-Key" := ToText(settings.value.apiKey), "Content-Type" := "application/json"], None))
      ensures domains == Loaded(settings.value, DomainsEndpoint, "domain_name", reply).list
      ensures mailboxes == old(mailboxes)
      ensures var failed := Loaded(settings.value, DomainsEndpoint, "domain_name", reply).failed;
              && notifications.items == old(notifications.items) + FailureNotes(failed, DomainsFailed, now)
              && notifications.timers == old(notifications.timers) + FailureTimers(failed, now)
    {
      domains, sent := FetchList(DomainsEndpoint, "domain_name", DomainsFailed, reply, now);
      EndpointUrls(ToText(settings.value.mailcowUrl));
    }

    /** `loadMailboxes()` when the server answers `reply` at clock reading `now`. */
    method LoadMailboxes(reply: Reply, now: int) returns (ghost sent: Option<Request>)
      requires Valid()
      modifies this, notifications
      ensures Valid()
      ensures !IsConfigured(settings.value) ==> sent == None
      ensures IsConfigured(settings.value) ==>
                sent == Some(Request(ToText(settings.value.mailcowUrl) + "/api/v1/get/mailbox/all", "GET", map["X-API-Key" := ToText(settings.value.apiKey), "Content-Type" := "application/json"], None))
      ensures mailboxes == Loaded(settings.value, MailboxesEndpoint, "username", reply).list
      ensures domains == old(domains)
      ensures var failed := Loaded(settings.value, MailboxesEndpoint, "username", reply).failed;
              && notifications.items == old(notifications.items) + FailureNotes(failed, MailboxesFailed, now)
              && notifications.timers == old(notifications.timers) + FailureTimers(failed, now)
    {
      mailboxes, sent := FetchList(MailboxesEndpoint, "username", MailboxesFailed, reply, now);
      EndpointUrls(ToText(settings.value.mailcowUrl));
    }

    /** `createAlias(alias, domain, target)`: returns the response or rethrows, with one notification either way. */
    method CreateAlias(alias: string, domain: string, target: string, reply: Reply, now: int)
      returns (r: Result<Json, Exception>, ghost sent: Option<Request>)
      modifies notifications
      ensures Exchange(sent, r) == FetchWithAuth(settings.value, AliasEndpoint, AliasOptions(alias, domain, target), reply)
      ensures !IsConfigured(settings.value) ==> sent == None
      ensures IsConfigured(settings.value) ==>
                sent == Some(Request(ToText(settings.value.mailcowUrl) + "/api/v1/add/alias", "POST", map["X-API-Key" := ToText(settings.value.apiKey), "Content-Type" := "application/json"],
                                     Some(AliasBody(alias, domain, target))))
      ensures r.Ok? <==> IsConfigured(settings.value) && reply.Delivered?
      ensures r.Ok? ==> r.value == reply.body
      ensures !IsConfigured(settings.value) ==> r == Err(MissingConfiguration)
      ensures notifications.items == old(notifications.items) +
                if r.Ok? then [N.Notification(now, AliasCreated, N.Success)] else [N.Notification(now, AliasFailed, N.Error)]
      ensures notifications.timers == old(notifications.timers) + [N.Timer(now, now + N.DefaultTimeout)]
    {
      var fetched := FetchWithAuth(settings.value, AliasEndpoint, AliasOptions(alias, domain, target), reply);
      r, sent := fetched.result, fetched.sent;
      if IsConfigured(settings.value) {
        AliasRequest(settings.value, alias, domain, target, reply);
      }
      if r.Ok? {
        notifications.Add(AliasCreated, Some(N.Success), None, now);
      } else {
        notifications.Add(AliasFailed, Some(N.Error), None, now);
      }
    }
  }
}
