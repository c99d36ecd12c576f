/**
 * The bundle's service facade (Service/Facebook.php): the configuration it
 * hands to the client, the webhook endpoint (subscription handshake on GET,
 * signed update notifications on POST), and the page access token lookup.
 *
 * The webhook handler is a function of the service configuration and an
 * abstract request. What it logs at error level and what it dispatches are
 * part of its result, as sequences in the order they happen. HMAC-SHA1 is
 * a function-typed parameter, so every property here holds whatever keyed
 * hash the platform uses.
 */
module FacebookService {
  import opened Values
  import ProfilingClient
  import UpdateEvent

  /** The service configuration: option name to value. */
  type Config = map<string, Value>

  const WEBHOOK_VERIFY_TOKEN := "webhook_verify_token"
  const APP_SECRET := "app_secret"

  /**
   * The configuration passed on to the SDK client: the input configuration
   * with the webhook verify token removed and every other option kept.
   */
  function ClientConfig(config: Config): (clientConfig: Config)
    ensures WEBHOOK_VERIFY_TOKEN !in clientConfig
    ensures forall k :: k in clientConfig ==> k in config && clientConfig[k] == config[k]
    ensures forall k :: k in config && k != WEBHOOK_VERIFY_TOKEN ==> k in clientConfig
  {
    config - {WEBHOOK_VERIFY_TOKEN}
  }

  /**
   * getWebhookVerifyToken: the configured token when it is set (`isset`:
   * present and not null), null otherwise. Both cases together amount to
   * reading the option with a null default.
   */
  function WebhookVerifyToken(config: Config): (token: Value)
    ensures token == Lookup(config, WEBHOOK_VERIFY_TOKEN)
    ensures token != Null <==> WEBHOOK_VERIFY_TOKEN in config && config[WEBHOOK_VERIFY_TOKEN] != Null
  {
    if WEBHOOK_VERIFY_TOKEN in config && config[WEBHOOK_VERIFY_TOKEN] != Null
    then config[WEBHOOK_VERIFY_TOKEN]
    else Null
  }

  /**
   * An inbound HTTP request: its method, its query parameters (after PHP
   * has turned `hub.mode` into `hub_mode`), its headers keyed by lower-case
   * name as the framework's header bag stores them, and its raw body.
   */
  datatype Request = Request(
    httpMethod: string,
    query: map<string, string>,
    headers: map<string, string>,
    content: string)

  /** `$bag->get(name)`: the parameter as a string, or null when absent. */
  function BagGet(bag: map<string, string>, name: string): Value {
    if name in bag then Str(bag[name]) else Null
  }

  const SIGNATURE_HEADER := "x-hub-signature"
  const SIGNATURE_MISMATCH := "Message signature mismatch."

  datatype HttpResponse = HttpResponse(statusCode: int, content: string)

  /** The "not found" failure, with its optional message. */
  datatype NotFoundHttpException = NotFoundHttpException(message: Option<string>)

  /** The error-level log lines of the webhook handler, by the check that failed. */
  datatype ErrorLog = HubModeMismatch | HubVerifyTokenMismatch | HubChallengeMissing | SignatureMismatch

  /** The order in which the handler checks, and so logs, the failures. */
  function Rank(e: ErrorLog): nat {
    match e
    case HubModeMismatch => 0
    case HubVerifyTokenMismatch => 1
    case HubChallengeMissing => 2
    case SignatureMismatch => 3
  }

  /** One call of the event dispatcher: the event name and the event. */
  datatype Dispatch = Dispatch(eventName: string, event: UpdateEvent.UpdateReceivedEvent)

  /** What handling one webhook request does: the reply or the failure, the error logs, the dispatches. */
  datatype Handled = Handled(
    reply: Result<HttpResponse, NotFoundHttpException>,
    errors: seq<ErrorLog>,
    dispatched: seq<Dispatch>)

  /** The hex digest of HMAC-SHA1 over a body, keyed by the configured app secret. */
  type Hmac = (string, Value) -> string

  predicate HubModeMatches(query: map<string, string>) {
    BagGet(query, "hub_mode") == Str("subscribe")
  }

  /** Strict comparison: an omitted parameter (null) matches an unset token (null). */
  predicate HubVerifyTokenMatches(config: Config, query: map<string, string>) {
    BagGet(query, "hub_verify_token") == WebhookVerifyToken(config)
  }

  predicate HubChallengePresent(query: map<string, string>) {
    "hub_challenge" in query
  }

  /**
   * The error lines of a failed handshake: one per failing check, in the
   * order the checks are written.
   */
  function FailedChecks(modeOk: bool, tokenOk: bool, challengeOk: bool): (errors: seq<ErrorLog>)
    ensures HubModeMismatch in errors <==> !modeOk
    ensures HubVerifyTokenMismatch in errors <==> !tokenOk
    ensures HubChallengeMissing in errors <==> !challengeOk
    ensures SignatureMismatch !in errors
    ensures errors == [] <==> modeOk && tokenOk && challengeOk
    ensures forall i, j :: 0 <= i < j < |errors| ==> Rank(errors[i]) < Rank(errors[j])
  {
    (if !modeOk then [HubModeMismatch] else []) +
    (if !tokenOk then [HubVerifyTokenMismatch] else []) +
    (if !challengeOk then [HubChallengeMissing] else [])
  }

  /**
   * The GET branch of handleWebhook, the subscription handshake. It answers
   * with the challenge exactly when all three checks pass. Otherwise it
   * logs one error per failing check, in check order, and fails with a
   * message-less "not found". It never dispatches.
   */
  function HandleSubscription(config: Config, query: map<string, string>): (h: Handled)
    ensures h.dispatched == []
    ensures h.reply.Ok? <==>
      HubModeMatches(query) && HubVerifyTokenMatches(config, query) && HubChallengePresent(query)
    ensures h.reply.Ok? ==> h.reply.value == HttpResponse(200, query["hub_challenge"]) && h.errors == []
    ensures h.reply.Err? ==> h.reply.error == NotFoundHttpException(None) && h.errors != []
    ensures HubModeMismatch in h.errors <==> !HubModeMatches(query)
    ensures HubVerifyTokenMismatch in h.errors <==> !HubVerifyTokenMatches(config, query)
    ensures HubChallengeMissing in h.errors <==> !HubChallengePresent(query)
    ensures SignatureMismatch !in h.errors
    ensures forall i, j :: 0 <= i < j < |h.errors| ==> Rank(h.errors[i]) < Rank(h.errors[j])
  {
    if HubModeMatches(query) && HubVerifyTokenMatches(config, query) && HubChallengePresent(query) then
      Handled(Ok(HttpResponse(200, query["hub_challenge"])), [], [])
    else
      var errors := FailedChecks(
        HubModeMatches(query), HubVerifyTokenMatches(config, query), HubChallengePresent(query));
      Handled(Err(NotFoundHttpException(None)), errors, [])
  }

  /**
   * isValidWebhookRequest: the signature header is present and equals
   * "sha1=" followed by the HMAC of the raw body under the app secret
   * (a missing app secret reads as null).
   */
  function IsValidWebhookRequest(config: Config, hmac: Hmac, request: Request): (valid: bool)
    ensures valid <==>
      SIGNATURE_HEADER in request.headers &&
      request.headers[SIGNATURE_HEADER] == "sha1=" + hmac(request.content, Lookup(config, APP_SECRET))
  {
    Str("sha1=" + hmac(request.content, Lookup(config, APP_SECRET))) == BagGet(request.headers, SIGNATURE_HEADER)
  }

  /**
   * The POST branch of handleWebhook. A request with a valid signature
   * dispatches exactly one update event carrying the raw body and gets an
   * empty reply; any other fails with "not found", logs the mismatch once
   * and dispatches nothing.
   */
  function HandleUpdate(config: Config, hmac: Hmac, request: Request): (h: Handled)
    ensures h.reply.Ok? <==> IsValidWebhookRequest(config, hmac, request)
    ensures h.reply.Ok? ==>
      && h.reply.value == HttpResponse(200, "")
      && h.errors == []
      && h.dispatched == [Dispatch(UpdateEvent.NAME, UpdateEvent.UpdateReceivedEvent(request.content))]
    ensures h.reply.Err? ==>
      && h.reply.error == NotFoundHttpException(Some(SIGNATURE_MISMATCH))
      && h.errors == [SignatureMismatch]
      && h.dispatched == []
  {
    if !IsValidWebhookRequest(config, hmac, request) then
      Handled(Err(NotFoundHttpException(Some(SIGNATURE_MISMATCH))), [SignatureMismatch], [])
    else
      var event := UpdateEvent.UpdateReceivedEvent(request.content);
      Handled(Ok(HttpResponse(200, "")), [], [Dispatch(UpdateEvent.NAME, event)])
  }

  /**
   * handleWebhook. A failure never dispatches; at most one event is
   * dispatched, and only for a POST whose signature verifies, carrying the
   * body unchanged; a method other than GET or POST fails with "not found"
   * and does nothing else.
   */
  function HandleWebhook(config: Config, hmac: Hmac, request: Request): (h: Handled)
    ensures request.httpMethod == "GET" ==> h == HandleSubscription(config, request.query)
    ensures request.httpMethod == "POST" ==> h == HandleUpdate(config, hmac, request)
    ensures h.reply.Err? ==> h.dispatched == []
    ensures |h.dispatched| <= 1
    ensures h.dispatched != [] ==>
      && request.httpMethod == "POST"
      && IsValidWebhookRequest(config, hmac, request)
      && h.dispatched[0].eventName == UpdateEvent.NAME
      && h.dispatched[0].event.content == request.content
    ensures h.reply.Ok? ==> h.reply.value.statusCode == 200
    ensures request.httpMethod != "GET" && request.httpMethod != "POST" ==>
      h == Handled(Err(NotFoundHttpException(None)), [], [])
  {
    if request.httpMethod == "GET" then HandleSubscription(config, request.query)
    else if request.httpMethod == "POST" then HandleUpdate(config, hmac, request)
    else Handled(Err(NotFoundHttpException(None)), [], [])
  }

  /**
   * With no verify token configured (absent or null), a handshake that omits
   * `hub_verify_token` passes the token check: null is strictly equal to null.
   */
  lemma UnsetTokenAcceptsOmittedToken(config: Config, hmac: Hmac, request: Request)
    requires request.httpMethod == "GET"
    requires WebhookVerifyToken(config) == Null
    requires "hub_verify_token" !in request.query
    requires BagGet(request.query, "hub_mode") == Str("subscribe")
    requires "hub_challenge" in request.query
    ensures HandleWebhook(config, hmac, request).reply == Ok(HttpResponse(200, request.query["hub_challenge"]))
  {
  }

  /**
   * With a verify token configured, an accepted handshake sent a
   * `hub_verify_token` whose string equals the configured value.
   */
  lemma ConfiguredTokenMustBeSent(config: Config, hmac: Hmac, request: Request)
    requires request.httpMethod == "GET"
    requires WEBHOOK_VERIFY_TOKEN in config && config[WEBHOOK_VERIFY_TOKEN] != Null
    requires HandleWebhook(config, hmac, request).reply.Ok?
    ensures "hub_verify_token" in request.query
    ensures config[WEBHOOK_VERIFY_TOKEN] == Str(request.query["hub_verify_token"])
  {
  }

  /**
   * A POST whose signature header differs from "sha1=" + HMAC(body, secret)
   * is refused with "not found" and dispatches nothing.
   */
  lemma ForgedUpdateRefused(config: Config, hmac: Hmac, request: Request)
    requires request.httpMethod == "POST"
    requires BagGet(request.headers, SIGNATURE_HEADER) != Str("sha1=" + hmac(request.content, Lookup(config, APP_SECRET)))
    ensures HandleWebhook(config, hmac, request) ==
      Handled(Err(NotFoundHttpException(Some(SIGNATURE_MISMATCH))), [SignatureMismatch], [])
  {
  }

  /** A page of the user's accounts edge: its id and its access token. */
  datatype GraphPage = GraphPage(id: Value, accessToken: Value)

  /** What the service itself throws, or an SDK failure it lets through. */
  datatype ServiceError =
    | FacebookServiceException(message: string)
    | SdkFailure(failure: ProfilingClient.Failure)

  const NO_PAGE_ACCESS := "The user does not have access to this page."

  /**
   * getLongLivedPageAccessToken. `accounts` is what the calls before the
   * loop produce: validating the user token, exchanging it for a long-lived
   * one and fetching `/me/accounts` either yield the user's pages or throw,
   * and a throw passes through unchanged. Otherwise the result is the token
   * of the first page whose id is strictly equal to `pageId`, and with no
   * such page the service throws its own "no access" exception.
   */
  method GetLongLivedPageAccessToken(pageId: Value, accounts: Result<seq<GraphPage>, ServiceError>)
    returns (r: Result<Value, ServiceError>)
    ensures accounts.Err? ==> r == Err(accounts.error)
    ensures accounts.Ok? ==>
      (r.Ok? <==> exists i :: 0 <= i < |accounts.value| && accounts.value[i].id == pageId)
    ensures accounts.Ok? && r.Ok? ==>
      exists i :: 0 <= i < |accounts.value| && accounts.value[i].id == pageId &&
        r.value == accounts.value[i].accessToken &&
        forall j :: 0 <= j < i ==> accounts.value[j].id != pageId
    ensures accounts.Ok? && r.Err? ==> r.error == FacebookServiceException(NO_PAGE_ACCESS)
  {
    if accounts.Err? {
      return Err(accounts.error);
    }
    var pages := accounts.value;
    var i := 0;
    while i < |pages|
      invariant 0 <= i <= |pages|
      invariant forall j :: 0 <= j < i ==> pages[j].id != pageId
    {
      if pageId == pages[i].id {
        return Ok(pages[i].accessToken);
      }
      i := i + 1;
    }
    r := Err(FacebookServiceException(NO_PAGE_ACCESS));
  }

  /**
   * The service object: the configuration it was built with, the
   * configuration it passed on, and the profiling client it created.
   */
  class Facebook {
    const config: Config
    const clientConfig: Config
    const client: ProfilingClient.ProfilingFacebookClient

    /** `stopwatch` says whether a Stopwatch service was injected. */
    constructor (config: Config, stopwatch: bool)
      ensures this.config == config
      ensures clientConfig == ClientConfig(config)
      ensures fresh(client) && client.stopwatch == stopwatch
      ensures client.Valid() && client.State() == ProfilingClient.Initial
    {
      this.config := config;
      clientConfig := ClientConfig(config);
      client := new ProfilingClient.ProfilingFacebookClient(stopwatch);
    }

    /** getProfiles: the client's profile table. */
    method GetProfiles() returns (table: map<nat, ProfilingClient.Profile>)
      requires client.Valid()
      ensures table == client.profiles
    {
      table := client.GetProfiles();
    }
  }
}
