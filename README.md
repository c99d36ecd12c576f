# Facebook bundle core, modelled in Dafny

A model of the decision and bookkeeping logic of a framework bundle that wraps
the Facebook PHP SDK:

- **Profiling client** (`profiling_client.dfy`, module `ProfilingClient`). Every
  outbound graph request goes through `SendRequest`. When a stopwatch is
  configured, the client keeps a profile table keyed 1..n by a counter that
  grows by one per call. `StartProfile` stores a placeholder entry (request,
  null duration) and `StopProfile` merges duration, code and response into the
  current entry. `SendRequest` sorts what the transport did into a response, a
  response-bearing exception, an SDK exception, any other exception or a PHP
  `\Error`. It completes the entry on every outcome and hands the outcome back
  unchanged: a response is returned, a failure re-thrown. The class methods
  are proved against the pure steps `StartStep`, `StopStep` and `SendStep`.
  `Run` is the composition of `SendStep` over a sequence of calls, and the
  lemmas about `Run` carry the table invariants across many calls.
- **Service facade** (`facebook_service.dfy`, module `FacebookService`). It
  covers:
  - the configuration handed to the client, which drops the webhook verify token;
  - the verify-token getter;
  - the webhook handler: the GET subscription handshake, the POST signature
    check and event dispatch, and "not found" for every other method;
  - the page access token search at the end of the long-lived token lookup.

  The handler is a function of the configuration, an HMAC function and an
  abstract request (method, query, headers, body). It returns the reply or the
  failure, the error log lines, and the events dispatched.
- **Update event** (`update_event.dfy`, module `UpdateEvent`): the event name and
  the holder of the raw body.
- **Data collector** (`client_collector.dfy`, module `ClientCollector`). `Collect`
  copies the service's profile table and sums its durations in a loop
  (`SumCallDurations`), with a missing duration counting as 0. The loop is
  proved against `TotalTime`, a sum over the table. Lemmas show that this sum
  does not depend on visiting order, is 0 for an empty table, and is additive.
- **Session store** (`session_handler.dfy`, module `SessionStorage`): the
  SDK's persistent-data handler over the host session, with every key stored
  under `"FBRLH_" + key`.

`values.dfy` (module `Values`) holds `Option`, `Result` and `Value`, the PHP
scalar type. PHP's strict comparison `===` is Dafny's `==` on `Value`. This
keeps two quirks of the source visible:
- an unset verify token (null) equals an omitted `hub_verify_token` (null);
- an integer page id never equals a string page id.

An SDK or other exception records `$e->getCode()`
(Client/ProfilingFacebookClient.php:63-69), which is an integer. Only a PHP
`\Error`, which no catch arm takes, leaves the code null, and the `finally`
block still completes the entry.

## Model

| member | source | states |
|---|---|---|
| `ProfilingClient.StartStepAppendsPlaceholder` | Client/ProfilingFacebookClient.php:89-102 | With a stopwatch, startProfile raises the counter by one and adds the placeholder (request, null duration) under the new counter. Earlier entries are unchanged and keys stay 1..counter. |
| `ProfilingClient.StopStepCompletesCurrent` | Client/ProfilingFacebookClient.php:104-119 | stopProfile writes duration, code and response only into the current entry and keeps its request. The counter, the key set and all other entries are unchanged; the entry is complete afterwards. |
| `ProfilingClient.RecordByOutcome` | Client/ProfilingFacebookClient.php:56-72 | A normal response or a FacebookResponseException records the response and its HTTP status. An SDK or other exception records its code and a null response. An `\Error` records neither. Every outcome gets a duration. |
| `ProfilingClient.SendStepAppendsRecord` | Client/ProfilingFacebookClient.php:50-79 | Without a stopwatch a call changes nothing. With one, the counter rises by exactly 1 and the call's completed record is stored under a key that was not there before. |
| `ProfilingClient.RunWithoutStopwatch` | Client/ProfilingFacebookClient.php:89-108 | Without a stopwatch, no sequence of calls changes the counter or the table. |
| `ProfilingClient.RunAppends` | Client/ProfilingFacebookClient.php:95-99 | With a stopwatch, n calls raise the counter by n and keep every earlier entry. The i-th call's completed record lands under old counter + i + 1. |
| `ProfilingClient.RunFromInitial` | Client/ProfilingFacebookClient.php:42-44 | From a fresh client with a stopwatch, after n calls the keys are exactly 1..n, every entry is complete, and entry k is call k's record. |
| `ProfilingClient.ProfilingFacebookClient.constructor` | Client/ProfilingFacebookClient.php:38-45 | The counter starts at 0 and the table starts empty. |
| `ProfilingClient.ProfilingFacebookClient.GetProfiles` | Client/ProfilingFacebookClient.php:84-87 | Returns the table itself, whose keys are exactly 1..counter. |
| `ProfilingClient.ProfilingFacebookClient.StartProfile` | Client/ProfilingFacebookClient.php:89-102 | Performs StartStep on the fields. Returns the "facebook"/"facebook" span with a stopwatch, null without. |
| `ProfilingClient.ProfilingFacebookClient.StopProfile` | Client/ProfilingFacebookClient.php:104-119 | Performs StopStep on the fields; without a stopwatch it does nothing. |
| `ProfilingClient.ProfilingFacebookClient.SendRequest` | Client/ProfilingFacebookClient.php:50-79 | The result is the transport's outcome unchanged: the response is returned, the failure re-thrown. The fields become SendStep of the old fields. Without a stopwatch they stay 0 and empty. With one, exactly the new key is added, holding the call's record. |
| `FacebookService.ClientConfig` | Service/Facebook.php:65-67 | The client's config has no `webhook_verify_token`. Every other key is present with its value, and no key is added. |
| `FacebookService.WebhookVerifyToken` | Service/Facebook.php:91-98 | The configured token, or null when it is unset or null. |
| `FacebookService.FailedChecks` | Service/Facebook.php:186-196 | A failed handshake logs one error per failing check: the mode, the verify token, the challenge. There is no line for a check that passed and no other kind of line, and the lines come in check order. |
| `FacebookService.HandleSubscription` | Service/Facebook.php:179-198 | The GET reply is 200 with the `hub_challenge` value iff three checks hold: the mode is `subscribe`, the token strictly equals the configured one, and a challenge is present. Otherwise it fails with a message-less not-found. Each failing check is logged exactly once, in check order. It never dispatches. |
| `FacebookService.IsValidWebhookRequest` | Service/Facebook.php:228-233 | Holds iff the `X-Hub-Signature` header is present and equals `"sha1=" + hmac(body, app_secret)`. |
| `FacebookService.HandleUpdate` | Service/Facebook.php:200-215 | A POST is accepted iff its signature is valid. Accepted: empty 200 reply and exactly one `smatyas_facebook.update.received` event carrying the body unchanged. Refused: not-found with the mismatch message, one error log, no dispatch. |
| `FacebookService.HandleWebhook` | Service/Facebook.php:176-220 | A GET is the subscription handshake and a POST the update check. A failure never dispatches. At most one event is dispatched, only for a signature-valid POST, carrying the body. Methods other than GET and POST fail with not-found and nothing else. |
| `FacebookService.UnsetTokenAcceptsOmittedToken` | Service/Facebook.php:181-185 | With no verify token configured (absent or null), a subscribe handshake that omits `hub_verify_token` and has a challenge is accepted. |
| `FacebookService.ConfiguredTokenMustBeSent` | Service/Facebook.php:181-185 | With a token configured, an accepted handshake carried a `hub_verify_token` equal to it. |
| `FacebookService.ForgedUpdateRefused` | Service/Facebook.php:204-207 | A POST with any other signature header is refused with not-found, logs one mismatch and dispatches nothing. |
| `FacebookService.GetLongLivedPageAccessToken` | Service/Facebook.php:108-129 | A failure of the calls before the loop passes through unchanged. Otherwise the result is Ok iff some page id strictly equals `pageId`, and then it is the first such page's token. With no match the service throws "The user does not have access to this page.". |
| `FacebookService.Facebook.constructor` | Service/Facebook.php:55-68 | Keeps the config, builds the client from the config without the verify token, and creates a fresh client with an empty table. |
| `FacebookService.Facebook.GetProfiles` | Service/Facebook.php:81-84 | Returns the client's profile table. |
| `ClientCollector.TotalTimeRemove` | DataCollector/FacebookClientCollector.php:50-53 | The total is any entry's contribution plus the total of the rest, so it does not depend on iteration order. |
| `ClientCollector.TotalTimeEmpty` | DataCollector/FacebookClientCollector.php:49-53 | An empty table totals 0. |
| `ClientCollector.TotalTimeUnion` | DataCollector/FacebookClientCollector.php:50-53 | The total of two tables with disjoint keys is the sum of their totals. |
| `ClientCollector.RunTotalTime` | DataCollector/FacebookClientCollector.php:48-53 | After a stopwatch client makes a sequence of calls, the collected total is exactly the sum of those calls' durations. |
| `ClientCollector.SumCallDurations` | DataCollector/FacebookClientCollector.php:49-53 | The loop over the table returns exactly TotalTime of the table: each entry's duration counted once, with 0 for a missing or null duration. |
| `ClientCollector.FacebookClientCollector.constructor` | DataCollector/FacebookClientCollector.php:30-33 | Keeps the service; nothing is collected yet. |
| `ClientCollector.FacebookClientCollector.GetName` | DataCollector/FacebookClientCollector.php:38-41 | Always `facebook.facebook_client_collector`. |
| `ClientCollector.FacebookClientCollector.Collect` | DataCollector/FacebookClientCollector.php:46-58 | Stores the service's table unchanged, together with the sum of its durations, where a missing duration counts 0. |
| `ClientCollector.FacebookClientCollector.GetCalls` | DataCollector/FacebookClientCollector.php:63-66 | The table stored by the last collect, or null before any. |
| `ClientCollector.FacebookClientCollector.GetCallsTotalTime` | DataCollector/FacebookClientCollector.php:68-71 | The total stored by the last collect, or null before any. |
| `SessionStorage.PrefixedKeyStrips` | Service/SymfonySessionPersistentDataHandler.php:63-66 | The session name is `FBRLH_` followed by the key itself. |
| `SessionStorage.PrefixedKeyInjective` | Service/SymfonySessionPersistentDataHandler.php:29 | Distinct keys get distinct session names. |
| `SessionStorage.ReadAfterWrite` | Service/SymfonySessionPersistentDataHandler.php:44-55 | After set(k, v), get(k) returns v. |
| `SessionStorage.WriteKeepsOtherKeys` | Service/SymfonySessionPersistentDataHandler.php:52-55 | set(k, v) leaves get(k') unchanged for every other key k'. |
| `SessionStorage.WriteKeepsOtherSessionNames` | Service/SymfonySessionPersistentDataHandler.php:52-55 | set(k, v) changes no session name other than `FBRLH_` + k and adds at most that one. |
| `SessionStorage.LastWriteWins` | Service/SymfonySessionPersistentDataHandler.php:44-55 | set(k, v1) followed by set(k, v2) is set(k, v2), so get(k) returns v2. |
| `SessionStorage.SymfonySessionPersistentDataHandler.constructor` | Service/SymfonySessionPersistentDataHandler.php:36-39 | Keeps a reference to the shared session. |
| `SessionStorage.SymfonySessionPersistentDataHandler.Get` | Service/SymfonySessionPersistentDataHandler.php:44-47 | Reads the session name `FBRLH_` + key, with null for absent. |
| `SessionStorage.SymfonySessionPersistentDataHandler.Set` | Service/SymfonySessionPersistentDataHandler.php:52-55 | Writes the value under `FBRLH_` + key in the shared session and changes nothing else. |

## Left out

- HMAC-SHA1 (`hash_hmac`) is a parameter `hmac` of the webhook functions. The
  properties hold for every such function; the digest itself is not computed.
- The HTTP transport behind the client is an input `outcome` of `SendRequest`.
  The stopwatch's measured duration is an input `duration`, a natural number.
  The duration is a float in the source, and the collector's `(int)` cast is
  the identity on it here.
- `FacebookService.GetLongLivedPageAccessToken` does not model the steps before
  the loop. Validating the user token (`validateAccessToken`), the OAuth2
  exchange and the `/me/accounts` fetch are SDK calls. Their combined result is
  the input `accounts`, so the user token parameter does not appear.
- `getUserData`, `getPageData`, `hideComment`, `showComment`, `updateComment`,
  `deleteComment`, `hidePost`, `showPost`, `updatePost`, `deletePost` and
  `validateAccessToken` are left out. Each only formats a path or parameters
  for an SDK call and logs around it, and the SDK is not part of this model.
  `getClient` is the `client` field.
- Info and debug log lines and the text of every log message are left out.
  Only the error-level lines of the webhook handler appear, as `ErrorLog`
  values in the order written.
- `UpdateReceivedEvent::getContentAsArray` (JSON decoding) is left out; the
  event is its `content`.
- Framework wiring is left out: `Client/ProfilingFacebook.php` (which swaps in
  the profiling client, modelled as `Facebook.constructor` creating it
  directly), the container extension and the webhook controller route.
- Header names are case-insensitive in the framework. The model keys headers
  by their lower-case name, looks up `x-hub-signature`, and keeps one value
  per name. Query parameters are strings; array-valued parameters are not
  modelled.
- The placeholder entry lacks the `code` and `response` keys, while a completed
  entry may hold them as null. Both read as `None`, so the model does not
  distinguish an absent key from a null one.
- `collect` iterates the table in PHP insertion order. The model visits keys
  in any order, which gives the same total (`TotalTimeRemove`), so the order
  itself is not captured.
- `collect`'s request, response and exception parameters are unused by the
  source and are left out.
- Concurrent use of one client's counter from several requests is not
  modelled; every call is sequential.
