/**
 * The profiling wrapper around the graph API client
 * (Client/ProfilingFacebookClient.php).
 *
 * Every outbound request is sent through `SendRequest`. When a stopwatch
 * was supplied at construction, the client numbers the request with a
 * counter that grows by one per call, stores a placeholder profile entry
 * under that number before the transport runs, and completes the entry
 * with the duration, the status code and the response once the transport
 * has answered or thrown. Whatever the transport throws is thrown again,
 * unchanged, after the entry is completed.
 *
 * The transport itself and the stopwatch clock are not modelled: what the
 * transport does for a request is a parameter of type `Outcome`, and the
 * duration of the stopwatch's last period is a parameter of type `nat`.
 */
module ProfilingClient {
  import opened Values

  /** The outbound graph request; the profiler only stores it. */
  datatype FacebookRequest = FacebookRequest(descriptor: string)

  /** A response of the platform, as far as the profiler looks into it. */
  datatype FacebookResponse = FacebookResponse(httpStatusCode: int, body: string)

  /**
   * What the transport can throw, one variant per arm of the source's
   * try statement.
   */
  datatype Failure =
      /** A FacebookResponseException: carries the platform's response. */
    | ResponseException(response: FacebookResponse)
      /** Any other FacebookSDKException, with its exception code. */
    | SdkException(code: int)
      /** Any other \Exception, with its exception code. */
    | OtherException(code: int)
      /**
       * A PHP \Error. It is not an \Exception, so no catch arm takes it:
       * the `finally` block still completes the entry (with a null code)
       * and the error leaves the method on its own.
       */
    | EngineError

  /** What the transport does with one request: return a response or throw. */
  type Outcome = Result<FacebookResponse, Failure>

  /**
   * One entry of the profile table. The placeholder stored at the start of
   * a call has only the request and a null duration; the missing `code`
   * and `response` keys of the PHP array read as null, as `None` here.
   */
  datatype Profile = Profile(
    request: FacebookRequest,
    duration: Option<nat>,
    code: Option<int>,
    response: Option<FacebookResponse>)

  /** The stopwatch event started for a call (name and category). */
  datatype Span = Span(name: string, category: string)

  const PROFILE_SPAN := Span("facebook", "facebook")

  function Placeholder(request: FacebookRequest): Profile {
    Profile(request, None, None, None)
  }

  /** An entry is complete once a duration has been merged into it. */
  predicate Completed(p: Profile) {
    p.duration.Some?
  }

  /** The two fields of the client that profiling changes. */
  datatype ClientState = ClientState(counter: nat, profiles: map<nat, Profile>)

  /** The state the constructor establishes. */
  const Initial := ClientState(0, map[])

  /** The table holds exactly the keys 1..counter. */
  ghost predicate WellFormed(s: ClientState) {
    forall k :: k in s.profiles <==> 1 <= k <= s.counter
  }

  /** startProfile: with a stopwatch, count the call and store a placeholder. */
  function StartStep(stopwatch: bool, s: ClientState, request: FacebookRequest): ClientState {
    if !stopwatch then s
    else ClientState(s.counter + 1, s.profiles[s.counter + 1 := Placeholder(request)])
  }

  /**
   * stopProfile: with a stopwatch, merge duration, code and response into
   * the entry under the current counter; its request is kept.
   */
  function StopStep(
    stopwatch: bool, s: ClientState, duration: nat,
    code: Option<int>, response: Option<FacebookResponse>): ClientState
    requires stopwatch ==> s.counter in s.profiles
  {
    if !stopwatch then s
    else
      var entry := s.profiles[s.counter];
      ClientState(s.counter, s.profiles[s.counter :=
        Profile(entry.request, Some(duration), code, response)])
  }

  /** The code sendRequest hands to stopProfile for an outcome. */
  function RecordedCode(outcome: Outcome): Option<int> {
    match outcome
    case Ok(response) => Some(response.httpStatusCode)
    case Err(ResponseException(response)) => Some(response.httpStatusCode)
    case Err(SdkException(code)) => Some(code)
    case Err(OtherException(code)) => Some(code)
    case Err(EngineError) => None
  }

  /** The response sendRequest hands to stopProfile for an outcome. */
  function RecordedResponse(outcome: Outcome): Option<FacebookResponse> {
    match outcome
    case Ok(response) => Some(response)
    case Err(ResponseException(response)) => Some(response)
    case Err(_) => None
  }

  /** One call through the client: the request, what the transport did, how long it took. */
  datatype Call = Call(request: FacebookRequest, outcome: Outcome, duration: nat)

  /** The completed entry a call leaves in the table. */
  function Record(call: Call): Profile {
    Profile(call.request, Some(call.duration), RecordedCode(call.outcome), RecordedResponse(call.outcome))
  }

  /** sendRequest: start the profile, run the transport, stop the profile. */
  function SendStep(stopwatch: bool, s: ClientState, call: Call): ClientState {
    StopStep(stopwatch, StartStep(stopwatch, s, call.request), call.duration,
             RecordedCode(call.outcome), RecordedResponse(call.outcome))
  }

  /** The state after a sequence of calls, applied in order. */
  function Run(stopwatch: bool, s: ClientState, calls: seq<Call>): ClientState
    decreases |calls|
  {
    if calls == [] then s
    else SendStep(stopwatch, Run(stopwatch, s, calls[..|calls| - 1]), calls[|calls| - 1])
  }

  /**
   * Right after startProfile the new entry is the placeholder for the
   * request, under a key one above the old counter, and every earlier entry
   * is unchanged.
   */
  lemma StartStepAppendsPlaceholder(s: ClientState, request: FacebookRequest)
    requires WellFormed(s)
    ensures var t := StartStep(true, s, request);
      && WellFormed(t)
      && t.counter == s.counter + 1
      && t.profiles.Keys == s.profiles.Keys + {t.counter}
      && t.profiles[t.counter] == Placeholder(request)
      && t.profiles[t.counter].duration == None
      && forall k :: k in s.profiles ==> t.profiles[k] == s.profiles[k]
  {
  }

  /**
   * stopProfile writes duration, code and response only into the entry at
   * the current counter, keeps that entry's request, and leaves the counter,
   * the key set and all other entries unchanged.
   */
  lemma StopStepCompletesCurrent(
    s: ClientState, duration: nat, code: Option<int>, response: Option<FacebookResponse>)
    requires WellFormed(s) && s.counter in s.profiles
    ensures var t := StopStep(true, s, duration, code, response);
      && WellFormed(t)
      && t.counter == s.counter
      && t.profiles.Keys == s.profiles.Keys
      && t.profiles[t.counter] == Profile(s.profiles[s.counter].request, Some(duration), code, response)
      && Completed(t.profiles[t.counter])
      && forall k :: k in s.profiles && k != s.counter ==> t.profiles[k] == s.profiles[k]
  {
  }

  /**
   * The entry a call records, by outcome: a normal response and a
   * FacebookResponseException give the response and its HTTP status; an
   * SDK or any other exception gives its code and no response; an \Error
   * gives neither. Every outcome leaves a completed entry.
   */
  lemma RecordByOutcome(call: Call)
    ensures Record(call).request == call.request
    ensures Record(call).duration == Some(call.duration) && Completed(Record(call))
    ensures call.outcome.Ok? ==>
      Record(call).code == Some(call.outcome.value.httpStatusCode) &&
      Record(call).response == Some(call.outcome.value)
    ensures call.outcome.Err? && call.outcome.error.ResponseException? ==>
      Record(call).code == Some(call.outcome.error.response.httpStatusCode) &&
      Record(call).response == Some(call.outcome.error.response)
    ensures call.outcome.Err? && (call.outcome.error.SdkException? || call.outcome.error.OtherException?) ==>
      Record(call).code == Some(call.outcome.error.code) && Record(call).response == None
    ensures call.outcome == Err(EngineError) ==>
      Record(call).code == None && Record(call).response == None
  {
  }

  /**
   * With a stopwatch, one call raises the counter by exactly one and adds
   * the call's completed entry under the new counter; nothing else changes.
   * Without one, the state is untouched.
   */
  lemma SendStepAppendsRecord(stopwatch: bool, s: ClientState, call: Call)
    requires WellFormed(s)
    ensures !stopwatch ==> SendStep(stopwatch, s, call) == s
    ensures stopwatch ==>
      var t := SendStep(stopwatch, s, call);
      && WellFormed(t)
      && t.counter == s.counter + 1
      && s.counter + 1 !in s.profiles
      && t.profiles == s.profiles[s.counter + 1 := Record(call)]
  {
    if stopwatch {
      StartStepAppendsPlaceholder(s, call.request);
      var u := StartStep(stopwatch, s, call.request);
      StopStepCompletesCurrent(u, call.duration, RecordedCode(call.outcome), RecordedResponse(call.outcome));
    }
  }

  /** Without a stopwatch no sequence of calls changes the counter or the table. */
  lemma {:induction false} RunWithoutStopwatch(s: ClientState, calls: seq<Call>)
    ensures Run(false, s, calls) == s
    decreases |calls|
  {
    if calls != [] {
      RunWithoutStopwatch(s, calls[..|calls| - 1]);
    }
  }

  /**
   * With a stopwatch, n calls raise the counter by n, keep every earlier
   * entry, and store the completed entry of the i-th call under the old
   * counter plus i + 1.
   */
  lemma {:induction false} RunAppends(s: ClientState, calls: seq<Call>)
    requires WellFormed(s)
    ensures var t := Run(true, s, calls);
      && WellFormed(t)
      && t.counter == s.counter + |calls|
      && (forall k :: k in s.profiles ==> t.profiles[k] == s.profiles[k])
      && (forall i :: 0 <= i < |calls| ==> t.profiles[s.counter + 1 + i] == Record(calls[i]))
    decreases |calls|
  {
    if calls != [] {
      var init, last := calls[..|calls| - 1], calls[|calls| - 1];
      RunAppends(s, init);
      var u := Run(true, s, init);
      SendStepAppendsRecord(true, u, last);
      var t := Run(true, s, calls);
      assert t == SendStep(true, u, last);
      forall i | 0 <= i < |calls|
        ensures t.profiles[s.counter + 1 + i] == Record(calls[i])
      {
        if i < |calls| - 1 {
          assert calls[i] == init[i];
        }
      }
    }
  }

  /**
   * From a freshly constructed client with a stopwatch, after n calls the
   * keys are exactly 1..n and entry k is the completed record of call k.
   */
  lemma RunFromInitial(calls: seq<Call>)
    ensures var t := Run(true, Initial, calls);
      && t.counter == |calls|
      && (forall k :: k in t.profiles <==> 1 <= k <= |calls|)
      && (forall k :: k in t.profiles ==> Completed(t.profiles[k]))
      && (forall i :: 0 <= i < |calls| ==> t.profiles[i + 1] == Record(calls[i]))
  {
    RunAppends(Initial, calls);
    var t := Run(true, Initial, calls);
    forall k | k in t.profiles
      ensures Completed(t.profiles[k])
    {
      assert t.profiles[0 + 1 + (k - 1)] == Record(calls[k - 1]);
    }
  }

  /**
   * The client. `stopwatch` says whether a Stopwatch was passed to the
   * constructor; `profileCounter` and `profiles` are the fields the
   * source updates in place.
   */
  class ProfilingFacebookClient {
    const stopwatch: bool
    var profileCounter: nat
    var profiles: map<nat, Profile>

    function State(): ClientState
      reads this
    {
      ClientState(profileCounter, profiles)
    }

    /** Keys are 1..counter, and without a stopwatch nothing was ever recorded. */
    ghost predicate Valid()
      reads this
    {
      WellFormed(State()) && (!stopwatch ==> State() == Initial)
    }

    constructor (stopwatch: bool)
      ensures this.stopwatch == stopwatch
      ensures Valid() && State() == Initial
    {
      this.stopwatch := stopwatch;
      profileCounter := 0;
      profiles := map[];
    }

    /** getProfiles: the whole table, keyed 1..counter. */
    method GetProfiles() returns (table: map<nat, Profile>)
      requires Valid()
      ensures table == profiles
      ensures forall k :: k in table <==> 1 <= k <= profileCounter
    {
      table := profiles;
    }

    method StartProfile(request: FacebookRequest) returns (event: Option<Span>)
      requires Valid()
      modifies this
      ensures Valid()
      ensures State() == StartStep(stopwatch, old(State()), request)
      ensures event == if stopwatch then Some(PROFILE_SPAN) else None
    {
      if !stopwatch {
        return None;
      }
      profileCounter := profileCounter + 1;
      profiles := profiles[profileCounter := Placeholder(request)];
      event := Some(PROFILE_SPAN);
    }

    /**
     * `duration` is what the stopped event reports for its last period.
     * The source stops `event` and indexes the current entry, so with a
     * stopwatch both must exist.
     */
    method StopProfile(code: Option<int>, response: Option<FacebookResponse>, event: Option<Span>, duration: nat)
      requires Valid()
      requires stopwatch ==> event.Some? && profileCounter in profiles
      modifies this
      ensures Valid()
      ensures State() == StopStep(stopwatch, old(State()), duration, code, response)
    {
      if !stopwatch {
        return;
      }
      var entry := profiles[profileCounter];
      profiles := profiles[profileCounter := Profile(entry.request, Some(duration), code, response)];
    }

    /**
     * sendRequest. `outcome` is what the transport does with the request
     * and `duration` what the stopwatch measures. The result is the
     * transport's outcome unchanged: its response is returned, its failure
     * re-thrown. The entry is completed on every outcome.
     */
    method SendRequest(request: FacebookRequest, outcome: Outcome, duration: nat) returns (result: Outcome)
      requires Valid()
      modifies this
      ensures Valid()
      ensures result == outcome
      ensures State() == SendStep(stopwatch, old(State()), Call(request, outcome, duration))
      ensures !stopwatch ==> profileCounter == 0 && profiles == map[]
      ensures stopwatch ==>
        && profileCounter == old(profileCounter) + 1
        && profileCounter !in old(profiles)
        && profiles == old(profiles)[profileCounter := Record(Call(request, outcome, duration))]
    {
      var event := StartProfile(request);
      var code: Option<int> := None;
      var response: Option<FacebookResponse> := None;
      var thrown: Option<Failure> := None;
      match outcome {
        case Ok(r) =>
          response := Some(r);
          code := Some(r.httpStatusCode);
        case Err(ResponseException(r)) =>
          thrown := Some(outcome.error);
          response := Some(r);
          code := Some(r.httpStatusCode);
        case Err(SdkException(c)) =>
          thrown := Some(outcome.error);
          code := Some(c);
        case Err(OtherException(c)) =>
          thrown := Some(outcome.error);
          code := Some(c);
        case Err(EngineError) =>
          // No catch arm applies; the finally block below still runs.
          thrown := Some(outcome.error);
      }
      StopProfile(code, response, event, duration);
      SendStepAppendsRecord(stopwatch, old(State()), Call(request, outcome, duration));
      if thrown.Some? {
        return Err(thrown.value);
      }
      result := Ok(response.value);
    }
  }
}
