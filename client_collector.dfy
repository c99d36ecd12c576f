/**
 * The profiler panel's data collector
 * (DataCollector/FacebookClientCollector.php). On `collect` it fetches the
 * profile table from the service, adds up the call durations (an entry
 * whose duration is missing or null counts as 0) and keeps both for the
 * panel's getters.
 *
 * Durations are the stopwatch's readings, modelled as naturals, so the
 * source's `(int)` cast is the identity here.
 */
module ClientCollector {
  import opened Values
  import opened ProfilingClient
  import FacebookService

  /** One entry's contribution: its duration when set, 0 otherwise. */
  function DurationOf(p: Profile): nat {
    if p.duration.Some? then p.duration.value else 0
  }

  /** The sum of the contributions of all entries of a table. */
  ghost function TotalTime(calls: map<nat, Profile>): nat
    decreases |calls|
  {
    if calls == map[] then 0
    else
      var k :| k in calls;
      assert |calls - {k}| < |calls| by { assert (calls - {k}).Keys == calls.Keys - {k}; }
      DurationOf(calls[k]) + TotalTime(calls - {k})
  }

  /** The total does not depend on the order entries are visited in. */
  lemma {:induction false} TotalTimeRemove(calls: map<nat, Profile>, k: nat)
    requires k in calls
    ensures TotalTime(calls) == DurationOf(calls[k]) + TotalTime(calls - {k})
    decreases |calls|
  {
    var j :| j in calls && TotalTime(calls) == DurationOf(calls[j]) + TotalTime(calls - {j});
    if j != k {
      assert (calls - {j}).Keys == calls.Keys - {j};
      assert (calls - {k}).Keys == calls.Keys - {k};
      TotalTimeRemove(calls - {j}, k);
      TotalTimeRemove(calls - {k}, j);
      assert calls - {j} - {k} == calls - {k} - {j};
    }
  }

  /** An empty table totals 0. */
  lemma TotalTimeEmpty()
    ensures TotalTime(map[]) == 0
  {
  }

  /** Removing a present key shrinks a table by one. */
  lemma RemoveShrinks(m: map<nat, Profile>, k: nat)
    requires k in m
    ensures |m - {k}| == |m| - 1
  {
    assert (m - {k}).Keys == m.Keys - {k};
  }

  /** Removing a key of the left table from a disjoint union. */
  lemma RemoveFromUnion(a: map<nat, Profile>, b: map<nat, Profile>, k: nat)
    requires a.Keys !! b.Keys && k in a
    ensures (a + b) - {k} == (a - {k}) + b
    ensures (a - {k}).Keys !! b.Keys
  {
    assert ((a + b) - {k}).Keys == ((a - {k}) + b).Keys;
  }

  /** The total is additive over tables with disjoint keys. */
  lemma {:induction false} TotalTimeUnion(a: map<nat, Profile>, b: map<nat, Profile>)
    requires a.Keys !! b.Keys
    ensures TotalTime(a + b) == TotalTime(a) + TotalTime(b)
    decreases |a|
  {
    if a == map[] {
      assert a + b == b;
    } else {
      var k :| k in a;
      RemoveShrinks(a, k);
      RemoveFromUnion(a, b, k);
      TotalTimeUnion(a - {k}, b);
      TotalTimeRemove(a + b, k);
      TotalTimeRemove(a, k);
    }
  }

  /** The sum of the durations of a sequence of calls. */
  function SumDurations(calls: seq<Call>): nat
    decreases |calls|
  {
    if calls == [] then 0 else SumDurations(calls[..|calls| - 1]) + calls[|calls| - 1].duration
  }

  /**
   * Collecting from a client that started with a stopwatch and made the
   * given calls totals exactly the durations of those calls.
   */
  lemma {:induction false} RunTotalTime(calls: seq<Call>)
    ensures TotalTime(Run(true, Initial, calls).profiles) == SumDurations(calls)
    decreases |calls|
  {
    if calls != [] {
      var init, last := calls[..|calls| - 1], calls[|calls| - 1];
      RunTotalTime(init);
      RunAppends(Initial, init);
      var u := Run(true, Initial, init);
      SendStepAppendsRecord(true, u, last);
      var t := Run(true, Initial, calls);
      assert t.profiles == u.profiles[u.counter + 1 := Record(last)];
      TotalTimeRemove(t.profiles, u.counter + 1);
      assert t.profiles - {u.counter + 1} == u.profiles;
    }
  }

  /**
   * The loop of `collect`: visit every entry once and add its duration,
   * 0 when the duration is missing or null.
   */
  method SumCallDurations(calls: map<nat, Profile>) returns (callsTotalTime: nat)
    ensures callsTotalTime == TotalTime(calls)
  {
    callsTotalTime := 0;
    var rest := calls;
    while rest != map[]
      invariant callsTotalTime + TotalTime(rest) == TotalTime(calls)
      decreases |rest|
    {
      var k :| k in rest;
      TotalTimeRemove(rest, k);
      RemoveShrinks(rest, k);
      callsTotalTime := callsTotalTime + DurationOf(rest[k]);
      rest := rest - {k};
    }
    TotalTimeEmpty();
  }

  /** What `collect` stores for the getters. */
  datatype CollectedData = CollectedData(calls: map<nat, Profile>, callsTotalTime: nat)

  class FacebookClientCollector {
    const facebook: FacebookService.Facebook
    /** Nothing before the first `collect`; the getters then read null. */
    var data: Option<CollectedData>

    constructor (facebook: FacebookService.Facebook)
      ensures this.facebook == facebook && data == None
    {
      this.facebook := facebook;
      data := None;
    }

    method GetName() returns (name: string)
      ensures name == "facebook.facebook_client_collector"
    {
      name := "facebook.facebook_client_collector";
    }

    /**
     * collect: the service's table, unchanged, and the total of its
     * durations. The request, response and exception the framework passes
     * are not used by the source and are left out.
     */
    method Collect()
      requires facebook.client.Valid()
      modifies this
      ensures data == Some(CollectedData(facebook.client.profiles, TotalTime(facebook.client.profiles)))
    {
      var calls := facebook.GetProfiles();
      var callsTotalTime := SumCallDurations(calls);
      data := Some(CollectedData(calls, callsTotalTime));
    }

    /** getCalls: the table stored by the last collect, or null before any. */
    method GetCalls() returns (calls: Option<map<nat, Profile>>)
      ensures data.None? ==> calls == None
      ensures data.Some? ==> calls == Some(data.value.calls)
    {
      calls := if data.Some? then Some(data.value.calls) else None;
    }

    /** getCallsTotalTime: the total computed by the last collect, or null before any. */
    method GetCallsTotalTime() returns (total: Option<nat>)
      ensures data.None? ==> total == None
      ensures data.Some? ==> total == Some(data.value.callsTotalTime)
    {
      total := if data.Some? then Some(data.value.callsTotalTime) else None;
    }
  }
}
