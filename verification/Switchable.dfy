/** The provider override and its short-lived cache: which provider a delivery goes to, and how
    soon a switch takes effect. Times are in milliseconds.
 */
module Switchable {
  import opened Domain

  const OVERRIDE_CACHE_TTL := 2000

  datatype WebhookSender = WebhookSender(url: string)

  // No override stored is the empty URL; deliveries then use the configured provider.
  function TargetOf(url: string): Option<WebhookSender> {
    if url == "" then None else Some(WebhookSender(url))
  }

  // One call: when it starts, when a lookup it makes would have returned, and with what
  // (None: an error).
  datatype Call = Call(now: Time, returned: Time, answer: Option<string>)

  // The last successful lookup: its URL, and when it returned.
  datatype Cache = Cache(url: string, at: Option<Time>)

  predicate Asks(c: Cache, call: Call) {
    c.at.None? || call.now - c.at.value > OVERRIDE_CACHE_TTL
  }

  function After(c: Cache, call: Call): Cache {
    if Asks(c, call) && call.answer.Some? then Cache(call.answer.value, Some(call.returned)) else c
  }

  class SwitchableSender {
    var cachedUrl: string
    var cachedAt: Option<Time>
    var webhook: Option<WebhookSender>

    predicate Valid()
      reads this
    {
      webhook == TargetOf(cachedUrl)
    }

    function View(): Cache
      reads this
    {
      Cache(cachedUrl, cachedAt)
    }

    constructor ()
      ensures Valid() && View() == Cache("", None)
    {
      cachedUrl, cachedAt, webhook := "", None, None;
    }

    /** The target is that of the last successful lookup, and that lookup returned no longer
        ago than the TTL unless the one made now has failed. */
    method CurrentTarget(call: Call) returns (target: Option<WebhookSender>)
      requires Valid() && call.now <= call.returned
      modifies this
      ensures Valid() && View() == After(old(View()), call)
      ensures target == if cachedUrl == "" then None else Some(WebhookSender(cachedUrl))
      ensures var asks := old(cachedAt.None? || call.now - cachedAt.value > 2000);
              && cachedUrl == (if asks && call.answer.Some? then call.answer.value else old(cachedUrl))
              && cachedAt == if asks && call.answer.Some? then Some(call.returned) else old(cachedAt)
      ensures (old(Asks(View(), call)) && call.answer.None?)
                || (cachedAt.Some? && call.now - cachedAt.value <= OVERRIDE_CACHE_TTL)
    {
      if cachedAt.None? || call.now - cachedAt.value > OVERRIDE_CACHE_TTL {
        if call.answer.Some? {
          var overrideUrl := call.answer.value;
          if overrideUrl != cachedUrl {
            cachedUrl := overrideUrl;
            webhook := None;
            if overrideUrl != "" { webhook := Some(WebhookSender(overrideUrl)); }
          }
          cachedAt := Some(call.returned);
        }
      }
      target := webhook;
    }
  }

  // ---- runs of calls, one after the other under the lock -------------------------------------------

  predicate InSequence(calls: seq<Call>) {
    && (forall i :: 0 <= i < |calls| ==> calls[i].now <= calls[i].returned)
    && (forall i, j :: 0 <= i < j < |calls| ==> calls[i].returned <= calls[j].now)
  }

  function Ran(calls: seq<Call>): Cache {
    if calls == [] then Cache("", None) else After(Ran(calls[..|calls| - 1]), calls[|calls| - 1])
  }

  predicate LookupsWithin(calls: seq<Call>, latency: nat) {
    forall i :: 0 <= i < |calls| ==> calls[i].returned - calls[i].now <= latency
  }

  // Call j made a lookup, and it succeeded.
  predicate LookedUp(calls: seq<Call>, j: nat) {
    j < |calls| && Asks(Ran(calls[..j]), calls[j]) && calls[j].answer.Some?
  }

  // Every lookup made from the moment on that succeeds finds this URL.
  ghost predicate SwitchedAt(calls: seq<Call>, moment: Time, url: string) {
    forall i: nat :: LookedUp(calls, i) && calls[i].now >= moment ==> calls[i].answer.value == url
  }

  lemma LookedUpBefore(calls: seq<Call>, n: nat, j: nat)
    requires j < n <= |calls|
    ensures LookedUp(calls[..n], j) <==> LookedUp(calls, j)
  {
    assert calls[..n][..j] == calls[..j];
  }

  /** The cached URL and time are those of the latest lookup that was made and succeeded. */
  lemma {:induction false} LatestLookupWins(calls: seq<Call>) returns (asked: Option<nat>)
    ensures asked.None? ==> Ran(calls) == Cache("", None)
    ensures asked.Some? ==> LookedUp(calls, asked.value)
    ensures asked.Some? ==> Ran(calls) == Cache(calls[asked.value].answer.value, Some(calls[asked.value].returned))
    ensures forall i: nat :: LookedUp(calls, i) ==> asked.Some? && i <= asked.value
  {
    if calls == [] {
      asked := None;
    } else {
      var n := |calls| - 1;
      asked := LatestLookupWins(calls[..n]);
      forall i | 0 <= i < n ensures LookedUp(calls[..n], i) <==> LookedUp(calls, i) { LookedUpBefore(calls, n, i); }
      if LookedUp(calls, n) { asked := Some(n); }
    }
  }

  // The lookup of call j began before the switch, found another URL, and returned so late
  // that the last call still trusts it.
  predicate StraddlesSwitch(calls: seq<Call>, moment: Time, url: string, j: nat) {
    && j < |calls| - 1 && calls[j].now < moment && LookedUp(calls, j) && calls[j].answer.value != url
    && calls[|calls| - 1].now - calls[j].returned <= OVERRIDE_CACHE_TTL
  }

  // A successful lookup never makes the cache older.
  lemma {:induction false} CacheAges(calls: seq<Call>, j: nat, k: nat)
    requires InSequence(calls) && LookedUp(calls, j) && j < k <= |calls|
    ensures Ran(calls[..k]).at.Some? && calls[j].returned <= Ran(calls[..k]).at.value
  {
    assert calls[..k][..k - 1] == calls[..k - 1];
    if j < k - 1 { CacheAges(calls, j, k - 1); }
  }

  // So a successful lookup after it means that its answer is no longer trusted.
  lemma OnlyTheLatestIsTrusted(calls: seq<Call>, j: nat, k: nat)
    requires InSequence(calls) && LookedUp(calls, j) && LookedUp(calls, k) && j < k
    ensures calls[k].now - calls[j].returned > OVERRIDE_CACHE_TTL
  {
    CacheAges(calls, j, k);
  }

  // The last call makes a lookup, and it fails.
  predicate FailsNow(calls: seq<Call>)
    requires calls != []
  {
    Asks(Ran(calls[..|calls| - 1]), calls[|calls| - 1]) && calls[|calls| - 1].answer.None?
  }

  // No lookup has found this URL: none begun since the switch has succeeded, and the latest
  // success before it found another one, or there was none and this is not the empty URL.
  ghost predicate NotFoundYet(calls: seq<Call>, moment: Time, url: string) {
    && (forall j: nat :: LookedUp(calls, j) ==> calls[j].now < moment)
    && ((forall j: nat :: !LookedUp(calls, j)) ==> url != "")
    && (forall k: nat :: LookedUp(calls, k) && (forall j: nat :: LookedUp(calls, j) ==> j <= k)
          ==> calls[k].answer.value != url)
  }

  lemma StraddlersMiss(calls: seq<Call>, moment: Time, url: string, j: nat)
    requires InSequence(calls) && StraddlesSwitch(calls, moment, url, j)
    ensures Ran(calls).url != url
  {
    var asked := LatestLookupWins(calls);
    if j < asked.value { OnlyTheLatestIsTrusted(calls, j, asked.value); }
  }

  lemma FailuresMiss(calls: seq<Call>, moment: Time, url: string)
    requires NotFoundYet(calls, moment, url)
    ensures Ran(calls).url != url
  {
    var asked := LatestLookupWins(calls);
  }

  lemma MissesAreThese(calls: seq<Call>, moment: Time, url: string)
    requires InSequence(calls) && SwitchedAt(calls, moment, url)
    requires calls != [] && calls[|calls| - 1].now > moment + OVERRIDE_CACHE_TTL
    requires Ran(calls).url != url && !FailsNow(calls)
    ensures exists j: nat :: StraddlesSwitch(calls, moment, url, j)
  {
    var n := |calls| - 1;
    var asked := LatestLookupWins(calls);
    assert calls[..|calls|] == calls;
    assert LookedUp(calls, asked.value) && asked.value < n;
    assert StraddlesSwitch(calls, moment, url, asked.value);
  }

  lemma FailedMissesAreThese(calls: seq<Call>, moment: Time, url: string)
    requires InSequence(calls) && SwitchedAt(calls, moment, url) && Ran(calls).url != url
    ensures NotFoundYet(calls, moment, url)
  {
    var asked := LatestLookupWins(calls);
  }

  /** When exactly a call more than the TTL after a switch still misses it: a lookup that was in
      flight across the switch has returned another URL within the TTL before the call, or the
      call's own lookup fails and none has found the new URL yet. */
  lemma MissesSwitchIff(calls: seq<Call>, moment: Time, url: string)
    requires InSequence(calls) && SwitchedAt(calls, moment, url)
    requires calls != [] && calls[|calls| - 1].now > moment + OVERRIDE_CACHE_TTL
    ensures Ran(calls).url != url <==>
              || (exists j: nat :: StraddlesSwitch(calls, moment, url, j))
              || (FailsNow(calls) && NotFoundYet(calls, moment, url))
  {
    if j: nat :| StraddlesSwitch(calls, moment, url, j) {
      StraddlersMiss(calls, moment, url, j);
    } else if NotFoundYet(calls, moment, url) {
      FailuresMiss(calls, moment, url);
    }
    if Ran(calls).url != url {
      FailedMissesAreThese(calls, moment, url);
      if !FailsNow(calls) { MissesAreThese(calls, moment, url); }
    }
  }

  /** Once a lookup begun since the switch has succeeded, every call uses the new URL, however
      many lookups fail after it. */
  lemma OnceFoundItStays(calls: seq<Call>, moment: Time, url: string, j: nat)
    requires InSequence(calls) && SwitchedAt(calls, moment, url)
    requires LookedUp(calls, j) && calls[j].now >= moment
    ensures Ran(calls).url == url
  {
    var asked := LatestLookupWins(calls);
    assert calls[j].now <= calls[asked.value].now;
  }

  /** And more than the TTL and the time one lookup can take after the switch, every call does
      whose own lookup, if it makes one, does not fail. */
  lemma SwitchTakesEffect(calls: seq<Call>, moment: Time, url: string, latency: nat)
    requires InSequence(calls) && SwitchedAt(calls, moment, url) && LookupsWithin(calls, latency)
    requires calls != [] && calls[|calls| - 1].now > moment + OVERRIDE_CACHE_TTL + latency
    requires Asks(Ran(calls[..|calls| - 1]), calls[|calls| - 1]) ==> calls[|calls| - 1].answer.Some?
    ensures Ran(calls).url == url
  {
    MissesSwitchIff(calls, moment, url);
  }

  /** The TTL alone is not enough: a lookup in flight during the switch stamps the old URL with
      the time at which it returned, and here a call more than the TTL later, which makes no
      lookup itself, trusts it. */
  lemma TtlAloneIsNotEnough() returns (calls: seq<Call>, moment: Time)
    ensures InSequence(calls) && SwitchedAt(calls, moment, "new") && calls != []
    ensures calls[|calls| - 1].now > moment + 2000 && calls[|calls| - 1].answer == Some("new")
    ensures Ran(calls).url == "old"
  {
    calls, moment := [Call(0, 500, Some("old")), Call(2400, 2400, Some("new"))], 1;
    TwoCalls(calls[0], calls[1]);
  }

  /** Nor is any other bound, if lookups fail: here they take no time at all, and the call is as
      late as one likes. */
  lemma FailedLookupsKeepTheOld(delay: nat) returns (calls: seq<Call>, moment: Time)
    ensures InSequence(calls) && SwitchedAt(calls, moment, "new") && LookupsWithin(calls, 0) && calls != []
    ensures calls[|calls| - 1].now > moment + 2000 + delay
    ensures Ran(calls).url == "old"
  {
    var late := 5000 + delay;
    calls, moment := [Call(0, 0, Some("old")), Call(late, late, None)], 1;
    TwoCalls(calls[0], calls[1]);
  }

  lemma TwoCalls(first: Call, second: Call)
    ensures Ran([first]) == After(Cache("", None), first) && Ran([first, second]) == After(Ran([first]), second)
    ensures [first, second][..0] == [] && [first, second][..1] == [first]
  {
    assert [first][..0] == [];
  }
}
