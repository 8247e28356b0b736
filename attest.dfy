/**
 The k8s_sat Attest operation: a bounded polling loop that lists the pods of
 the cluster once per attempt and succeeds only when exactly one pod of a
 listing is known (carries a UID).

 The cluster and the clock are outside the model. `listing(k)` is the pod
 list the cluster returns at attempt k (attempts count from 1), and
 `canceled(k)` says whether the wait after a fruitless attempt k ends because
 the request's context is done rather than because the retry interval
 elapsed. Run is the specification of the loop; Attest is the loop itself.
 */
module Attest {
  import opened Pods
  import opened Selectors

  /** defaultMaxPollAttempts. */
  const MAX_POLL_ATTEMPTS: nat := 60

  /** defaultPollRetryInterval, in milliseconds. Only the cancellation oracle
      observes the wait, so the duration itself plays no part in the model. */
  const POLL_RETRY_INTERVAL_MS: nat := 500

  /** The gRPC status codes Attest fails with. */
  datatype Code = Internal | DeadlineExceeded | Canceled

  datatype AttestResult = Ok(selectorValues: seq<string>) | Err(code: Code)

  datatype Option<T> = None | Some(value: T)

  // ---------------------------------------------------------------------
  // One attempt: scanning a pod listing
  // ---------------------------------------------------------------------

  /** A pod is known when its UID is not empty. */
  predicate Known(pod: Pod) {
    pod.uid != ""
  }

  /** The known pods of a listing, in listing order. */
  function KnownPods(pods: seq<Pod>): seq<Pod> {
    if pods == [] then []
    else
      var last := pods[|pods| - 1];
      KnownPods(pods[..|pods| - 1]) + (if Known(last) then [last] else [])
  }

  /** The known pods are exactly the listed pods with a UID, each as often
      as it is listed. */
  lemma {:induction false} KnownPodsMultiset(pods: seq<Pod>, p: Pod)
    ensures multiset(KnownPods(pods))[p] == if Known(p) then multiset(pods)[p] else 0
  {
    if pods != [] {
      var init := pods[..|pods| - 1];
      assert pods == init + [pods[|pods| - 1]];
      KnownPodsMultiset(init, p);
    }
  }

  lemma {:induction false} KnownPodsConcat(a: seq<Pod>, b: seq<Pod>)
    ensures KnownPods(a + b) == KnownPods(a) + KnownPods(b)
  {
    if b != [] {
      assert (a + b)[..|a + b| - 1] == a + b[..|b| - 1];
      KnownPodsConcat(a, b[..|b| - 1]);
    } else {
      assert a + b == a;
    }
  }

  /** What one attempt decides from its listing. */
  datatype Scan = NoMatch | Match(pod: Pod) | Ambiguous

  function ScanListing(pods: seq<Pod>): Scan {
    var known := KnownPods(pods);
    if |known| == 0 then NoMatch
    else if |known| == 1 then Match(known[0])
    else Ambiguous
  }

  /** The decision does not depend on the order in which the cluster lists the pods. */
  lemma ScanIgnoresOrder(a: seq<Pod>, b: seq<Pod>)
    requires multiset(a) == multiset(b)
    ensures ScanListing(a) == ScanListing(b)
  {
    var ka, kb := KnownPods(a), KnownPods(b);
    forall p ensures multiset(ka)[p] == multiset(kb)[p] {
      KnownPodsMultiset(a, p);
      KnownPodsMultiset(b, p);
    }
    assert multiset(ka) == multiset(kb);
    assert |ka| == |multiset(ka)| == |multiset(kb)| == |kb|;
    if |ka| == 1 {
      assert ka == [ka[0]] && kb == [kb[0]];
      assert ka[0] in multiset(kb);
    }
  }

  /** A match is the one listed pod with a UID; every other listed pod has none. */
  lemma MatchIsTheKnownPod(pods: seq<Pod>, p: Pod)
    requires ScanListing(pods) == Match(p)
    ensures p in pods && Known(p) && multiset(pods)[p] == 1
    ensures forall q :: q in pods && q != p ==> !Known(q)
  {
    var known := KnownPods(pods);
    assert known == [p];
    KnownPodsMultiset(pods, p);
    forall q | q in pods && q != p ensures !Known(q) {
      KnownPodsMultiset(pods, q);
    }
  }

  // ---------------------------------------------------------------------
  // The polling loop, as a specification
  // ---------------------------------------------------------------------

  /** How the loop ends: with a selected pod or an ambiguity at some attempt,
      with the attempts used up, or cancelled in the wait after some attempt. */
  datatype Verdict = Selected(pod: Pod, attempt: nat) | AmbiguousAt(attempt: nat) | Exhausted | CanceledAt(attempt: nat)

  /** The loop from attempt onwards. */
  function Run(listing: nat -> seq<Pod>, canceled: nat -> bool, attempt: nat): Verdict
    requires 1 <= attempt <= MAX_POLL_ATTEMPTS
    decreases MAX_POLL_ATTEMPTS - attempt
  {
    match ScanListing(listing(attempt))
    case Match(p) => Selected(p, attempt)
    case Ambiguous => AmbiguousAt(attempt)
    case NoMatch =>
      if attempt >= MAX_POLL_ATTEMPTS then Exhausted
      else if canceled(attempt) then CanceledAt(attempt)
      else Run(listing, canceled, attempt + 1)
  }

  /** The number of listings made before the loop ends with verdict v. */
  function ListingsMade(v: Verdict): nat {
    match v
    case Selected(_, k) => k
    case AmbiguousAt(k) => k
    case Exhausted => MAX_POLL_ATTEMPTS
    case CanceledAt(k) => k
  }

  /** No attempt from a up to (not including) k found a known pod, and no
      wait after one of them was cancelled. */
  ghost predicate Quiet(listing: nat -> seq<Pod>, canceled: nat -> bool, a: nat, k: nat) {
    forall j :: a <= j < k ==> KnownPods(listing(j)) == [] && !canceled(j)
  }

  /** Quiet attempts change nothing: the loop goes on as if it started later. */
  lemma {:induction false} RunSkipsQuiet(listing: nat -> seq<Pod>, canceled: nat -> bool, a: nat, k: nat)
    requires 1 <= a <= k <= MAX_POLL_ATTEMPTS
    requires Quiet(listing, canceled, a, k)
    ensures Run(listing, canceled, a) == Run(listing, canceled, k)
    decreases k - a
  {
    if a < k {
      assert KnownPods(listing(a)) == [] && !canceled(a);
      RunSkipsQuiet(listing, canceled, a + 1, k);
    }
  }

  /** Whatever the verdict, it is explained by the attempt it names: all
      attempts before it were quiet, and that attempt saw what the verdict says. */
  lemma {:induction false} RunExplained(listing: nat -> seq<Pod>, canceled: nat -> bool, a: nat)
    requires 1 <= a <= MAX_POLL_ATTEMPTS
    ensures var v := Run(listing, canceled, a);
      && a <= ListingsMade(v) <= MAX_POLL_ATTEMPTS
      && Quiet(listing, canceled, a, ListingsMade(v))
      && (v.Selected? ==> KnownPods(listing(v.attempt)) == [v.pod])
      && (v.AmbiguousAt? ==> |KnownPods(listing(v.attempt))| >= 2)
      && (v.Exhausted? ==> KnownPods(listing(MAX_POLL_ATTEMPTS)) == [])
      && (v.CanceledAt? ==> v.attempt < MAX_POLL_ATTEMPTS && KnownPods(listing(v.attempt)) == [] && canceled(v.attempt))
    decreases MAX_POLL_ATTEMPTS - a
  {
    var known := KnownPods(listing(a));
    if |known| == 1 {
      assert known == [known[0]];
    } else if |known| == 0 && a < MAX_POLL_ATTEMPTS && !canceled(a) {
      RunExplained(listing, canceled, a + 1);
    }
  }

  /** Attest makes between 1 and 60 listings. */
  lemma AttemptsBounded(listing: nat -> seq<Pod>, canceled: nat -> bool)
    ensures 1 <= ListingsMade(Run(listing, canceled, 1)) <= MAX_POLL_ATTEMPTS
  {
    RunExplained(listing, canceled, 1);
  }

  /** Success with pod p at attempt k exactly when p is the only known pod of
      listing k and no earlier attempt found a known pod or was cancelled. */
  lemma SelectedIff(listing: nat -> seq<Pod>, canceled: nat -> bool, p: Pod, k: nat)
    ensures Run(listing, canceled, 1) == Selected(p, k) <==>
            1 <= k <= MAX_POLL_ATTEMPTS && Quiet(listing, canceled, 1, k) && KnownPods(listing(k)) == [p]
  {
    RunExplained(listing, canceled, 1);
    if 1 <= k <= MAX_POLL_ATTEMPTS && Quiet(listing, canceled, 1, k) && KnownPods(listing(k)) == [p] {
      RunSkipsQuiet(listing, canceled, 1, k);
    }
  }

  /** The ambiguity error at attempt k exactly when listing k holds two or
      more known pods and the attempts before were quiet; no attempt follows. */
  lemma AmbiguousIff(listing: nat -> seq<Pod>, canceled: nat -> bool, k: nat)
    ensures Run(listing, canceled, 1) == AmbiguousAt(k) <==>
            1 <= k <= MAX_POLL_ATTEMPTS && Quiet(listing, canceled, 1, k) && |KnownPods(listing(k))| >= 2
  {
    RunExplained(listing, canceled, 1);
    if 1 <= k <= MAX_POLL_ATTEMPTS && Quiet(listing, canceled, 1, k) && |KnownPods(listing(k))| >= 2 {
      RunSkipsQuiet(listing, canceled, 1, k);
    }
  }

  /** DeadlineExceeded exactly when none of the 60 listings holds a known pod
      and none of the 59 waits between them was cancelled. */
  lemma ExhaustedIff(listing: nat -> seq<Pod>, canceled: nat -> bool)
    ensures Run(listing, canceled, 1) == Exhausted <==>
            Quiet(listing, canceled, 1, MAX_POLL_ATTEMPTS) && KnownPods(listing(MAX_POLL_ATTEMPTS)) == []
  {
    RunExplained(listing, canceled, 1);
    if Quiet(listing, canceled, 1, MAX_POLL_ATTEMPTS) && KnownPods(listing(MAX_POLL_ATTEMPTS)) == [] {
      RunSkipsQuiet(listing, canceled, 1, MAX_POLL_ATTEMPTS);
    }
  }

  /** Canceled after attempt k exactly when the wait after a quiet attempt
      k < 60 is cancelled; listing k + 1 is never made. */
  lemma CanceledIff(listing: nat -> seq<Pod>, canceled: nat -> bool, k: nat)
    ensures Run(listing, canceled, 1) == CanceledAt(k) <==>
            1 <= k < MAX_POLL_ATTEMPTS && Quiet(listing, canceled, 1, k)
            && KnownPods(listing(k)) == [] && canceled(k)
  {
    RunExplained(listing, canceled, 1);
    if 1 <= k < MAX_POLL_ATTEMPTS && Quiet(listing, canceled, 1, k) && KnownPods(listing(k)) == [] && canceled(k) {
      RunSkipsQuiet(listing, canceled, 1, k);
    }
  }

  /** A cluster that never lists a known pod, with a context that is never
      cancelled, gets exactly 60 listings and DeadlineExceeded. */
  lemma NeverKnownExhausts(listing: nat -> seq<Pod>, canceled: nat -> bool)
    requires forall j :: 1 <= j <= MAX_POLL_ATTEMPTS ==> KnownPods(listing(j)) == [] && !canceled(j)
    ensures Run(listing, canceled, 1) == Exhausted
    ensures ListingsMade(Run(listing, canceled, 1)) == MAX_POLL_ATTEMPTS
  {
    RunSkipsQuiet(listing, canceled, 1, MAX_POLL_ATTEMPTS);
  }

  /** Pods without a UID never influence an attempt, wherever they are listed. */
  lemma UnknownPodIgnored(before: seq<Pod>, q: Pod, after: seq<Pod>)
    requires !Known(q)
    ensures ScanListing(before + [q] + after) == ScanListing(before + after)
  {
    KnownPodsConcat(before + [q], after);
    KnownPodsConcat(before, [q]);
    KnownPodsConcat(before, after);
    assert [q][..0] == [];
  }

  // ---------------------------------------------------------------------
  // Attest
  // ---------------------------------------------------------------------

  /** The scan of one listing, keeping the one response found so far and
      failing as soon as a second known pod turns up. */
  method ScanPods(pods: seq<Pod>) returns (attestResponse: Option<seq<string>>, ambiguous: bool)
    ensures ambiguous <==> ScanListing(pods).Ambiguous?
    ensures !ambiguous ==> (attestResponse.None? <==> ScanListing(pods).NoMatch?)
    ensures !ambiguous && attestResponse.Some? ==>
              IsPodSelectors(ScanListing(pods).pod, attestResponse.value) && |attestResponse.value| >= 7
  {
    attestResponse, ambiguous := None, false;
    for i := 0 to |pods|
      invariant attestResponse.None? <==> KnownPods(pods[..i]) == []
      invariant attestResponse.Some? ==>
                  && |KnownPods(pods[..i])| == 1
                  && IsPodSelectors(KnownPods(pods[..i])[0], attestResponse.value)
                  && |attestResponse.value| >= 7
    {
      var pod := pods[i];
      assert pods[..i + 1] == pods[..i] + [pod];
      assert pods[..i + 1][..i] == pods[..i];

      var selectorValues: seq<string> := [];
      if Known(pod) {
        selectorValues := GetSelectorValuesFromPodInfo(pod);
      }

      if |selectorValues| > 0 {
        if attestResponse.Some? {
          KnownPodsConcat(pods[..i + 1], pods[i + 1..]);
          assert pods[..i + 1] + pods[i + 1..] == pods;
          return None, true;
        }
        attestResponse := Some(selectorValues);
      }
    }
    assert pods[..|pods|] == pods;
  }

  /** Attest, with the listings and the cancellation of the waits as inputs.
      Besides the result it returns the number of listings it made. */
  method Attest(listing: nat -> seq<Pod>, canceled: nat -> bool) returns (r: AttestResult, listings: nat)
    ensures listings == ListingsMade(Run(listing, canceled, 1))
    ensures r.Ok? <==> Run(listing, canceled, 1).Selected?
    ensures r.Ok? ==> IsPodSelectors(Run(listing, canceled, 1).pod, r.selectorValues)
    ensures r.Ok? ==> |r.selectorValues| >= 7
    ensures r == Err(Internal) <==> Run(listing, canceled, 1).AmbiguousAt?
    ensures r == Err(DeadlineExceeded) <==> Run(listing, canceled, 1) == Exhausted
    ensures r == Err(Canceled) <==> Run(listing, canceled, 1).CanceledAt?
  {
    var attempt := 1;
    while true
      invariant 1 <= attempt <= MAX_POLL_ATTEMPTS
      invariant Run(listing, canceled, attempt) == Run(listing, canceled, 1)
      decreases MAX_POLL_ATTEMPTS - attempt
    {
      var pods := listing(attempt);
      var attestResponse, ambiguous := ScanPods(pods);
      if ambiguous {
        return Err(Internal), attempt;
      }

      if attestResponse.Some? {
        return Ok(attestResponse.value), attempt;
      }

      if attempt >= MAX_POLL_ATTEMPTS {
        return Err(DeadlineExceeded), attempt;
      }

      if canceled(attempt) {
        return Err(Canceled), attempt;
      }
      attempt := attempt + 1;
    }
  }
}
