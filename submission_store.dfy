/** The success rate of `getSuccessRateForProblem` in
    `Frontend/src/store/useSubmissionStore.js`: the share of a problem's
    submissions whose status is "Accepted", as a whole percentage.

    `Math.round((accepted / total) * 100)` is modelled in exact rational
    arithmetic, rounding halves up; the floating-point evaluation is not part of
    this model. */
module SubmissionStore {
  import opened Wrappers
  import opened Seqs

  /** The field of a submission the rate reads. */
  datatype Submission = Submission(status: string)

  predicate IsAccepted(s: Submission) {
    s.status == "Accepted"
  }

  /** `submissions.filter((s) => s.status === "Accepted").length`. */
  function AcceptedCount(subs: seq<Submission>): (n: nat)
    ensures n <= |subs|
    ensures n == |subs| <==> forall i :: 0 <= i < |subs| ==> subs[i].status == "Accepted"
    ensures n == 0 <==> forall i :: 0 <= i < |subs| ==> subs[i].status != "Accepted"
  {
    AcceptedCountFacts(subs);
    |Filter(subs, IsAccepted)|
  }

  lemma {:induction false} AcceptedCountFacts(subs: seq<Submission>)
    ensures |Filter(subs, IsAccepted)| == |subs| <==> forall i :: 0 <= i < |subs| ==> IsAccepted(subs[i])
    ensures |Filter(subs, IsAccepted)| == 0 <==> forall i :: 0 <= i < |subs| ==> !IsAccepted(subs[i])
  {
    if subs != [] {
      AcceptedCountFacts(subs[1..]);
      assert forall i :: 1 <= i < |subs| ==> subs[i] == subs[1..][i - 1];
    }
  }

  /** `total ? Math.round((accepted / total) * 100) : 0`, for `accepted <= total`. */
  function Rate(accepted: nat, total: nat): (rate: nat)
    requires accepted <= total
    ensures rate <= 100
    ensures total == 0 ==> rate == 0
    ensures total > 0 ==> 2 * total * rate <= 200 * accepted + total < 2 * total * (rate + 1)
  {
    if total == 0 then 0
    else
      var r := (200 * accepted + total) / (2 * total);
      assert 200 * accepted + total < 2 * total * 101;
      r
  }

  /** The rate of a problem's submissions. */
  function SuccessRate(subs: seq<Submission>): (rate: nat)
    ensures rate <= 100
    ensures subs == [] ==> rate == 0
  {
    Rate(AcceptedCount(subs), |subs|)
  }

  /** All of `total` accepted is 100 percent; none is 0 percent. */
  lemma RateBounds(total: nat)
    ensures total > 0 ==> Rate(total, total) == 100
    ensures Rate(0, total) == 0
  {
    if total > 0 {
      assert 2 * total * 100 <= 200 * total + total < 2 * total * 101;
      DivideBetween(200 * total + total, 2 * total, 100);
      DivideBetween(total, 2 * total, 0);
    }
  }

  /** `q` is the quotient of `x` by `d` when `x` lies in `[d * q, d * (q + 1))`. */
  lemma DivideBetween(x: nat, d: nat, q: nat)
    requires d > 0 && d * q <= x < d * (q + 1)
    ensures x / d == q
  {
    var r := x / d;
    if r < q {
      MultiplyMonotone(d, r + 1, q);
    } else if r > q {
      MultiplyMonotone(d, q + 1, r);
    }
  }

  lemma MultiplyMonotone(c: nat, x: nat, y: nat)
    requires x <= y
    ensures c * x <= c * y
  {
  }

  /** Every submission accepted gives 100, none accepted gives 0. */
  lemma RateExtremes(subs: seq<Submission>)
    ensures subs != [] && (forall i :: 0 <= i < |subs| ==> subs[i].status == "Accepted") ==> SuccessRate(subs) == 100
    ensures (forall i :: 0 <= i < |subs| ==> subs[i].status != "Accepted") ==> SuccessRate(subs) == 0
  {
    RateBounds(|subs|);
  }

  /** For a fixed number of submissions, more accepted ones never lower the rate. */
  lemma RateMonotone(a: nat, b: nat, total: nat)
    requires a <= b <= total
    ensures Rate(a, total) <= Rate(b, total)
  {
    if total > 0 {
      var ra, rb := Rate(a, total), Rate(b, total);
      if rb < ra {
        MultiplyMonotone(2 * total, rb + 1, ra);
        assert false;
      }
    }
  }

  /** The stored `successRate` after a request: the rate of the returned
      submissions, or the previous value when the request fails. */
  function RateAfter(previous: nat, response: Option<seq<Submission>>): (rate: nat)
    ensures response.None? ==> rate == previous
    ensures response.Some? ==> rate == SuccessRate(response.value) && rate <= 100
  {
    match response
    case None => previous
    case Some(subs) => SuccessRate(subs)
  }
}
