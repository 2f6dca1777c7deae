/** A plain JavaScript object used as a counter, `acc[k] = (acc[k] || 0) + n`,
    read back with `Object.entries`: its entries in insertion order. */
module Tally {
  import opened Seqs

  type Counter<K> = seq<(K, nat)>

  /** The keys of a counter (or of a list of contributions), in order. */
  function Keys<K>(c: seq<(K, nat)>): seq<K> {
    seq(|c|, i requires 0 <= i < |c| => c[i].0)
  }

  /** `acc[k] || 0`. */
  function Get<K(==)>(c: Counter<K>, k: K): nat {
    if c == [] then 0 else if c[0].0 == k then c[0].1 else Get(c[1..], k)
  }

  /** `acc[k] = (acc[k] || 0) + n`: a known key keeps its place, a new key goes last. */
  function Add<K(==)>(c: Counter<K>, k: K, n: nat): Counter<K> {
    if c == [] then [(k, n)]
    else if c[0].0 == k then [(k, c[0].1 + n)] + c[1..]
    else [c[0]] + Add(c[1..], k, n)
  }

  /** The sum of all counts (the sum of the `value`s of the chart entries). */
  function Total<K>(c: Counter<K>): nat {
    if c == [] then 0 else c[0].1 + Total(c[1..])
  }

  /** Every count is at least one. */
  predicate AllPositive<K>(c: Counter<K>) {
    forall i :: 0 <= i < |c| ==> c[i].1 >= 1
  }

  lemma {:induction false} KeysCons<K>(e: (K, nat), c: Counter<K>)
    ensures Keys([e] + c) == [e.0] + Keys(c)
  {
    assert forall i :: 0 <= i < |c| ==> ([e] + c)[i + 1] == c[i];
  }

  /** One `acc[k] = (acc[k] || 0) + n` leaves the keys as `Set.prototype.add` would. */
  lemma {:induction false} AddKeys<K(!new)>(c: Counter<K>, k: K, n: nat)
    ensures Keys(Add(c, k, n)) == AddNew(Keys(c), k)
  {
    if c == [] {
      assert Keys([(k, n)]) == [k];
    } else {
      assert c == [c[0]] + c[1..];
      KeysCons(c[0], c[1..]);
      if c[0].0 == k {
        KeysCons((k, c[0].1 + n), c[1..]);
      } else {
        AddKeys(c[1..], k, n);
        KeysCons(c[0], Add(c[1..], k, n));
        assert k in Keys(c) <==> k in Keys(c[1..]);
      }
    }
  }

  lemma {:induction false} DistinctTail<K>(c: Counter<K>)
    requires c != [] && Distinct(Keys(c))
    ensures Distinct(Keys(c[1..])) && c[0].0 !in Keys(c[1..])
  {
    var ks, ts := Keys(c), Keys(c[1..]);
    assert forall i :: 0 <= i < |ts| ==> ts[i] == ks[i + 1];
    forall i, j | 0 <= i < j < |ts| ensures ts[i] != ts[j] {
      assert ks[i + 1] != ks[j + 1];
    }
    forall i | 0 <= i < |ts| ensures ts[i] != c[0].0 {
      assert ks[0] != ks[i + 1];
    }
  }

  /** One `acc[k] = (acc[k] || 0) + n` adds `n` to the count of `k` and to no other. */
  lemma {:induction false} AddGet<K>(c: Counter<K>, k: K, n: nat, k': K)
    requires Distinct(Keys(c))
    ensures Get(Add(c, k, n), k') == Get(c, k') + (if k' == k then n else 0)
  {
    if c != [] {
      DistinctTail(c);
      if c[0].0 == k {
        if k' == k {
        } else {
          assert Get(Add(c, k, n), k') == Get(c[1..], k');
        }
      } else {
        AddGet(c[1..], k, n, k');
      }
    }
  }

  lemma {:induction false} AddTotal<K>(c: Counter<K>, k: K, n: nat)
    ensures Total(Add(c, k, n)) == Total(c) + n
    ensures AllPositive(c) && n >= 1 ==> AllPositive(Add(c, k, n))
  {
    if c != [] && c[0].0 != k {
      AddTotal(c[1..], k, n);
      assert AllPositive(c) ==> AllPositive(c[1..]) by {
        assert forall i :: 0 <= i < |c| - 1 ==> c[1..][i] == c[i + 1];
      }
    }
  }

  /** The counter after applying every contribution `(key, amount)` in order. */
  function TallyOf<K(==)>(ws: seq<(K, nat)>): Counter<K> {
    if ws == [] then [] else Add(TallyOf(ws[..|ws| - 1]), ws[|ws| - 1].0, ws[|ws| - 1].1)
  }

  /** The sum of the amounts contributed to `k`. */
  function SumFor<K(==)>(ws: seq<(K, nat)>, k: K): nat {
    if ws == [] then 0 else SumFor(ws[..|ws| - 1], k) + (if ws[|ws| - 1].0 == k then ws[|ws| - 1].1 else 0)
  }

  /** The sum of all amounts. */
  function SumAll<K>(ws: seq<(K, nat)>): nat {
    if ws == [] then 0 else SumAll(ws[..|ws| - 1]) + ws[|ws| - 1].1
  }

  /** Folding contributions into a counter: one entry per distinct key, in order
      of first occurrence; each key's count is the sum of its contributions; the
      counts add up to the sum of all contributions. */
  lemma {:induction false} TallyOfFacts<K(!new)>(ws: seq<(K, nat)>)
    ensures Keys(TallyOf(ws)) == Dedup(Keys(ws))
    ensures Distinct(Keys(TallyOf(ws)))
    ensures forall k :: Get(TallyOf(ws), k) == SumFor(ws, k)
    ensures Total(TallyOf(ws)) == SumAll(ws)
    ensures (forall i :: 0 <= i < |ws| ==> ws[i].1 >= 1) ==> AllPositive(TallyOf(ws))
  {
    if ws != [] {
      var init := ws[..|ws| - 1];
      var k, n := ws[|ws| - 1].0, ws[|ws| - 1].1;
      TallyOfFacts(init);
      AddKeys(TallyOf(init), k, n);
      AddTotal(TallyOf(init), k, n);
      forall k' ensures Get(TallyOf(ws), k') == SumFor(ws, k') {
        AddGet(TallyOf(init), k, n, k');
      }
      assert Keys(ws)[..|ws| - 1] == Keys(init);
    }
  }

  /** One contribution of 1 per element: `acc[x] = (acc[x] || 0) + 1` for each `x`. */
  function Ones<K>(xs: seq<K>): (ws: seq<(K, nat)>)
    ensures |ws| == |xs|
    ensures forall i :: 0 <= i < |xs| ==> ws[i] == (xs[i], 1)
  {
    if xs == [] then [] else Ones(xs[..|xs| - 1]) + [(xs[|xs| - 1], 1)]
  }

  lemma {:induction false} OnesFacts<K>(xs: seq<K>)
    ensures Keys(Ones(xs)) == xs
    ensures forall k :: SumFor(Ones(xs), k) == Occurrences(xs, k)
    ensures SumAll(Ones(xs)) == |xs|
  {
    if xs != [] {
      OnesFacts(xs[..|xs| - 1]);
      assert Ones(xs)[..|xs| - 1] == Ones(xs[..|xs| - 1]);
    }
  }

  /** One more contribution at the end is one more `Add`. */
  lemma {:induction false} TallyOfSnoc<K>(ws: seq<(K, nat)>, k: K, n: nat)
    ensures TallyOf(ws + [(k, n)]) == Add(TallyOf(ws), k, n)
  {
    assert (ws + [(k, n)])[..|ws|] == ws;
  }

  /** One more element at the end is one more `Add` of 1. */
  lemma {:induction false} TallyOfOnesSnoc<K>(xs: seq<K>, x: K)
    ensures TallyOf(Ones(xs + [x])) == Add(TallyOf(Ones(xs)), x, 1)
  {
    assert (xs + [x])[..|xs|] == xs;
    assert Ones(xs + [x]) == Ones(xs) + [(x, 1)];
    TallyOfSnoc(Ones(xs), x, 1);
  }
}
