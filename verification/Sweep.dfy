/**
 The capacity search (scripts/bench/homelab/sweep.py:305-437): walk up or down
 from a prior until a pass and a non-pass bracket the ceiling, bisect, then
 confirm from the top down. What a measurement returns is the environment's
 choice: the outcome of the k-th measurement, taken at n sessions, is
 `oracle(k, n)`, with no assumption that repeated measurements agree.

 Python's float products (n * 1.1 and so on) are taken exactly.
 */
module Sweep {
  import opened Octets

  /** `None` (INVALID) in the source is Invalid here. */
  datatype Outcome = Pass | Fail | Invalid

  function StepFor(n: int): (s: int)
    ensures s == 25 || s == 50 || s == 100
  {
    if n < 400 then 25 else if n < 2000 then 50 else 100
  }

  /** Python's `round`: to the nearest integer, ties to the even one. */
  function Round(x: real): (r: int)
    ensures -0.5 <= x - r as real <= 0.5
  {
    var f := x.Floor;
    var d := x - f as real;
    if d < 0.5 || (d == 0.5 && f % 2 == 0) then f else f + 1
  }

  /** `rnd`: the nearest positive multiple of `s`. */
  function Rnd(x: real, s: int): int
    requires s > 0
  {
    var r := Round(x / s as real) * s;
    if r < s then s else r
  }

  predicate Multiple(n: int, s: int)
    requires s > 0
  {
    n % s == 0
  }

  lemma RndMultiple(x: real, s: int)
    requires s == 25 || s == 50 || s == 100
    ensures Multiple(Rnd(x, s), s) && Rnd(x, s) >= s
  {
  }

  /** The next count up: ten percent, and always at least one step. */
  function Up(n: int, s: int): (r: int)
    requires s > 0
    ensures r >= n + s
  {
    var r := Rnd(n as real * 1.1, s);
    if r >= n + s then r else n + s
  }

  /** The next count down: fifteen percent, and always at least one step. */
  function Down(n: int, s: int): (r: int)
    requires s > 0
    ensures r <= n - s
  {
    var r := Rnd(n as real * 0.85, s);
    if r <= n - s then r else n - s
  }

  lemma DownStays(n: int, s: int)
    requires (s == 25 || s == 50 || s == 100) && n > s && Multiple(n, s)
    ensures Down(n, s) >= s && Multiple(Down(n, s), s)
  {
    RndMultiple(n as real * 0.85, s);
    OneStepLess(n, s);
  }

  lemma OneStepLess(n: int, s: int)
    requires (s == 25 || s == 50 || s == 100) && n > s && Multiple(n, s)
    ensures n - s >= s && Multiple(n - s, s)
  {
    if s == 25 {
      assert n % 25 == 0;
    } else if s == 50 {
      assert n % 50 == 0;
    } else {
      assert n % 100 == 0;
    }
  }

  // ------------------------------------------------------------------ bisection

  function Half(lo: int): (h: int)
    ensures h == 12 || h == 25 || h == 50
    ensures 2 * h <= StepFor(lo)
  {
    StepFor(lo) / 2
  }

  function Mid(lo: int, hi: int): int
  {
    Rnd((lo + hi) as real / 2.0, Half(lo))
  }

  /** The rounded midpoint of a bracket wider than one step lies strictly inside it. */
  lemma MidInside(lo: int, hi: int)
    requires lo >= 25 && hi - lo > StepFor(lo)
    ensures lo < Mid(lo, hi) < hi
  {
    var x := (lo + hi) as real / 2.0;
    assert x - lo as real == (hi - lo) as real / 2.0;
  }

  ghost predicate Passed(runs: map<int, seq<Outcome>>, n: int)
  {
    n in runs && runs[n] != [] && runs[n][0] == Pass
  }

  /** At least two passes and nothing else: the confirmation criterion. */
  predicate Qualifies(runs: map<int, seq<Outcome>>, n: int)
  {
    n in runs && |runs[n]| >= 2 && forall i :: 0 <= i < |runs[n]| ==> runs[n][i] == Pass
  }

  /**
   What a bracket says about every count probed so far: one outcome each, no pass
   above `lo`, no non-pass below `hi`.
   */
  ghost predicate BracketOk(runs: map<int, seq<Outcome>>, lo: Option<int>, hi: Option<int>)
  {
    && (forall n :: n in runs ==> |runs[n]| == 1 && n >= 25)
    && (forall n :: n in runs ==> if runs[n][0] == Pass then lo.Some? && n <= lo.value else hi.Some? && n >= hi.value)
    && (lo.Some? ==> Passed(runs, lo.value))
    && (hi.Some? ==> hi.value in runs && !Passed(runs, hi.value))
    && (lo.Some? && hi.Some? ==> lo.value < hi.value)
  }

  /** A search that found no pass went down to one step, one that found no non-pass up past three priors. */
  predicate OneEnd(prior: nat, lo: Option<int>, hi: Option<int>)
  {
    && (lo.None? ==> hi == Some(StepFor(prior)))
    && (hi.None? ==> lo.Some? && lo.value > 3 * prior)
  }

  /** The world of a gateway that passes exactly up to `c` sessions. */
  ghost predicate Threshold(oracle: (nat, int) -> Outcome, c: int)
  {
    forall k, n :: oracle(k, n) == Pass <==> n <= c
  }

  ghost predicate FromOracle(oracle: (nat, int) -> Outcome, runs: map<int, seq<Outcome>>)
  {
    forall c, n :: Threshold(oracle, c) && n in runs ==>
      forall i :: 0 <= i < |runs[n]| ==> (runs[n][i] == Pass <==> n <= c)
  }

  class Search {
    var runs: map<int, seq<Outcome>>
    var calls: nat
    const oracle: (nat, int) -> Outcome

    constructor (oracle: (nat, int) -> Outcome)
      ensures this.oracle == oracle && runs == map[] && calls == 0
    {
      this.oracle := oracle;
      runs, calls := map[], 0;
    }

    /** One measurement. */
    method Point(n: int) returns (r: Outcome)
      modifies this`calls
      ensures r == oracle(old(calls), n) && calls == old(calls) + 1
    {
      r := oracle(calls, n);
      calls := calls + 1;
    }

    method Probe(n: int) returns (r: Outcome)
      requires n in runs ==> runs[n] != []
      requires FromOracle(oracle, runs)
      modifies this
      ensures runs == if n in old(runs) then old(runs) else old(runs)[n := [r]]
      ensures n in runs && runs[n] != [] && r == runs[n][0]
      ensures FromOracle(oracle, runs)
    {
      if n !in runs {
        var o := Point(n);
        runs := runs[n := [o]];
      }
      r := runs[n][0];
    }

    /** The walk up from a passing count. */
    method WalkUp(prior: nat, s: int, start: int) returns (lo: Option<int>, hi: Option<int>)
      requires s == StepFor(prior) && start >= s
      requires BracketOk(runs, Some(start), None) && FromOracle(oracle, runs)
      modifies this
      ensures BracketOk(runs, lo, hi) && FromOracle(oracle, runs)
      ensures lo.Some? && (hi.None? ==> lo.value > 3 * prior)
    {
      var n := start;
      lo, hi := Some(n), None;
      while hi.None? && n <= prior * 3
        invariant n >= s && FromOracle(oracle, runs) && BracketOk(runs, lo, hi) && lo.Some?
        invariant hi.None? ==> lo == Some(n)
        decreases hi.None?, 3 * prior - n + s
      {
        var next := Up(n, s);
        var r := Probe(next);
        n := next;
        if r == Pass {
          lo := Some(n);
        } else {
          hi := Some(n);
        }
      }
    }

    /** The walk down from a count that did not pass. */
    method WalkDown(prior: nat, s: int, start: int) returns (lo: Option<int>, hi: Option<int>)
      requires s == StepFor(prior) && start >= s && Multiple(start, s)
      requires BracketOk(runs, None, Some(start)) && FromOracle(oracle, runs)
      modifies this
      ensures BracketOk(runs, lo, hi) && FromOracle(oracle, runs)
      ensures hi.Some? && (lo.None? ==> hi.value == s)
    {
      var n := start;
      lo, hi := None, Some(n);
      while lo.None? && n > s
        invariant n >= s && Multiple(n, s) && FromOracle(oracle, runs) && BracketOk(runs, lo, hi) && hi.Some?
        invariant lo.None? ==> hi == Some(n)
        decreases lo.None?, n
      {
        DownStays(n, s);
        var next := Down(n, s);
        var r := Probe(next);
        n := next;
        if r == Pass {
          lo := Some(n);
        } else {
          hi := Some(n);
        }
      }
    }

    /** From the prior, up or down until a pass and a non-pass are known. */
    method FindEnds(prior: nat) returns (lo: Option<int>, hi: Option<int>)
      requires runs == map[]
      modifies this
      ensures BracketOk(runs, lo, hi) && FromOracle(oracle, runs) && OneEnd(prior, lo, hi)
    {
      var s := StepFor(prior);
      var n := Rnd(prior as real, s);
      RndMultiple(prior as real, s);
      var r := Probe(n);
      if r == Pass {
        lo, hi := WalkUp(prior, s, n);
      } else {
        lo, hi := WalkDown(prior, s, n);
      }
    }

    /** Probes the midpoint and moves the end it speaks for. */
    method Halve(lo: int, hi: int) returns (lo1: int, hi1: int)
      requires BracketOk(runs, Some(lo), Some(hi)) && FromOracle(oracle, runs) && hi - lo > StepFor(lo)
      modifies this
      ensures BracketOk(runs, Some(lo1), Some(hi1)) && FromOracle(oracle, runs)
      ensures lo <= lo1 < hi1 <= hi && hi1 - lo1 < hi - lo
    {
      MidInside(lo, hi);
      var mid := Mid(lo, hi);
      var m := Probe(mid);
      lo1, hi1 := if m == Pass then mid else lo, if m == Pass then hi else mid;
    }

    /**
     The bracket search. It terminates whatever the measurements return, its
     "midpoint is an end" exit is never taken, and when both ends exist they are
     at most one step apart.
     */
    method Bracket(prior: nat) returns (lo: Option<int>, hi: Option<int>)
      requires runs == map[]
      modifies this
      ensures BracketOk(runs, lo, hi) && FromOracle(oracle, runs)
      ensures OneEnd(prior, lo, hi)
      ensures lo.Some? && hi.Some? ==> hi.value - lo.value <= StepFor(lo.value)
    {
      var quarter := Rnd(prior as real * 0.25, StepFor(prior));
      var sanity := Point(if quarter >= 25 then quarter else 25);
      lo, hi := FindEnds(prior);
      while lo.Some? && hi.Some? && hi.value - lo.value > StepFor(lo.value)
        invariant BracketOk(runs, lo, hi) && FromOracle(oracle, runs)
        invariant OneEnd(prior, lo, hi)
        decreases if lo.Some? && hi.Some? then hi.value - lo.value else 0
      {
        MidInside(lo.value, hi.value);
        if Mid(lo.value, hi.value) == lo.value || Mid(lo.value, hi.value) == hi.value {
          assert false;
          break;
        }
        var lo1, hi1 := Halve(lo.value, hi.value);
        lo, hi := Some(lo1), Some(hi1);
      }
    }

    /** The inner confirm loop: measure `cand` until it has two passes, or anything but a pass. */
    method Settle(cand: int)
      requires cand in runs && runs[cand] != [] && FromOracle(oracle, runs)
      modifies this
      ensures cand in runs && runs == old(runs)[cand := runs[cand]] && old(runs[cand]) <= runs[cand]
      ensures Qualifies(runs, cand) || !AllPass(runs[cand])
      ensures FromOracle(oracle, runs)
    {
      ghost var before := runs;
      while CountPass(runs[cand]) < 2 && Fail !in runs[cand] && Invalid !in runs[cand]
        invariant cand in runs && runs == before[cand := runs[cand]] && before[cand] <= runs[cand]
        invariant FromOracle(oracle, runs)
        decreases if AllPass(runs[cand]) then 3 - |runs[cand]| else 0
      {
        PassesOnly(runs[cand]);
        var r := Point(cand);
        runs := runs[cand := runs[cand] + [r]];
      }
      if Fail !in runs[cand] && Invalid !in runs[cand] {
        PassesOnly(runs[cand]);
      }
    }

    /**
     The confirm walk. It terminates whatever the measurements return; its result
     is the highest probed count with at least two passes and no other outcome, and
     if it returns none then no probed count qualifies. A confirmed count other
     than `lo` sits one step below a probed count that did not qualify; a gateway
     with a sharp threshold has `lo` itself confirmed.
     */
    method Confirm(lo: Option<int>, ghost hi: Option<int>, ghost c: int) returns (confirmed: Option<int>)
      requires BracketOk(runs, lo, hi) && FromOracle(oracle, runs)
      modifies this
      ensures confirmed.Some? ==>
                Qualifies(runs, confirmed.value) && forall n :: Qualifies(runs, n) ==> n <= confirmed.value
      ensures confirmed.None? ==> forall n :: !Qualifies(runs, n)
      ensures confirmed.Some? && confirmed != lo ==> OneStepBelow(runs, confirmed.value)
      ensures lo.Some? && Threshold(oracle, c) ==> confirmed == lo
      ensures lo.None? ==> confirmed.None?
    {
      confirmed := None;
      if lo.None? {
        return;
      }
      var cand := lo.value;
      ghost var above: Option<int> := None;
      while cand > 0
        invariant FromOracle(oracle, runs) && forall n :: n in runs ==> n > 0
        invariant forall n :: n in runs && n > cand ==> !Qualifies(runs, n)
        invariant forall n :: n in runs && n < cand ==> |runs[n]| == 1
        invariant cand > 0 ==> cand in runs && |runs[cand]| == 1
        invariant above.None? ==> cand == lo.value && Passed(runs, cand)
        invariant above.Some? ==>
                    && above.value in runs && !Qualifies(runs, above.value)
                    && above.value - StepFor(above.value - 1) == cand && !Threshold(oracle, c)
        decreases cand
      {
        ghost var before := runs;
        Settle(cand);
        if AllPass(runs[cand]) {
          confirmed := Some(cand);
          assert above.Some? ==> above.value in runs && !Qualifies(runs, above.value);
          return;
        }
        if above.None? { NotSharp(oracle, runs, cand, c); }
        above := Some(cand);
        cand := cand - StepFor(cand - 1);
        if cand <= 0 {
          break;
        }
        if cand !in runs {
          var r := Point(cand);
          runs := runs[cand := [r]];
        }
      }
    }

    /**
     The whole search. For a gateway that passes exactly up to `c`, the confirmed
     ceiling is the highest count that passed. It is at most one step below `c` if a
     count did not pass; otherwise it, and so `c`, is above three times the prior; and
     if no count passed, `c` is below one step.
     */
    method Ceiling(prior: nat, ghost c: int) returns (confirmed: Option<int>, lo: Option<int>, hi: Option<int>)
      requires runs == map[]
      modifies this
      ensures Threshold(oracle, c) && lo.Some? && hi.Some? ==>
                confirmed == lo && lo.value <= c < lo.value + StepFor(lo.value)
      ensures Threshold(oracle, c) && lo.Some? && hi.None? ==>
                confirmed == lo && 3 * prior < lo.value <= c
      ensures Threshold(oracle, c) && lo.None? ==> confirmed.None? && c < StepFor(prior)
      ensures confirmed.Some? ==> Qualifies(runs, confirmed.value)
    {
      lo, hi := Bracket(prior);
      confirmed := Confirm(lo, hi, c);
    }
  }

  ghost predicate OneStepBelow(runs: map<int, seq<Outcome>>, n: int)
  {
    exists c :: c in runs && !Qualifies(runs, c) && c - StepFor(c - 1) == n
  }

  predicate AllPass(os: seq<Outcome>)
  {
    forall i :: 0 <= i < |os| ==> os[i] == Pass
  }

  /** `list.count(True)`. */
  function CountPass(os: seq<Outcome>): nat
    decreases |os|
  {
    if os == [] then 0 else CountPass(os[..|os| - 1]) + if os[|os| - 1] == Pass then 1 else 0
  }

  lemma {:induction false} PassesOnly(os: seq<Outcome>)
    requires Fail !in os && Invalid !in os
    ensures CountPass(os) == |os| && AllPass(os)
    decreases |os|
  {
    if os != [] {
      var init, last := os[..|os| - 1], os[|os| - 1];
      assert os == init + [last];
      PassesOnly(init);
      assert last in os;
    }
  }

  /** A count with a pass and something else has no place in a threshold world. */
  lemma NotSharp(oracle: (nat, int) -> Outcome, runs: map<int, seq<Outcome>>, n: int, c: int)
    requires FromOracle(oracle, runs) && Passed(runs, n) && !AllPass(runs[n])
    ensures !Threshold(oracle, c)
  {
  }

  // --------------------------------------------------------------------- summary

  datatype BoundedBy = Harness | Gateway | Nothing

  datatype Summary = Summary(firstSolidFail: Option<int>, capped: seq<int>, borderline: seq<int>, boundedBy: BoundedBy)

  predicate AnyOf(os: seq<Outcome>, o: Outcome) { exists i :: 0 <= i < |os| && os[i] == o }

  /** Valid outcomes exist and all are fails. */
  predicate SolidFail(os: seq<Outcome>) { AnyOf(os, Fail) && !AnyOf(os, Pass) }

  /** Every outcome is INVALID. */
  predicate Capped(os: seq<Outcome>) { !AnyOf(os, Fail) && !AnyOf(os, Pass) }

  predicate Counts(runs: map<int, seq<Outcome>>, confirmed: Option<int>, n: int)
  {
    n in runs && (confirmed.None? || n > confirmed.value)
  }

  /** A solid fail with no count below it that was INVALID throughout. */
  ghost predicate SolidFirst(runs: map<int, seq<Outcome>>, confirmed: Option<int>, f: int)
  {
    && Counts(runs, confirmed, f) && SolidFail(runs[f])
    && forall n :: Counts(runs, confirmed, n) && n < f ==> !Capped(runs[n])
  }

  /** A count that was INVALID throughout with no solid fail below it. */
  ghost predicate CappedFirst(runs: map<int, seq<Outcome>>, confirmed: Option<int>, n: int)
  {
    && Counts(runs, confirmed, n) && Capped(runs[n])
    && forall f :: Counts(runs, confirmed, f) && f < n ==> !SolidFail(runs[f])
  }

  /** Above the ceiling, with passes and fails both. */
  predicate Borderline(runs: map<int, seq<Outcome>>, confirmed: Option<int>, n: int)
  {
    Counts(runs, confirmed, n) && AnyOf(runs[n], Pass) && AnyOf(runs[n], Fail)
  }

  /** `first` is the least solid fail among `keys`. */
  ghost predicate IsFirstFail(runs: map<int, seq<Outcome>>, confirmed: Option<int>, first: Option<int>, keys: seq<int>)
  {
    match first
    case None => forall n :: n in keys && Counts(runs, confirmed, n) ==> !SolidFail(runs[n])
    case Some(f) =>
      && f in keys && Counts(runs, confirmed, f) && SolidFail(runs[f])
      && forall n :: n in keys && Counts(runs, confirmed, n) && SolidFail(runs[n]) ==> f <= n
  }

  /** `capped` are the counts among `keys` that were INVALID throughout, the least first. */
  ghost predicate IsCapped(runs: map<int, seq<Outcome>>, confirmed: Option<int>, capped: seq<int>, keys: seq<int>)
  {
    && (forall n :: n in capped <==> n in keys && Counts(runs, confirmed, n) && Capped(runs[n]))
    && (forall i :: 0 <= i < |capped| ==> capped[0] <= capped[i])
  }

  ghost predicate SortedKeys(runs: map<int, seq<Outcome>>, keys: seq<int>)
  {
    && (forall i, j :: 0 <= i < j < |keys| ==> keys[i] < keys[j])
    && (forall n :: n in runs <==> n in keys)
    && (forall n :: n in runs ==> n > 0)
  }

  lemma CappedNext(runs: map<int, seq<Outcome>>, confirmed: Option<int>, capped: seq<int>, ks: seq<int>, k: int)
    requires IsCapped(runs, confirmed, capped, ks) && k in runs && forall n :: n in ks ==> n < k
    ensures
      var capped1 := if Counts(runs, confirmed, k) && Capped(runs[k]) then capped + [k] else capped;
      IsCapped(runs, confirmed, capped1, ks + [k])
  {
    assert capped != [] ==> capped[0] in capped;
  }

  /** The counts above the ceiling, by what was measured there. */
  method Classify(runs: map<int, seq<Outcome>>, keys: seq<int>, confirmed: Option<int>)
    returns (firstFail: Option<int>, capped: seq<int>, borderline: seq<int>)
    requires SortedKeys(runs, keys)
    ensures IsFirstFail(runs, confirmed, firstFail, keys)
    ensures IsCapped(runs, confirmed, capped, keys)
    ensures forall n :: n in borderline <==> n in keys && Borderline(runs, confirmed, n)
  {
    firstFail := None;
    capped, borderline := [], [];
    for i := 0 to |keys|
      invariant IsFirstFail(runs, confirmed, firstFail, keys[..i])
      invariant IsCapped(runs, confirmed, capped, keys[..i])
      invariant forall n :: n in borderline <==> n in keys[..i] && Borderline(runs, confirmed, n)
    {
      var k := keys[i];
      assert keys[..i + 1] == keys[..i] + [k];
      assert k in keys;
      assert forall n :: n in keys[..i] ==> n < k;
      CappedNext(runs, confirmed, capped, keys[..i], k);
      if confirmed.None? || k > confirmed.value {
        if firstFail.None? && SolidFail(runs[k]) {
          firstFail := Some(k);
        }
        if Capped(runs[k]) {
          capped := capped + [k];
        }
        if AnyOf(runs[k], Pass) && AnyOf(runs[k], Fail) {
          borderline := borderline + [k];
        }
      }
    }
    assert keys[..|keys|] == keys;
  }

  /** Which comes first decides what bounds the ceiling. */
  lemma BoundedByFirst(runs: map<int, seq<Outcome>>, keys: seq<int>, confirmed: Option<int>,
                       firstFail: Option<int>, capped: seq<int>)
    requires SortedKeys(runs, keys)
    requires IsFirstFail(runs, confirmed, firstFail, keys) && IsCapped(runs, confirmed, capped, keys)
    ensures
      var harnessFirst := capped != [] && (firstFail.None? || capped[0] < firstFail.value);
      && (harnessFirst <==> exists n :: CappedFirst(runs, confirmed, n))
      && (!harnessFirst && firstFail.Some? <==> exists f :: SolidFirst(runs, confirmed, f))
  {
    if capped != [] && (firstFail.None? || capped[0] < firstFail.value) {
      assert capped[0] in capped;
      assert CappedFirst(runs, confirmed, capped[0]);
    } else if firstFail.Some? {
      assert forall n :: Counts(runs, confirmed, n) && Capped(runs[n]) ==> n in capped && firstFail.value < n;
      assert SolidFirst(runs, confirmed, firstFail.value);
    }
  }

  /**
   `summarize_runs`. The ceiling is bounded by the gateway exactly when some count
   above it failed solidly and no count in between was INVALID throughout; it is
   bounded by the harness exactly when a count that was INVALID throughout comes
   first.
   */
  method Summarize(runs: map<int, seq<Outcome>>, keys: seq<int>, confirmed: Option<int>) returns (r: Summary)
    requires SortedKeys(runs, keys)
    ensures r.firstSolidFail.Some? ==>
              && Counts(runs, confirmed, r.firstSolidFail.value) && SolidFail(runs[r.firstSolidFail.value])
              && forall n :: Counts(runs, confirmed, n) && SolidFail(runs[n]) ==> r.firstSolidFail.value <= n
    ensures r.firstSolidFail.None? ==> forall n :: Counts(runs, confirmed, n) ==> !SolidFail(runs[n])
    ensures forall n :: n in r.capped <==> Counts(runs, confirmed, n) && Capped(runs[n])
    ensures forall n :: n in r.borderline <==> Borderline(runs, confirmed, n)
    ensures r.boundedBy == Gateway <==> exists f :: SolidFirst(runs, confirmed, f)
    ensures r.boundedBy == Harness <==> exists n :: CappedFirst(runs, confirmed, n)
  {
    var firstFail, capped, borderline := Classify(runs, keys, confirmed);
    BoundedByFirst(runs, keys, confirmed, firstFail, capped);
    var harnessFirst := capped != [] && (firstFail.None? || capped[0] < firstFail.value);
    r := Summary(firstFail, capped, borderline,
                 if harnessFirst then Harness else if firstFail.Some? then Gateway else Nothing);
  }
}
