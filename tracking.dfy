/** Best-model tracking and the early-stopping test of mrclass_resnet/train_model.py:
    the three variables `best_acc`, `epochs_no_improve` and `best_model_wts`, the rule
    that moves them after every validation phase, and what that rule amounts to over a
    whole sequence of validation accuracies. */
module Tracking {

  /** `epochs_no_improve` must reach this many before training stops early. */
  const Patience: nat := 8
  /** Early stopping needs an epoch index strictly above this one. */
  const WarmupEpoch: nat := 5

  /** The loop variables `best_acc`, `epochs_no_improve` and `best_model_wts`. */
  datatype Tracker<W> = Tracker(bestAcc: real, noImprove: nat, bestWts: W)

  /** The values before the first epoch: accuracy 0, no stale epochs, the initial weights. */
  function Start<W>(w0: W): Tracker<W>
  {
    Tracker(0.0, 0, w0)
  }

  /** One validation phase with accuracy `acc` and the model's weights `w`: a strictly
      better accuracy is recorded with a snapshot, a strictly worse one counts as stale,
      a tie changes nothing. */
  function Observe<W>(t: Tracker<W>, acc: real, w: W): (r: Tracker<W>)
    ensures r.bestAcc >= t.bestAcc && r.bestAcc >= acc
    ensures r.bestAcc == t.bestAcc || r.bestAcc == acc
    ensures r.bestAcc > t.bestAcc <==> acc > t.bestAcc
    ensures acc > t.bestAcc ==> r.noImprove == 0 && r.bestWts == w
    ensures acc <= t.bestAcc ==> r.bestWts == t.bestWts
    ensures r.noImprove == t.noImprove + 1 <==> acc < t.bestAcc
    ensures r == t <==> acc == t.bestAcc
  {
    if acc > t.bestAcc then Tracker(acc, 0, w)
    else if acc < t.bestAcc then t.(noImprove := t.noImprove + 1)
    else t
  }

  /** The early-stopping test, made after every phase of epoch `epoch` (0-based). */
  predicate ShouldStop<W>(t: Tracker<W>, epoch: nat)
  {
    t.noImprove >= Patience && epoch > WarmupEpoch
  }

  /** The tracker after the validation accuracies `accs`, the i-th phase having seen the
      weights `snaps[i]`. */
  function Track<W>(accs: seq<real>, snaps: seq<W>, w0: W): Tracker<W>
    requires |accs| == |snaps|
  {
    if accs == [] then Start(w0)
    else
      var n := |accs| - 1;
      Observe(Track(accs[..n], snaps[..n], w0), accs[n], snaps[n])
  }

  /** The largest of 0 and the accuracies. */
  function Best(accs: seq<real>): (m: real)
    ensures 0.0 <= m
    ensures forall i :: 0 <= i < |accs| ==> accs[i] <= m
    ensures m == 0.0 || m in accs
  {
    if accs == [] then 0.0
    else
      var n := |accs| - 1;
      var m0 := Best(accs[..n]);
      assert accs == accs[..n] + [accs[n]];
      if accs[n] > m0 then accs[n] else m0
  }

  /** The index of the first occurrence of `x` in `s`, or |s| when there is none. */
  function FirstIndex(s: seq<real>, x: real): (i: nat)
    ensures i <= |s|
    ensures i < |s| ==> s[i] == x
    ensures forall j :: 0 <= j < i ==> s[j] != x
  {
    if s == [] then 0
    else if s[0] == x then 0
    else 1 + FirstIndex(s[1..], x)
  }

  /** The first epoch after the one that first reached the best accuracy (0 when no
      accuracy ever exceeded 0). */
  function Since(accs: seq<real>): (k: nat)
    ensures k <= |accs|
  {
    var m := Best(accs);
    if m > 0.0 then FirstIndex(accs, m) + 1 else 0
  }

  /** How many of the accuracies fall strictly below `m`. */
  function CountBelow(s: seq<real>, m: real): (c: nat)
    ensures c <= |s|
  {
    if s == [] then 0
    else CountBelow(s[..|s| - 1], m) + (if s[|s| - 1] < m then 1 else 0)
  }

  lemma BestOfSnoc(prefix: seq<real>, a: real)
    ensures Best(prefix + [a]) == (if a > Best(prefix) then a else Best(prefix))
  {
    assert (prefix + [a])[..|prefix|] == prefix;
  }

  lemma {:induction false} FirstIndexOfSnoc(prefix: seq<real>, a: real, m: real)
    requires m in prefix
    ensures FirstIndex(prefix + [a], m) == FirstIndex(prefix, m)
  {
    var s := prefix + [a];
    var i0 := FirstIndex(prefix, m);
    assert s[i0] == m;
  }

  /** `best_acc` is the largest of 0 and every validation accuracy seen. */
  lemma {:induction false} TrackBest<W>(accs: seq<real>, snaps: seq<W>, w0: W)
    requires |accs| == |snaps|
    ensures Track(accs, snaps, w0).bestAcc == Best(accs)
  {
    if accs != [] {
      var n := |accs| - 1;
      TrackBest(accs[..n], snaps[..n], w0);
      assert accs == accs[..n] + [accs[n]];
      BestOfSnoc(accs[..n], accs[n]);
    }
  }

  /** `best_acc` never decreases from one validation phase to the next. */
  lemma BestMonotone(accs: seq<real>, i: nat, j: nat)
    requires i <= j <= |accs|
    ensures Best(accs[..i]) <= Best(accs[..j])
  {
    var m := Best(accs[..i]);
    if m != 0.0 {
      var k :| 0 <= k < i && accs[..i][k] == m;
      assert accs[..j][k] == m;
    }
  }

  /** `best_model_wts` holds the weights seen by the first validation phase that reached
      the best accuracy, or the initial weights when no accuracy ever exceeded 0. */
  lemma {:induction false} TrackSnapshot<W>(accs: seq<real>, snaps: seq<W>, w0: W)
    requires |accs| == |snaps|
    ensures Best(accs) > 0.0 ==> FirstIndex(accs, Best(accs)) < |accs|
    ensures Best(accs) > 0.0 ==> Track(accs, snaps, w0).bestWts == snaps[FirstIndex(accs, Best(accs))]
    ensures Best(accs) == 0.0 ==> Track(accs, snaps, w0).bestWts == w0
  {
    if accs != [] {
      var n := |accs| - 1;
      var prefix, a := accs[..n], accs[n];
      assert accs == prefix + [a];
      TrackSnapshot(prefix, snaps[..n], w0);
      TrackBest(prefix, snaps[..n], w0);
      BestOfSnoc(prefix, a);
      var m0 := Best(prefix);
      if a <= m0 && m0 > 0.0 {
        FirstIndexOfSnoc(prefix, a, m0);
      }
    }
  }

  /** `epochs_no_improve` counts the validation phases, after the first one that reached
      the best accuracy, whose accuracy fell strictly short of it. */
  lemma {:induction false} TrackCounter<W>(accs: seq<real>, snaps: seq<W>, w0: W)
    requires |accs| == |snaps|
    ensures Track(accs, snaps, w0).noImprove == CountBelow(accs[Since(accs)..], Best(accs))
  {
    if accs != [] {
      var n := |accs| - 1;
      var prefix, a := accs[..n], accs[n];
      assert accs == prefix + [a];
      TrackCounter(prefix, snaps[..n], w0);
      TrackBest(prefix, snaps[..n], w0);
      BestOfSnoc(prefix, a);
      var m0 := Best(prefix);
      if a > m0 {
        var i := FirstIndex(accs, a);
        if i < n {
          assert accs[i] == prefix[i] <= m0;
        }
        assert accs[Since(accs)..] == [];
      } else {
        if m0 > 0.0 {
          FirstIndexOfSnoc(prefix, a, m0);
        }
        assert Since(accs) == Since(prefix);
        var k := Since(prefix);
        assert accs[k..] == prefix[k..] + [a];
        assert (prefix[k..] + [a])[..|prefix[k..]|] == prefix[k..];
      }
    }
  }

  /** Epoch 0 cannot count as stale, since no accuracy is below the initial 0; so after
      the validation phase of epoch e the counter is at most e. */
  lemma {:induction false} CounterBound<W>(accs: seq<real>, snaps: seq<W>, w0: W)
    requires |accs| == |snaps|
    requires forall i :: 0 <= i < |accs| ==> accs[i] >= 0.0
    ensures accs != [] ==> Track(accs, snaps, w0).noImprove < |accs|
  {
    if |accs| > 1 {
      var n := |accs| - 1;
      CounterBound(accs[..n], snaps[..n], w0);
    }
  }

  /** Early stopping cannot fire in the validation phase of an epoch before index 8. */
  lemma NoStopBeforePatience<W>(accs: seq<real>, snaps: seq<W>, w0: W)
    requires |accs| == |snaps| && accs != []
    requires forall i :: 0 <= i < |accs| ==> accs[i] >= 0.0
    requires ShouldStop(Track(accs, snaps, w0), |accs| - 1)
    ensures |accs| - 1 >= Patience
  {
    CounterBound(accs, snaps, w0);
  }

  lemma TrackSnoc<W>(accs: seq<real>, snaps: seq<W>, w0: W, k: nat)
    requires |accs| == |snaps| && k < |accs|
    ensures Track(accs[..k + 1], snaps[..k + 1], w0) == Observe(Track(accs[..k], snaps[..k], w0), accs[k], snaps[k])
  {
    assert accs[..k + 1][..k] == accs[..k] && snaps[..k + 1][..k] == snaps[..k];
  }

  /** The accuracy trace 0.5, 0.6, 0.55, 0.55, 0.4, 0.3, 0.2, 0.1, 0.05, 0.01: the best
      stays at 0.6 from epoch 1, every later epoch is strictly worse than 0.6 (the two
      0.55s are compared with 0.6, not with each other), so the counter is 7 after epoch 8
      and 8 after epoch 9, where training stops. */
  lemma StalledTrace()
    ensures var accs := [0.5, 0.6, 0.55, 0.55, 0.4, 0.3, 0.2, 0.1, 0.05, 0.01];
            var snaps := [0, 1, 2, 3, 4, 5, 6, 7, 8, 9];
            Track(accs[..9], snaps[..9], -1) == Tracker(0.6, 7, 1) &&
            !ShouldStop(Track(accs[..9], snaps[..9], -1), 8) &&
            Track(accs, snaps, -1) == Tracker(0.6, 8, 1) &&
            ShouldStop(Track(accs, snaps, -1), 9)
  {
    var accs := [0.5, 0.6, 0.55, 0.55, 0.4, 0.3, 0.2, 0.1, 0.05, 0.01];
    var snaps := [0, 1, 2, 3, 4, 5, 6, 7, 8, 9];
    assert Track(accs[..0], snaps[..0], -1) == Tracker(0.0, 0, -1);
    TrackSnoc(accs, snaps, -1, 0);
    assert Track(accs[..1], snaps[..1], -1) == Tracker(0.5, 0, 0);
    TrackSnoc(accs, snaps, -1, 1);
    assert Track(accs[..2], snaps[..2], -1) == Tracker(0.6, 0, 1);
    TrackSnoc(accs, snaps, -1, 2);
    assert Track(accs[..3], snaps[..3], -1) == Tracker(0.6, 1, 1);
    TrackSnoc(accs, snaps, -1, 3);
    assert Track(accs[..4], snaps[..4], -1) == Tracker(0.6, 2, 1);
    TrackSnoc(accs, snaps, -1, 4);
    assert Track(accs[..5], snaps[..5], -1) == Tracker(0.6, 3, 1);
    TrackSnoc(accs, snaps, -1, 5);
    assert Track(accs[..6], snaps[..6], -1) == Tracker(0.6, 4, 1);
    TrackSnoc(accs, snaps, -1, 6);
    assert Track(accs[..7], snaps[..7], -1) == Tracker(0.6, 5, 1);
    TrackSnoc(accs, snaps, -1, 7);
    assert Track(accs[..8], snaps[..8], -1) == Tracker(0.6, 6, 1);
    TrackSnoc(accs, snaps, -1, 8);
    assert Track(accs[..9], snaps[..9], -1) == Tracker(0.6, 7, 1);
    TrackSnoc(accs, snaps, -1, 9);
    assert accs[..10] == accs && snaps[..10] == snaps;
  }
}
