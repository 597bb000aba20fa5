/**
  `undersample_balance`: every class larger than
  `target_max = int(min_count / target_ratio)` is cut down to a random
  sample of `target_max` of its images; the others are kept as they are.
*/
module Balancing {
  import opened Arith
  import opened Dicts
  import opened Random
  import opened Splitting

  /** `min(class_counts.values())`: the size of the smallest class. */
  function MinCount<V>(data: Dict<seq<V>>): (m: nat)
    requires |data| > 0
    ensures exists i :: 0 <= i < |data| && |data[i].1| == m
    ensures forall i :: 0 <= i < |data| ==> m <= |data[i].1|
  {
    if |data| == 1 then |data[0].1|
    else
      var rest := MinCount(data[1..]);
      assert forall i :: 1 <= i < |data| ==> data[i] == data[1..][i - 1];
      if |data[0].1| <= rest then |data[0].1| else rest
  }

  /** `int(min_count / target_ratio)` for a positive ratio. */
  function TargetMax(minCount: nat, ratio: Ratio): nat
    requires ratio.num > 0
  {
    Quotient(minCount * ratio.den, ratio.num)
  }

  /** The cap is the largest `t` with `t <= min_count / target_ratio`. */
  lemma TargetMaxBounds(minCount: nat, ratio: Ratio)
    requires ratio.num > 0
    ensures TargetMax(minCount, ratio) * ratio.num <= minCount * ratio.den < (TargetMax(minCount, ratio) + 1) * ratio.num
  {
    QuotientBounds(minCount * ratio.den, ratio.num);
  }

  /** A ratio of at most one never caps below the smallest class. */
  lemma TargetMaxAtLeastMin(minCount: nat, ratio: Ratio)
    requires 0 < ratio.num <= ratio.den
    ensures minCount <= TargetMax(minCount, ratio)
  {
    var t := TargetMax(minCount, ratio);
    TargetMaxBounds(minCount, ratio);
    MulMonotone(ratio.num, ratio.den, minCount);
    MulCancelLess(minCount, t + 1, ratio.num);
  }

  /**
    The balanced classes in the order of `data`, when the next draw is
    number `d`: each class above `cap` is replaced by a sample of `cap`.
  */
  function Balanced<V>(data: Dict<seq<V>>, cap: nat, stream: nat -> nat, d: nat): (r: Dict<seq<V>>)
    ensures |r| == |data|
    decreases |data|
  {
    if data == [] then []
    else if |data[0].1| > cap then
      [(data[0].0, Picked(data[0].1, cap, stream, d))] + Balanced(data[1..], cap, stream, d + cap)
    else
      [data[0]] + Balanced(data[1..], cap, stream, d)
  }

  /** The number of draws balancing uses: `cap` for each class above the cap. */
  function BalanceDraws<V>(data: Dict<seq<V>>, cap: nat): nat
    decreases |data|
  {
    if data == [] then 0
    else (if |data[0].1| > cap then cap else 0) + BalanceDraws(data[1..], cap)
  }

  /** What balancing does to the class at position `i`. */
  ghost predicate BalancedEntry<V>(before: (string, seq<V>), after: (string, seq<V>), cap: nat) {
    && after.0 == before.0
    && |after.1| <= cap
    && (|before.1| <= cap ==> after.1 == before.1)
    && (|before.1| > cap ==> |after.1| == cap && multiset(after.1) <= multiset(before.1))
  }

  /**
    Balancing keeps every class, in the same order: a class at most the
    cap is passed through, a larger one becomes exactly `cap` of its own
    images, drawn without replacement.
  */
  lemma {:induction false} BalancedShape<V>(data: Dict<seq<V>>, cap: nat, stream: nat -> nat, d: nat)
    ensures Keys(Balanced(data, cap, stream, d)) == Keys(data)
    ensures forall i :: 0 <= i < |data| ==> BalancedEntry(data[i], Balanced(data, cap, stream, d)[i], cap)
    decreases |data|
  {
    if data != [] {
      var d' := if |data[0].1| > cap then d + cap else d;
      var rest := Balanced(data[1..], cap, stream, d');
      BalancedShape(data[1..], cap, stream, d');
      var head := if |data[0].1| > cap then (data[0].0, Picked(data[0].1, cap, stream, d)) else data[0];
      var b := Balanced(data, cap, stream, d);
      assert b == [head] + rest;
      if |data[0].1| > cap {
        PickedSubMultiset(data[0].1, cap, stream, d);
      }
      assert BalancedEntry(data[0], b[0], cap);
      forall i | 1 <= i < |data| ensures BalancedEntry(data[i], b[i], cap) {
        assert data[i] == data[1..][i - 1] && b[i] == rest[i - 1];
      }
      assert Keys(b) == [head.0] + Keys(rest);
    }
  }

  /**
    The comment on `undersample_balance`: afterwards no class is larger
    than `1/target_ratio` times the smallest one, and, for a ratio of at
    most one, the smallest class is kept whole.
  */
  lemma BalancedRatioBound<V>(data: Dict<seq<V>>, ratio: Ratio, stream: nat -> nat, d: nat)
    requires |data| > 0 && ratio.num > 0
    ensures var b := Balanced(data, TargetMax(MinCount(data), ratio), stream, d);
            && (forall i :: 0 <= i < |b| ==> |b[i].1| * ratio.num <= MinCount(data) * ratio.den)
            && (ratio.num <= ratio.den ==>
                  forall i :: 0 <= i < |data| && |data[i].1| == MinCount(data) ==> b[i] == data[i])
  {
    var cap := TargetMax(MinCount(data), ratio);
    TargetMaxBounds(MinCount(data), ratio);
    BalancedShape(data, cap, stream, d);
    var b := Balanced(data, cap, stream, d);
    forall i | 0 <= i < |b| ensures |b[i].1| * ratio.num <= MinCount(data) * ratio.den {
      assert BalancedEntry(data[i], b[i], cap);
      MulMonotone(|b[i].1|, cap, ratio.num);
    }
    if ratio.num <= ratio.den {
      TargetMaxAtLeastMin(MinCount(data), ratio);
      forall i | 0 <= i < |data| && |data[i].1| == MinCount(data) ensures b[i] == data[i] {
        assert BalancedEntry(data[i], b[i], cap);
      }
    }
  }

  /** When some class is empty the cap is zero, so every class is emptied. */
  lemma BalancedEmptyClass<V>(data: Dict<seq<V>>, ratio: Ratio, stream: nat -> nat, d: nat)
    requires |data| > 0 && ratio.num > 0
    requires exists i :: 0 <= i < |data| && data[i].1 == []
    ensures forall i :: 0 <= i < |data| ==> Balanced(data, TargetMax(MinCount(data), ratio), stream, d)[i].1 == []
  {
    var i :| 0 <= i < |data| && data[i].1 == [];
    assert MinCount(data) == 0;
    var cap := TargetMax(MinCount(data), ratio);
    TargetMaxBounds(MinCount(data), ratio);
    MulCancelLess(cap, 1, ratio.num);
    BalancedShape(data, 0, stream, d);
    var b := Balanced(data, 0, stream, d);
    forall j | 0 <= j < |data| ensures b[j].1 == [] {
      assert BalancedEntry(data[j], b[j], 0);
    }
  }

  /** One class of the balancing loop. */
  lemma BalancedStep<V>(data: Dict<seq<V>>, i: nat, cap: nat, stream: nat -> nat, d: nat)
    requires i < |data|
    ensures Balanced(data[i..], cap, stream, d)
            == (if |data[i].1| > cap then [(data[i].0, Picked(data[i].1, cap, stream, d))] else [data[i]])
               + Balanced(data[i + 1..], cap, stream, if |data[i].1| > cap then d + cap else d)
  {
    assert data[i..][0] == data[i] && data[i..][1..] == data[i + 1..];
  }

  /** The result so far, extended by the class at position `i`. */
  lemma BalancedLoopStep<V>(done: Dict<seq<V>>, data: Dict<seq<V>>, i: nat, cap: nat, stream: nat -> nat, d: nat, kept: seq<V>)
    requires i < |data|
    requires kept == if |data[i].1| > cap then Picked(data[i].1, cap, stream, d) else data[i].1
    ensures done + Balanced(data[i..], cap, stream, d)
            == (done + [(data[i].0, kept)]) + Balanced(data[i + 1..], cap, stream, if |data[i].1| > cap then d + cap else d)
  {
    BalancedStep(data, i, cap, stream, d);
    assert data[i] == (data[i].0, data[i].1);
  }

  /** The draws of the remaining classes. */
  lemma BalanceDrawsStep<V>(data: Dict<seq<V>>, i: nat, cap: nat)
    requires i < |data|
    ensures BalanceDraws(data[i..], cap) == (if |data[i].1| > cap then cap else 0) + BalanceDraws(data[i + 1..], cap)
  {
    assert data[i..][0] == data[i] && data[i..][1..] == data[i + 1..];
  }

  /** `undersample_balance(data, target_ratio)`. */
  method UndersampleBalance<V>(data: Dict<seq<V>>, ratio: Ratio, rng: Rng) returns (balanced: Dict<seq<V>>)
    requires |data| > 0 && ratio.num > 0 && DistinctKeys(data)
    modifies rng
    ensures balanced == Balanced(data, TargetMax(MinCount(data), ratio), rng.stream, old(rng.drawn))
    ensures rng.drawn == old(rng.drawn) + BalanceDraws(data, TargetMax(MinCount(data), ratio))
  {
    var minCount := MinCount(data);
    var targetMax := TargetMax(minCount, ratio);
    ghost var goal := Balanced(data, targetMax, rng.stream, rng.drawn);
    ghost var draws := BalanceDraws(data, targetMax);
    ghost var d0 := rng.drawn;
    balanced := [];
    for i := 0 to |data|
      invariant balanced + Balanced(data[i..], targetMax, rng.stream, rng.drawn) == goal
      invariant rng.drawn - d0 + BalanceDraws(data[i..], targetMax) == draws
      invariant rng.drawn >= d0
      invariant Keys(balanced) == Keys(data[..i])
    {
      var cls, imgs := data[i].0, data[i].1;
      ghost var before := balanced;
      ghost var d := rng.drawn;
      var kept := imgs;
      if |imgs| > targetMax {
        kept := Sample(imgs, targetMax, rng);
      }
      AssignNextKey(data, i, balanced, kept);
      balanced := Assign(balanced, cls, kept);
      BalancedLoopStep(before, data, i, targetMax, rng.stream, d, kept);
      BalanceDrawsStep(data, i, targetMax);
      assert rng.drawn == if |imgs| > targetMax then d + targetMax else d;
      assert balanced == before + [(cls, kept)];
    }
    assert data[|data|..] == [];
  }

}
