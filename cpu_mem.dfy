/** The integer core of `thief-of-cpumem.py`: `split_mem_randomly`, which
    cuts a memory figure into one share per worker process, and the integer
    parameter draws of one round of `main`, which hands share `i` to process
    `i`. Every `random` draw is a nondeterministic choice within the bounds
    the script gives it. */
module CpuMem {
  import opened Common

  function Min(a: int, b: int): int { if a <= b then a else b }
  function Max(a: int, b: int): int { if a <= b then b else a }

  /** `x` lies in the closed interval between `a` and `b`, whichever of the
      two is smaller: what `int(random.uniform(a, b))` can return, since
      `uniform` accepts its bounds in either order and truncating a real that
      lies between two integers stays between them. */
  predicate Between(x: int, a: int, b: int)
  {
    Min(a, b) <= x <= Max(a, b)
  }

  /** `avg` and `half_avg` of `split_mem_randomly`; `/` agrees with Python's
      `//` because `num` is positive here. */
  function Avg(value: int, num: int): int
    requires num > 0
  {
    value / num
  }

  /** The lower bound of every draw: `max(1, avg - half_avg)`. */
  function Lo(value: int, num: int): (lo: int)
    requires num > 0
    ensures lo >= 1
  {
    Max(1, Avg(value, num) - Avg(value, num) / 2)
  }

  /** `value - sum(parts) - (num - len(parts) - 1)`: what is left once one
      unit is set aside for every part still to come after this one. */
  function Cap(value: int, num: int, prefix: seq<int>): int
  {
    value - Sum(prefix) - (num - |prefix| - 1)
  }

  /** The upper bound of the draw that follows `prefix`:
      `min(cap, avg + half_avg)`. */
  function Hi(value: int, num: int, prefix: seq<int>): (hi: int)
    requires num > 0
    ensures hi <= Cap(value, num, prefix)
    ensures hi <= Avg(value, num) + Avg(value, num) / 2
  {
    Min(Cap(value, num, prefix), Avg(value, num) + Avg(value, num) / 2)
  }

  /** Which parts a draw may produce between `lo` and `hi`. As written the
      draw lands anywhere between the two bounds; the corrected draw never
      goes above `hi`, so it never eats into the units set aside for the
      parts still to come. */
  predicate PartOk(corrected: bool, lo: int, hi: int, part: int)
  {
    if corrected then Min(lo, hi) <= part <= hi else Between(part, lo, hi)
  }

  /** The draws `split_mem_randomly` makes, one per pass of its loop: each
      part lies between the bounds computed from the parts before it. */
  predicate DrawsOk(value: int, num: int, draws: seq<int>, corrected: bool)
    requires num > 0
    decreases |draws|
  {
    draws == []
    || (DrawsOk(value, num, draws[..|draws| - 1], corrected)
        && PartOk(corrected, Lo(value, num), Hi(value, num, draws[..|draws| - 1]), draws[|draws| - 1]))
  }

  /** Every list `split_mem_randomly(value, num)` can return (with
      `corrected` false) or its corrected variant can return (with
      `corrected` true): empty for a non-positive input; otherwise `num`
      parts, the first `num - 1` drawn one after the other and the last one
      the remainder. */
  predicate SplitOutcome(value: int, num: int, parts: seq<int>, corrected: bool)
  {
    if value <= 0 || num <= 0 then parts == []
    else
      |parts| == num
      && DrawsOk(value, num, parts[..num - 1], corrected)
      && parts[num - 1] == value - Sum(parts[..num - 1])
  }

  /** What the caller of `split_mem_randomly` relies on: one part per
      process, the parts add up to `value`, and a single process gets all
      of it. */
  lemma SplitOutcomeShape(value: int, num: int, parts: seq<int>, corrected: bool)
    requires SplitOutcome(value, num, parts, corrected)
    ensures value <= 0 || num <= 0 ==> parts == []
    ensures value > 0 && num > 0 ==> |parts| == num && Sum(parts) == value
    ensures value > 0 && num == 1 ==> parts == [value]
  {
    if value > 0 && num > 0 {
      var init := parts[..num - 1];
      assert parts == init + [parts[num - 1]];
      SumAppend(init, parts[num - 1]);
      if num == 1 {
        assert init == [];
      }
    }
  }

  /** The draw loop shared by both variants: appends the first `num - 1`
      parts, each drawn against the bounds the current parts give. */
  method DrawParts(value: int, num: int, corrected: bool) returns (parts: seq<int>)
    requires value > 0 && num > 0
    ensures |parts| == num - 1 && DrawsOk(value, num, parts, corrected)
  {
    var avg := value / num;
    var halfAvg := avg / 2;
    parts := [];
    for i := 0 to num - 1
      invariant |parts| == i && DrawsOk(value, num, parts, corrected)
    {
      var a := Max(1, avg - halfAvg);
      var b := Min(value - Sum(parts) - (num - |parts| - 1), avg + halfAvg);
      assert a == Lo(value, num) && b == Hi(value, num, parts);
      assert PartOk(corrected, a, b, if corrected then b else a);
      var part :| PartOk(corrected, a, b, part);
      assert (parts + [part])[..i] == parts;
      parts := parts + [part];
    }
  }

  /** Appending the remainder to the `num - 1` drawn parts gives an
      outcome of the split. */
  lemma CloseSplit(value: int, num: int, draws: seq<int>, corrected: bool)
    requires value > 0 && num > 0 && |draws| == num - 1
    requires DrawsOk(value, num, draws, corrected)
    ensures SplitOutcome(value, num, draws + [value - Sum(draws)], corrected)
  {
    assert (draws + [value - Sum(draws)])[..num - 1] == draws;
  }

  /** `split_mem_randomly(value, num)` as written. */
  method SplitMemRandomly(value: int, num: int) returns (parts: seq<int>)
    ensures SplitOutcome(value, num, parts, false)
    ensures value <= 0 || num <= 0 ==> parts == []
    ensures value > 0 && num > 0 ==> |parts| == num && Sum(parts) == value
    ensures value > 0 && num == 1 ==> parts == [value]
  {
    if value <= 0 || num <= 0 {
      return [];
    }
    parts := DrawParts(value, num, false);
    CloseSplit(value, num, parts, false);
    parts := parts + [value - Sum(parts)];
    SplitOutcomeShape(value, num, parts, false);
  }

  /** A list the script can return for 70 MB over 7 processes whose last
      share is negative: `avg` is 10 and `half_avg` 5, so the draws range
      over `int(uniform(5, 15))`; four draws of 14 and one of 11 leave a cap
      of 2 for the sixth draw, below the lower bound 5, and
      `int(uniform(5, 2))` gives 4 for any real in [4, 5), which leaves -1
      for the last process. */
  lemma AsWrittenNegativeShare()
    ensures SplitOutcome(70, 7, [14, 14, 14, 14, 11, 4, -1], false)
  {
    var p := [14, 14, 14, 14, 11, 4, -1];
    assert p[..0] == [] && p[..1] == [14] && p[..2] == [14, 14] && p[..3] == [14, 14, 14];
    assert p[..4] == [14, 14, 14, 14] && p[..5] == [14, 14, 14, 14, 11] && p[..6] == [14, 14, 14, 14, 11, 4];
    assert Sum([14, 14, 14, 14, 11, 4]) == 71 by {
      assert [14, 14, 14, 14, 11, 4][..5] == [14, 14, 14, 14, 11];
      assert [14, 14, 14, 14, 11][..4] == [14, 14, 14, 14];
      assert [14, 14, 14, 14][..3] == [14, 14, 14];
      assert [14, 14, 14][..2] == [14, 14];
      assert [14, 14][..1] == [14];
    }
  }

  /** The corrected draw can never produce that list: its sixth part would
      have to stay at or below the cap 2. */
  lemma CorrectedRulesOutNegativeShare()
    ensures !SplitOutcome(70, 7, [14, 14, 14, 14, 11, 4, -1], true)
  {
    var p := [14, 14, 14, 14, 11, 4, -1];
    var pre := [14, 14, 14, 14, 11];
    assert p[..5] == pre;
    assert Sum(pre) == 67 by {
      assert pre[..4] == [14, 14, 14, 14];
      assert [14, 14, 14, 14][..3] == [14, 14, 14];
      assert [14, 14, 14][..2] == [14, 14];
      assert [14, 14][..1] == [14];
    }
    assert Hi(70, 7, pre) == 2;
  }

  /** While at least one unit per part is still left, a corrected draw
      keeps at least one unit per remaining part. */
  lemma CorrectedStep(value: int, num: int, prefix: seq<int>, part: int)
    requires value >= num > |prefix| + 1
    requires value - Sum(prefix) >= num - |prefix|
    requires PartOk(true, Lo(value, num), Hi(value, num, prefix), part)
    ensures part >= 1
    ensures value - Sum(prefix + [part]) >= num - |prefix + [part]|
  {
    SumAppend(prefix, part);
  }

  /** The corrected `split_mem_randomly`: the same contract as the script,
      and in addition every share is at least 1 whenever there is at least
      1 MB per process to hand out. */
  method SplitMemCorrected(value: int, num: int) returns (parts: seq<int>)
    ensures SplitOutcome(value, num, parts, true)
    ensures value <= 0 || num <= 0 ==> parts == []
    ensures value > 0 && num > 0 ==> |parts| == num && Sum(parts) == value
    ensures value > 0 && num == 1 ==> parts == [value]
    ensures value >= num ==> forall i :: 0 <= i < |parts| ==> parts[i] >= 1
  {
    if value <= 0 || num <= 0 {
      return [];
    }
    parts := DrawParts(value, num, true);
    CloseSplit(value, num, parts, true);
    parts := parts + [value - Sum(parts)];
    SplitOutcomeShape(value, num, parts, true);
    if value >= num {
      CorrectedOutcomePositive(value, num, parts);
    }
  }

  /** Every share of a corrected outcome is at least 1 when there is at
      least one unit per share. */
  lemma CorrectedOutcomePositive(value: int, num: int, parts: seq<int>)
    requires value >= num && SplitOutcome(value, num, parts, true)
    ensures forall i :: 0 <= i < |parts| ==> parts[i] >= 1
  {
    if num > 0 {
      var init := parts[..num - 1];
      CorrectedPositive(value, num, init);
      assert forall i :: 0 <= i < num - 1 ==> parts[i] == init[i];
    }
  }

  /** Induction over the corrected draws: each of them is at least 1 and
      the remainder never drops below one unit per part still to come. */
  lemma {:induction false} CorrectedPositive(value: int, num: int, draws: seq<int>)
    requires value >= num > |draws|
    requires DrawsOk(value, num, draws, true)
    ensures forall i :: 0 <= i < |draws| ==> draws[i] >= 1
    ensures value - Sum(draws) >= num - |draws|
  {
    if draws != [] {
      var n := |draws| - 1;
      var init := draws[..n];
      CorrectedPositive(value, num, init);
      assert draws == init + [draws[n]];
      CorrectedStep(value, num, init, draws[n]);
    }
  }

  /** Every corrected draw is also a draw the script can make. */
  lemma {:induction false} CorrectedDrawsAllowed(value: int, num: int, draws: seq<int>)
    requires num > 0 && DrawsOk(value, num, draws, true)
    ensures DrawsOk(value, num, draws, false)
  {
    if draws != [] {
      CorrectedDrawsAllowed(value, num, draws[..|draws| - 1]);
    }
  }

  // ---------------------------------------------------------------------
  // The ranges `main` draws from

  /** In `main`, with at most four processes and at least one MB per
      process, every as-written draw already has its lower bound at or below
      its upper bound, so the script and its correction draw from the same
      range: given a running total of at most `k * (avg + half_avg)` after
      `k` parts, the cap for the next draw is at least `avg - half_avg`. */
  lemma MainRangeStep(value: int, num: int, k: int, total: int)
    requires 1 <= num <= 4 && value >= num && 0 <= k <= num - 2
    requires total <= k * (Avg(value, num) + Avg(value, num) / 2)
    ensures value - total - (num - k - 1) >= Lo(value, num)
  {
    var avg := Avg(value, num);
    assert value == num * avg + value % num;
    if num == 2 {
      assert value >= 2 * avg;
    } else if num == 3 {
      assert value >= 3 * avg;
    } else if num == 4 {
      assert value >= 4 * avg;
    }
  }

  /** The induction behind `MainRangeAgrees`: along the script's draws in
      `main`'s ranges every draw stays at or below `hi`, so each one is
      also a corrected draw, and each adds at most `avg + half_avg`. */
  lemma {:induction false} MainRangePrefix(value: int, num: int, draws: seq<int>)
    requires 1 <= num <= 4 && value >= num && |draws| <= num - 1
    requires DrawsOk(value, num, draws, false)
    ensures DrawsOk(value, num, draws, true)
    ensures Sum(draws) <= |draws| * (Avg(value, num) + Avg(value, num) / 2)
  {
    if draws != [] {
      var n := |draws| - 1;
      var init := draws[..n];
      var last := draws[n];
      var step := Avg(value, num) + Avg(value, num) / 2;
      MainRangePrefix(value, num, init);
      MainRangeStep(value, num, n, Sum(init));
      MainRangeBounds(value, num, init);
      assert PartOk(true, Lo(value, num), Hi(value, num, init), last);
      assert draws == init + [last];
      SumAppend(init, last);
      RunningBound(Sum(init), last, n, step);
    }
  }

  /** One more part of at most `step` keeps a total of at most `n * step`
      below `(n + 1) * step`. */
  lemma RunningBound(total: int, part: int, n: nat, step: int)
    requires total <= n * step && part <= step
    ensures total + part <= (n + 1) * step
  {
    assert (n + 1) * step == n * step + step;
  }

  /** With at least one MB per process, `max(1, avg - half_avg)` is at most
      `avg + half_avg`. */
  lemma MainRangeBounds(value: int, num: int, prefix: seq<int>)
    requires 1 <= num && value >= num
    requires Cap(value, num, prefix) >= Lo(value, num)
    ensures Lo(value, num) <= Hi(value, num, prefix)
  {
    assert value / num >= 1;
  }

  /** For at most four processes and at least one MB each, the script's
      draw and the corrected draw allow exactly the same lists, so `main`
      never meets the zero or negative share. */
  lemma MainRangeAgrees(value: int, num: int, parts: seq<int>)
    requires 1 <= num <= 4 && value >= num
    ensures SplitOutcome(value, num, parts, false) <==> SplitOutcome(value, num, parts, true)
  {
    if |parts| == num {
      if DrawsOk(value, num, parts[..num - 1], false) {
        MainRangePrefix(value, num, parts[..num - 1]);
      }
      if DrawsOk(value, num, parts[..num - 1], true) {
        CorrectedDrawsAllowed(value, num, parts[..num - 1]);
      }
    }
  }

  /** The parameters one round of `main` runs with, and the arguments of
      the process started for each core. The sleep time is kept in
      hundredths of a second. */
  datatype ProcessArgs = ProcessArgs(sleepHundredths: int, memoryMb: int, runtime: int)
  datatype Round = Round(runtime: int, sleepHundredths: int, cpuCount: int,
                         memoryUsedMb: int, shares: seq<int>, processes: seq<ProcessArgs>)

  /** One pass of `main`'s loop up to starting the processes: the four
      draws, the split of the memory over the cores, and one argument tuple
      per core, which reads `mc[i]` for every `i < cpu_count`. In `main`'s
      ranges the script's split allows exactly the lists the corrected one
      does (`MainRangeAgrees`), so every share is at least 1 MB. */
  method MainRound() returns (r: Round)
    ensures 5 <= r.runtime <= 60 && 1 <= r.sleepHundredths <= 70
    ensures 1 <= r.cpuCount <= 4 && 1000 <= r.memoryUsedMb <= 5000
    ensures |r.processes| == r.cpuCount
    ensures forall i :: 0 <= i < |r.processes| ==>
              r.processes[i].sleepHundredths == r.sleepHundredths
              && r.processes[i].runtime == r.runtime
              && r.processes[i].memoryMb >= 1
    ensures SplitOutcome(r.memoryUsedMb, r.cpuCount, r.shares, false)
    ensures SplitOutcome(r.memoryUsedMb, r.cpuCount, r.shares, true)
    ensures |r.shares| == r.cpuCount && Sum(r.shares) == r.memoryUsedMb
    ensures forall i :: 0 <= i < |r.processes| ==> r.processes[i].memoryMb == r.shares[i]
  {
    var runtime :| 5 <= runtime <= 60;
    var sleepHundredths :| 1 <= sleepHundredths <= 70;
    var cpuCount :| 1 <= cpuCount <= 4;
    var memoryUsedMb :| 1000 <= memoryUsedMb <= 5000;
    var mc := SplitMemRandomly(memoryUsedMb, cpuCount);
    MainRangeAgrees(memoryUsedMb, cpuCount, mc);
    CorrectedOutcomePositive(memoryUsedMb, cpuCount, mc);
    var processes: seq<ProcessArgs> := [];
    for i := 0 to cpuCount
      invariant |processes| == i
      invariant forall j :: 0 <= j < i ==>
                  processes[j] == ProcessArgs(sleepHundredths, mc[j], runtime)
    {
      processes := processes + [ProcessArgs(sleepHundredths, mc[i], runtime)];
    }
    r := Round(runtime, sleepHundredths, cpuCount, memoryUsedMb, mc, processes);
  }
}
