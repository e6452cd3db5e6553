/**
  Expansion of a numeric house-number range such as `12-16` into the
  individual numbers, under a step or odd/even directive.
 */
module RangeExpansion {
  import opened Decimal
  import opened Items
  import opened Directives

  /** The index of the first '-' in `s`, or `|s|` when there is none. */
  function HyphenIndex(s: string): (k: nat)
    ensures k <= |s|
    ensures k < |s| ==> s[k] == '-'
    ensures forall j :: 0 <= j < k ==> s[j] != '-'
  {
    if s == [] || s[0] == '-' then 0 else 1 + HyphenIndex(s[1..])
  }

  /**
    `RANGE_REGEX.fullmatch(s)` with `RANGE_REGEX = \d+-\d+`, together with
    `s.split('-')`: the two digit strings on either side of the hyphen.
   */
  function RangeParts(s: string): (r: Option<(string, string)>)
    ensures r.Some? ==> IsDigits(r.value.0) && IsDigits(r.value.1)
    ensures r.Some? ==> s == r.value.0 + "-" + r.value.1
  {
    var k := HyphenIndex(s);
    if k < |s| && IsDigits(s[..k]) && IsDigits(s[k + 1..]) then
      assert s == s[..k] + "-" + s[k + 1..];
      Some((s[..k], s[k + 1..]))
    else
      None
  }

  predicate IsRange(s: string) {
    RangeParts(s).Some?
  }

  /** The full match succeeds exactly on "digits, hyphen, digits", and then splits there. */
  lemma RangePartsExact(s: string, a: string, b: string)
    ensures RangeParts(s) == Some((a, b)) <==> s == a + "-" + b && IsDigits(a) && IsDigits(b)
  {
    if s == a + "-" + b && IsDigits(a) && IsDigits(b) {
      assert s[|a|] == '-';
      assert forall j :: 0 <= j < |a| ==> s[j] == a[j];
      assert HyphenIndex(s) == |a|;
      assert s[..|a|] == a && s[|a| + 1..] == b;
    }
  }

  /** The step the directive expands with: its number, or 2 for odd/even. */
  function StepOf(d: Directive): nat
    requires !d.NoExpand?
  {
    if d.Step? then d.n else 2
  }

  /** The first number emitted: moved up by one when its parity is the wrong one. */
  function StartOf(d: Directive, first: nat): (s: nat)
    requires !d.NoExpand?
    ensures d.Step? ==> s == first
    ensures d.Parity? ==> (s == first || s == first + 1) && (s % 2 == 0 <==> d.even)
  {
    if d.Parity? && ((d.even && first % 2 == 1) || (!d.even && first % 2 == 0)) then first + 1
    else first
  }

  /** Python's `range(start, stop, step)` for a positive step. */
  function PyRange(start: nat, stop: nat, step: nat): (r: seq<nat>)
    requires step >= 1
    ensures r == [] <==> start >= stop
    ensures forall x :: x in r ==> start <= x < stop
    decreases stop - start
  {
    if start >= stop then [] else [start] + PyRange(start + step, stop, step)
  }

  /**
    `_expand_range` on already-parsed bounds. The float test
    `(last + 1 - first) / step < 10` is the exact `last + 1 - first < 10 * step`;
    a zero step raises ZeroDivisionError.
   */
  function ExpandNumbers(d: Directive, first: nat, last: nat): (r: Result<seq<nat>>)
    requires !d.NoExpand?
    ensures r.ZeroDivisionError? <==> d == Step(0)
  {
    var step, start := StepOf(d), StartOf(d, first);
    if step == 0 then ZeroDivisionError
    else if last + 1 - start < 10 * step then Ok(PyRange(start, last + 1, step))
    else Ok([])
  }

  /** `_expand_range(itype, hnr)`, called only on a value that matched `\d+-\d+`. */
  function ExpandRange(d: Directive, hnr: string): (r: Result<seq<nat>>)
    requires !d.NoExpand? && IsRange(hnr)
    ensures r.ZeroDivisionError? <==> d == Step(0)
    ensures r.Ok? ==> |r.value| <= 10
    ensures r.Ok? ==> forall x :: x in r.value ==>
      Value(RangeParts(hnr).value.0) <= x <= Value(RangeParts(hnr).value.1)
  {
    var parts := RangeParts(hnr).value;
    if d != Step(0) then ExpandShape(d, Value(parts.0), Value(parts.1)); ExpandNumbers(d, Value(parts.0), Value(parts.1))
    else ExpandNumbers(d, Value(parts.0), Value(parts.1))
  }

  /**
    `range` yields `start, start + step, ...`: ascending by exactly `step`,
    every element below `stop`, and it stops only once the next element would
    reach `stop`.
   */
  lemma {:induction false} PyRangeShape(start: nat, stop: nat, step: nat)
    requires step >= 1
    ensures var r := PyRange(start, stop, step);
      && (r == [] <==> start >= stop)
      && (r != [] ==> r[0] == start && r[|r| - 1] + step >= stop)
      && (forall i :: 0 <= i < |r| ==> r[i] == start + i * step && start <= r[i] < stop)
      && (forall i :: 0 <= i < |r| - 1 ==> r[i + 1] == r[i] + step)
      && (forall i, j :: 0 <= i < j < |r| ==> r[i] < r[j])
    decreases stop - start
  {
    var r := PyRange(start, stop, step);
    if start < stop {
      var r' := PyRange(start + step, stop, step);
      PyRangeShape(start + step, stop, step);
      assert r == [start] + r';
      forall i | 1 <= i < |r|
        ensures r[i] == start + i * step
      {
        assert r[i] == r'[i - 1] == start + step + (i - 1) * step;
      }
    }
  }

  /** A range spanning at most `n` steps has at most `n` elements. */
  lemma {:induction false} PyRangeBound(start: nat, stop: nat, step: nat, n: nat)
    requires step >= 1 && stop - start <= n * step
    ensures |PyRange(start, stop, step)| <= n
    decreases n
  {
    if start < stop {
      assert n != 0;
      assert (n - 1) * step == n * step - step;
      PyRangeBound(start + step, stop, step, n - 1);
    }
  }

  /**
    A successful expansion is the ascending arithmetic sequence that starts at
    the (parity-adjusted) first number, advances by the directive's step and
    runs up to the last number it can reach without passing `last`; it never
    holds more than 10 numbers.
   */
  lemma ExpandShape(d: Directive, first: nat, last: nat)
    requires !d.NoExpand? && d != Step(0)
    ensures var r := ExpandNumbers(d, first, last).value;
      var step, start := StepOf(d), StartOf(d, first);
      && |r| <= 10
      && (r != [] ==> r[0] == start && last < r[|r| - 1] + step)
      && (forall i :: 0 <= i < |r| ==> r[i] == start + i * step && start <= r[i] <= last)
      && (forall i :: 0 <= i < |r| - 1 ==> r[i + 1] == r[i] + step)
      && (forall i, j :: 0 <= i < j < |r| ==> r[i] < r[j])
  {
    var step, start := StepOf(d), StartOf(d, first);
    PyRangeShape(start, last + 1, step);
    if last + 1 - start < 10 * step {
      PyRangeBound(start, last + 1, step, 10);
    }
  }

  /**
    Expansion yields nothing exactly when the adjusted range is empty or spans
    10 steps or more.
   */
  lemma ExpandEmptyIff(d: Directive, first: nat, last: nat)
    requires !d.NoExpand? && d != Step(0)
    ensures var step, start := StepOf(d), StartOf(d, first);
      ExpandNumbers(d, first, last).value == [] <==> start > last || last + 1 - start >= 10 * step
  {
    PyRangeShape(StartOf(d, first), last + 1, StepOf(d));
  }

  /** Under an odd/even directive every number has the requested parity. */
  lemma ExpandParity(d: Directive, first: nat, last: nat)
    requires d.Parity?
    ensures forall x :: x in ExpandNumbers(d, first, last).value ==> (x % 2 == 0 <==> d.even)
  {
    var r := ExpandNumbers(d, first, last).value;
    PyRangeShape(StartOf(d, first), last + 1, 2);
    forall x | x in r
      ensures x % 2 == 0 <==> d.even
    {
      var i :| 0 <= i < |r| && r[i] == x;
      assert x == StartOf(d, first) + i * 2;
    }
  }
}
