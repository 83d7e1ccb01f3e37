/**
 * The decree calculation engine (src/lib/calculator.ts).
 *
 * Dates are day numbers. The calendar step `addYears(d, 1)` of date-fns is a parameter
 * `addYear`, about which the model assumes only that it moves strictly forward
 * (`Advances`); `addDays(d, n)` is `d + n` and `differenceInDays(b, a)` is `b - a`.
 * Money is `real`, so a rate times a day count over 30.4375 is exact.
 *
 * The engine itself is `CalculateDecree` with its two loops `FastForwardRate` and
 * `WalkSegments`; each is proved equal to a pure specification (`Decree`,
 * `Escalated`, `Schedule`, `FinalRate`), and the lemmas below state what
 * those specifications promise.
 */
module Calculator {
  import opened Wrappers
  import opened Types

  /** The average month used for every duration: 30.4375 days, that is 487/16. */
  const AvgDaysInMonth: real := 30.4375

  /** The words of a duration display: "<months> مہینے, <days> دن". */
  const MonthsWord: string := " مہینے, "
  const DaysWord: string := " دن"

  /** The word before a segment's ordinal: "سال <n>". */
  const YearWord: string := "سال "

  // ---------------------------------------------------------------------------
  // Decimal rendering of whole numbers, as a template literal prints them
  // ---------------------------------------------------------------------------

  predicate IsDigit(c: char) { '0' <= c <= '9' }

  function DigitChar(d: nat): (c: char)
    requires d < 10
    ensures IsDigit(c) && c as int - '0' as int == d
  {
    "0123456789"[d]
  }

  /** The value of a string of decimal digits, most significant first. */
  function DigitsValue(s: string): nat
    requires forall i :: 0 <= i < |s| ==> IsDigit(s[i])
  {
    if |s| == 0 then 0
    else
      assert IsDigit(s[|s| - 1]);
      DigitsValue(s[..|s| - 1]) * 10 + (s[|s| - 1] as int - '0' as int)
  }

  /** The decimal numeral of `n`, most significant digit first. */
  function NatToString(n: nat): string
  {
    if n < 10 then [DigitChar(n)] else NatToString(n / 10) + [DigitChar(n % 10)]
  }

  /** The numeral of `n` is digits only, has no leading zero, and reads back as `n`. */
  lemma {:induction false} NatToStringDigits(n: nat)
    ensures var s := NatToString(n);
            && 1 <= |s|
            && (forall i :: 0 <= i < |s| ==> IsDigit(s[i]))
            && (1 < |s| ==> s[0] != '0')
            && DigitsValue(s) == n
  {
    if n >= 10 {
      NatToStringDigits(n / 10);
      var prefix := NatToString(n / 10);
      var s := NatToString(n);
      assert s == prefix + [DigitChar(n % 10)];
      assert s[..|s| - 1] == prefix;
    }
  }

  // ---------------------------------------------------------------------------
  // getPeriodDisplay
  // ---------------------------------------------------------------------------

  /** Whole average months and leftover days of a span. */
  datatype Duration = Duration(months: nat, days: nat)

  /**
   * Splits an inclusive count of `n` days into whole months of 30.4375 days and leftover
   * days. The count is taken in sixteenths of a day, so a month is exactly 487 of them.
   */
  function SplitDays(n: nat): Duration
  {
    SplitSixteenths(16 * n)
  }

  /** Takes whole months off `t` sixteenths of a day, then rounds what is left to days. */
  function SplitSixteenths(t: nat): Duration
  {
    if t < 487 then Duration(0, (t + 8) / 16)
    else
      var d := SplitSixteenths(t - 487);
      Duration(d.months + 1, d.days)
  }

  /** Taking months off one by one is division by 487 with the remainder rounded to days. */
  lemma {:induction false} SplitSixteenthsDivides(t: nat)
    ensures SplitSixteenths(t) == Duration(t / 487, (t % 487 + 8) / 16)
  {
    if t >= 487 {
      SplitSixteenthsDivides(t - 487);
    }
  }

  /**
   * The months are the floor of `n / 30.4375`, and the days are the leftover rounded half
   * up (Math.round), which never exceeds 30.
   */
  lemma SplitDaysBounds(n: nat)
    ensures var d := SplitDays(n);
            && (d.months as real) * AvgDaysInMonth <= n as real < ((d.months + 1) as real) * AvgDaysInMonth
            && (var rest := n as real - (d.months as real) * AvgDaysInMonth;
                rest - 0.5 < d.days as real <= rest + 0.5)
            && d.days <= 30
  {
    var months := (16 * n) / 487;
    var rem16 := 16 * n - 487 * months;
    var days := (rem16 + 8) / 16;
    SplitSixteenthsDivides(16 * n);
    assert SplitDays(n) == Duration(months, days);
    assert 0 <= rem16 < 487;
    assert rem16 - 8 < 16 * days <= rem16 + 8;
    assert (months as real) * AvgDaysInMonth == ((487 * months) as real) / 16.0;
    assert ((months + 1) as real) * AvgDaysInMonth == ((487 * months + 487) as real) / 16.0;
    assert n as real - (months as real) * AvgDaysInMonth == (rem16 as real) / 16.0;
  }

  /** The duration of the inclusive span `start..end`; a reversed span has no duration. */
  function PeriodDuration(start: Day, end: Day): (d: Duration)
    ensures end < start ==> d == Duration(0, 0)
    ensures start <= end ==>
      var n := end - start + 1;
      && (d.months as real) * AvgDaysInMonth <= n as real < ((d.months + 1) as real) * AvgDaysInMonth
      && var rest := n as real - (d.months as real) * AvgDaysInMonth;
         rest - 0.5 < d.days as real <= rest + 0.5
    ensures d.days <= 30
  {
    if end < start then Duration(0, 0)
    else
      SplitDaysBounds(end - start + 1);
      SplitDays(end - start + 1)
  }

  /** Both components are always shown, even when one of them is zero. */
  function RenderDuration(d: Duration): string
  {
    NatToString(d.months) + MonthsWord + NatToString(d.days) + DaysWord
  }

  /**
   * getPeriodDisplay: the text for the inclusive span `start..end`. A reversed span
   * shows the fixed text for zero months and zero days, which is what rendering its
   * `PeriodDuration` gives too; any other span shows its `PeriodDuration`.
   */
  function PeriodDisplay(start: Day, end: Day): (r: string)
    ensures r == RenderDuration(PeriodDuration(start, end))
  {
    if end < start then
      assert NatToString(0) == "0";
      "0 مہینے, 0 دن"
    else RenderDuration(PeriodDuration(start, end))
  }

  /**
   * A rendered duration can be read back: it starts with the digits of the months, which
   * read back as the months, followed by the month word, and the digits before the day word
   * read back as the days.
   */
  lemma RenderDurationReadsBack(d: Duration)
    ensures var s := RenderDuration(d);
            var m, dd := NatToString(d.months), NatToString(d.days);
            && |m| + |MonthsWord| + |dd| + |DaysWord| == |s|
            && s[..|m|] == m
            && s[|m|..|m| + |MonthsWord|] == MonthsWord
            && s[|s| - |DaysWord| - |dd|..|s| - |DaysWord|] == dd
            && s[|s| - |DaysWord|..] == DaysWord
            && (forall i :: 0 <= i < |m| ==> IsDigit(m[i])) && DigitsValue(m) == d.months
            && (forall i :: 0 <= i < |dd| ==> IsDigit(dd[i])) && DigitsValue(dd) == d.days
  {
    var s := RenderDuration(d);
    var m, dd := NatToString(d.months), NatToString(d.days);
    NatToStringDigits(d.months);
    NatToStringDigits(d.days);
    assert s == m + MonthsWord + dd + DaysWord;
    assert s[..|m|] == m;
    assert s[|m|..|m| + |MonthsWord|] == MonthsWord;
    assert s[|s| - |DaysWord| - |dd|..|s| - |DaysWord|] == dd;
  }

  // ---------------------------------------------------------------------------
  // Escalation of the monthly rate
  // ---------------------------------------------------------------------------

  /** The calendar step moves strictly forward. */
  ghost predicate Advances(addYear: Day -> Day)
  {
    forall d :: d < addYear(d)
  }

  /** One yearly increase: compounding for progressive, a share of the base for fixed. */
  function Escalate(rate: real, base: real, pct: real, kind: IncreaseType): real
  {
    match kind
    case Progressive => rate * (1.0 + pct / 100.0)
    case Fixed => rate + base * pct / 100.0
  }

  /** The rate after `k` yearly increases starting from `rate`. */
  function Escalated(rate: real, base: real, pct: real, kind: IncreaseType, k: nat): real
    decreases k
  {
    if k == 0 then rate else Escalated(Escalate(rate, base, pct, kind), base, pct, kind, k - 1)
  }

  function Pow(x: real, k: nat): real
    decreases k
  {
    if k == 0 then 1.0 else x * Pow(x, k - 1)
  }

  /** Progressive escalation compounds: `k` increases multiply by `(1 + p/100)^k`. */
  lemma {:induction false} ProgressiveEscalation(rate: real, base: real, pct: real, k: nat)
    ensures Escalated(rate, base, pct, Progressive, k) == rate * Pow(1.0 + pct / 100.0, k)
    decreases k
  {
    if k > 0 {
      var q := 1.0 + pct / 100.0;
      assert Escalate(rate, base, pct, Progressive) == rate * q;
      ProgressiveEscalation(rate * q, base, pct, k - 1);
      assert Pow(q, k) == q * Pow(q, k - 1);
      assert (rate * q) * Pow(q, k - 1) == rate * (q * Pow(q, k - 1));
    }
  }

  /** Fixed escalation is linear: `k` increases add `k` times `base * p/100`. */
  lemma {:induction false} FixedEscalation(rate: real, base: real, pct: real, k: nat)
    ensures Escalated(rate, base, pct, Fixed, k) == rate + (k as real) * (base * pct / 100.0)
    decreases k
  {
    if k > 0 {
      FixedEscalation(rate + base * pct / 100.0, base, pct, k - 1);
    }
  }

  /** Escalating `a` times and then `b` times is escalating `a + b` times. */
  lemma {:induction false} EscalatedAdd(rate: real, base: real, pct: real, kind: IncreaseType, a: nat, b: nat)
    ensures Escalated(Escalated(rate, base, pct, kind, a), base, pct, kind, b)
         == Escalated(rate, base, pct, kind, a + b)
    decreases a
  {
    if a > 0 {
      EscalatedAdd(Escalate(rate, base, pct, kind), base, pct, kind, a - 1, b);
    }
  }

  // ---------------------------------------------------------------------------
  // Anniversaries and the rate fast-forward (calculator.ts:41-58)
  // ---------------------------------------------------------------------------

  /** The `k`-th anniversary of `start`, reached by stepping one year at a time. */
  function Anniversary(addYear: Day -> Day, start: Day, k: nat): Day
  {
    if k == 0 then start else addYear(Anniversary(addYear, start, k - 1))
  }

  /** How many anniversaries of `from` fall on or before `until`. */
  function WholeAnniversaries(addYear: Day -> Day, from: Day, until: Day): nat
    requires Advances(addYear)
    decreases until - from
  {
    if addYear(from) <= until then 1 + WholeAnniversaries(addYear, addYear(from), until) else 0
  }

  lemma {:induction false} AnniversaryShift(addYear: Day -> Day, start: Day, k: nat)
    ensures Anniversary(addYear, start, k + 1) == Anniversary(addYear, addYear(start), k)
  {
    if k > 0 {
      AnniversaryShift(addYear, start, k - 1);
    }
  }

  /**
   * `WholeAnniversaries` counts exactly the anniversaries on or before `until`: the first
   * `n` are on or before it and the next one is after it.
   */
  lemma {:induction false} WholeAnniversariesExact(addYear: Day -> Day, from: Day, until: Day)
    requires Advances(addYear)
    ensures var n := WholeAnniversaries(addYear, from, until);
            && (forall k :: 1 <= k <= n ==> Anniversary(addYear, from, k) <= until)
            && until < Anniversary(addYear, from, n + 1)
    decreases until - from
  {
    var n := WholeAnniversaries(addYear, from, until);
    if addYear(from) <= until {
      var next := addYear(from);
      WholeAnniversariesExact(addYear, next, until);
      forall k | 1 <= k <= n
        ensures Anniversary(addYear, from, k) <= until
      {
        AnniversaryShift(addYear, from, k - 1);
        if k > 1 {
          assert Anniversary(addYear, next, k - 1) <= until;
        }
      }
      AnniversaryShift(addYear, from, n);
    } else {
      assert Anniversary(addYear, from, 1) == addYear(from);
    }
  }

  /**
   * The fast-forward loop: starting from the base amount, escalate once for every whole
   * anniversary of `startDate` on or before the partial-satisfaction date.
   */
  method FastForwardRate(addYear: Day -> Day, startDate: Day, satisfactionDate: Day,
                         base: real, pct: real, kind: IncreaseType)
    returns (rate: real)
    requires Advances(addYear)
    ensures rate == Escalated(base, base, pct, kind, WholeAnniversaries(addYear, startDate, satisfactionDate))
  {
    rate := base;
    var rateCalcDate := startDate;
    var fixedIncreaseAmount := if kind == Fixed then base * pct / 100.0 else 0.0;
    while rateCalcDate < satisfactionDate
      invariant Escalated(rate, base, pct, kind, WholeAnniversaries(addYear, rateCalcDate, satisfactionDate))
             == Escalated(base, base, pct, kind, WholeAnniversaries(addYear, startDate, satisfactionDate))
      decreases satisfactionDate - rateCalcDate
    {
      var nextAnniversary := addYear(rateCalcDate);
      if nextAnniversary <= satisfactionDate {
        if kind == Progressive {
          rate := rate * (1.0 + pct / 100.0);
        } else {
          rate := rate + fixedIncreaseAmount;
        }
        rateCalcDate := nextAnniversary;
      } else {
        break;
      }
    }
  }

  // ---------------------------------------------------------------------------
  // The segment walk (calculator.ts:61-101)
  // ---------------------------------------------------------------------------

  /** A segment of the walk: its first and last day and the monthly rate charged. */
  datatype Segment = Segment(startDate: Day, endDate: Day, rate: real)

  /** A segment starting at `s` ends the day before the next anniversary, or at `end`. */
  function SegmentEnd(addYear: Day -> Day, s: Day, end: Day): Day
  {
    var nextAnniversary := addYear(s);
    if nextAnniversary <= end then nextAnniversary - 1 else end
  }

  /**
   * The segments from `s` to `end`, the first charged at `rate` and each later one at the
   * rate escalated once more.
   */
  function Schedule(addYear: Day -> Day, s: Day, end: Day, rate: real,
                    base: real, pct: real, kind: IncreaseType): seq<Segment>
    requires Advances(addYear)
    decreases end - s + 1
  {
    if end < s then []
    else
      var e := SegmentEnd(addYear, s, end);
      [Segment(s, e, rate)] + Schedule(addYear, e + 1, end, Escalate(rate, base, pct, kind), base, pct, kind)
  }

  /** The rate in force when the walk stops: no increase follows the last segment. */
  function FinalRate(addYear: Day -> Day, s: Day, end: Day, rate: real,
                     base: real, pct: real, kind: IncreaseType): real
    requires Advances(addYear)
    decreases end - s + 1
  {
    if end < s then rate
    else
      var next := SegmentEnd(addYear, s, end) + 1;
      if next <= end then FinalRate(addYear, next, end, Escalate(rate, base, pct, kind), base, pct, kind)
      else rate
  }

  /** The ordinal label of the `n`-th segment. */
  function YearLabel(n: nat): string
  {
    YearWord + NatToString(n)
  }

  /** The amount charged at monthly `rate` for the inclusive span, in average months. */
  function Subtotal(rate: real, startDate: Day, endDate: Day): real
  {
    rate * (((endDate - startDate + 1) as real) / AvgDaysInMonth)
  }

  /** The `n`-th breakdown entry: the segment's rate times its day count in average months. */
  function Entry(seg: Segment, base: real, n: nat): YearlyBreakdown
  {
    YearlyBreakdown(YearLabel(n), seg.startDate, seg.endDate, base, seg.rate,
                    PeriodDisplay(seg.startDate, seg.endDate),
                    Subtotal(seg.rate, seg.startDate, seg.endDate))
  }

  /** The breakdown entries of a schedule, numbered from 1. */
  function Breakdown(segs: seq<Segment>, base: real): seq<YearlyBreakdown>
  {
    if |segs| == 0 then []
    else Breakdown(segs[..|segs| - 1], base) + [Entry(segs[|segs| - 1], base, |segs|)]
  }

  /** The sum of the entries' subtotals. */
  function SumPeriods(entries: seq<YearlyBreakdown>): real
  {
    if |entries| == 0 then 0.0
    else SumPeriods(entries[..|entries| - 1]) + entries[|entries| - 1].totalPeriod
  }

  /** One step of the walk from `s`, when `s` is not after `end`. */
  lemma ScheduleStep(addYear: Day -> Day, s: Day, end: Day, rate: real,
                     base: real, pct: real, kind: IncreaseType)
    requires Advances(addYear)
    requires s <= end
    ensures var e := SegmentEnd(addYear, s, end);
            && Schedule(addYear, s, end, rate, base, pct, kind)
               == [Segment(s, e, rate)] + Schedule(addYear, e + 1, end, Escalate(rate, base, pct, kind), base, pct, kind)
            && FinalRate(addYear, s, end, rate, base, pct, kind)
               == if e + 1 <= end then FinalRate(addYear, e + 1, end, Escalate(rate, base, pct, kind), base, pct, kind)
                  else rate
  {
  }

  /** Walking one more segment appends its entry to the breakdown. */
  lemma BreakdownSnoc(segs: seq<Segment>, seg: Segment, base: real)
    ensures Breakdown(segs + [seg], base) == Breakdown(segs, base) + [Entry(seg, base, |segs| + 1)]
  {
    assert (segs + [seg])[..|segs|] == segs;
  }

  /**
   * One turn of the walk from `s`, which ends its segment at `e` and moves on at rate
   * `next`, keeps the segments walked so far a prefix of the whole schedule and keeps the
   * rate the walk will stop at.
   */
  lemma WalkStep(addYear: Day -> Day, effectiveStart: Day, s: Day, end: Day, rate: real, startRate: real,
                 base: real, pct: real, kind: IncreaseType, done: seq<Segment>, e: Day, next: real)
    requires Advances(addYear)
    requires s <= end
    requires done + Schedule(addYear, s, end, rate, base, pct, kind)
             == Schedule(addYear, effectiveStart, end, startRate, base, pct, kind)
    requires FinalRate(addYear, s, end, rate, base, pct, kind)
             == FinalRate(addYear, effectiveStart, end, startRate, base, pct, kind)
    requires e == SegmentEnd(addYear, s, end)
    requires next == if e + 1 <= end then Escalate(rate, base, pct, kind) else rate
    ensures (done + [Segment(s, e, rate)]) + Schedule(addYear, e + 1, end, next, base, pct, kind)
            == Schedule(addYear, effectiveStart, end, startRate, base, pct, kind)
    ensures FinalRate(addYear, e + 1, end, next, base, pct, kind)
            == FinalRate(addYear, effectiveStart, end, startRate, base, pct, kind)
  {
    var seg := Segment(s, e, rate);
    var escalated := Escalate(rate, base, pct, kind);
    ScheduleStep(addYear, s, end, rate, base, pct, kind);
    assert done + ([seg] + Schedule(addYear, e + 1, end, escalated, base, pct, kind))
           == (done + [seg]) + Schedule(addYear, e + 1, end, escalated, base, pct, kind);
  }

  /** Appending an entry adds its subtotal to the sum. */
  lemma SumPeriodsSnoc(entries: seq<YearlyBreakdown>, entry: YearlyBreakdown)
    ensures SumPeriods(entries + [entry]) == SumPeriods(entries) + entry.totalPeriod
  {
    assert (entries + [entry])[..|entries|] == entries;
  }

  /**
   * The segment loop of one recipient: it returns the breakdown of the `Schedule` from the
   * effective start, the sum of its subtotals and the `FinalRate`.
   */
  method WalkSegments(addYear: Day -> Day, effectiveStart: Day, endDate: Day,
                      base: real, startRate: real, pct: real, kind: IncreaseType)
    returns (yearlyBreakdown: seq<YearlyBreakdown>, totalRecipientAmount: real, currentRate: real)
    requires Advances(addYear)
    ensures yearlyBreakdown == Breakdown(Schedule(addYear, effectiveStart, endDate, startRate, base, pct, kind), base)
    ensures totalRecipientAmount == SumPeriods(yearlyBreakdown)
    ensures currentRate == FinalRate(addYear, effectiveStart, endDate, startRate, base, pct, kind)
  {
    yearlyBreakdown := [];
    totalRecipientAmount := 0.0;
    currentRate := startRate;
    var loopStartDate := effectiveStart;
    ghost var done: seq<Segment> := [];
    while loopStartDate <= endDate
      invariant done + Schedule(addYear, loopStartDate, endDate, currentRate, base, pct, kind)
             == Schedule(addYear, effectiveStart, endDate, startRate, base, pct, kind)
      invariant FinalRate(addYear, loopStartDate, endDate, currentRate, base, pct, kind)
             == FinalRate(addYear, effectiveStart, endDate, startRate, base, pct, kind)
      invariant yearlyBreakdown == Breakdown(done, base)
      invariant |yearlyBreakdown| == |done|
      invariant totalRecipientAmount == SumPeriods(yearlyBreakdown)
      decreases endDate - loopStartDate + 1
    {
      var periodEndDate := SegmentEnd(addYear, loopStartDate, endDate);
      var seg := Segment(loopStartDate, periodEndDate, currentRate);
      var entry := Entry(seg, base, |yearlyBreakdown| + 1);
      BreakdownSnoc(done, seg, base);
      SumPeriodsSnoc(yearlyBreakdown, entry);
      yearlyBreakdown := yearlyBreakdown + [entry];
      totalRecipientAmount := totalRecipientAmount + entry.totalPeriod;
      ghost var segmentStart, segmentRate, walked := loopStartDate, currentRate, done;
      done := done + [seg];
      loopStartDate := periodEndDate + 1;
      if loopStartDate <= endDate {
        currentRate := Escalate(currentRate, base, pct, kind);
      }
      WalkStep(addYear, effectiveStart, segmentStart, endDate, segmentRate, startRate, base, pct, kind,
               walked, periodEndDate, currentRate);
    }
    assert done + Schedule(addYear, loopStartDate, endDate, currentRate, base, pct, kind) == done;
  }

  // ---------------------------------------------------------------------------
  // What the schedule promises
  // ---------------------------------------------------------------------------

  /** A walk yields no segment exactly when it starts after `end`. */
  lemma ScheduleEmpty(addYear: Day -> Day, s: Day, end: Day, rate: real,
                      base: real, pct: real, kind: IncreaseType)
    requires Advances(addYear)
    ensures |Schedule(addYear, s, end, rate, base, pct, kind)| == 0 <==> end < s
  {
  }

  /** The first segment starts at `s` and the last ends exactly at `end`. */
  lemma {:induction false} ScheduleEnds(addYear: Day -> Day, s: Day, end: Day, rate: real,
                                        base: real, pct: real, kind: IncreaseType)
    requires Advances(addYear)
    requires s <= end
    ensures var segs := Schedule(addYear, s, end, rate, base, pct, kind);
            |segs| > 0 && segs[0].startDate == s && segs[|segs| - 1].endDate == end
    decreases end - s + 1
  {
    var e := SegmentEnd(addYear, s, end);
    var next := Escalate(rate, base, pct, kind);
    var rest := Schedule(addYear, e + 1, end, next, base, pct, kind);
    var segs := Schedule(addYear, s, end, rate, base, pct, kind);
    assert segs == [Segment(s, e, rate)] + rest;
    if e + 1 <= end {
      ScheduleEnds(addYear, e + 1, end, next, base, pct, kind);
      assert segs[|segs| - 1] == rest[|rest| - 1];
    } else {
      assert rest == [];
    }
  }

  /**
   * Every segment lies within `s..end` and ends the day before the anniversary of its own
   * start, or at `end` when that anniversary is later.
   */
  ghost predicate AnniversaryBounded(addYear: Day -> Day, segs: seq<Segment>, s: Day, end: Day)
  {
    forall k :: 0 <= k < |segs| ==>
      && s <= segs[k].startDate <= segs[k].endDate <= end
      && segs[k].endDate == (if addYear(segs[k].startDate) <= end then addYear(segs[k].startDate) - 1 else end)
  }

  lemma {:induction false} ScheduleBounds(addYear: Day -> Day, s: Day, end: Day, rate: real,
                                          base: real, pct: real, kind: IncreaseType)
    requires Advances(addYear)
    ensures AnniversaryBounded(addYear, Schedule(addYear, s, end, rate, base, pct, kind), s, end)
    decreases end - s + 1
  {
    if s <= end {
      var e := SegmentEnd(addYear, s, end);
      var next := Escalate(rate, base, pct, kind);
      var rest := Schedule(addYear, e + 1, end, next, base, pct, kind);
      var segs := Schedule(addYear, s, end, rate, base, pct, kind);
      ScheduleBounds(addYear, e + 1, end, next, base, pct, kind);
      assert segs == [Segment(s, e, rate)] + rest;
      assert s < addYear(s);
      forall k | 0 <= k < |segs|
        ensures s <= segs[k].startDate <= segs[k].endDate <= end
        ensures segs[k].endDate == (if addYear(segs[k].startDate) <= end
                                    then addYear(segs[k].startDate) - 1 else end)
      {
        if k > 0 {
          assert segs[k] == rest[k - 1];
        } else {
          assert segs[k] == Segment(s, e, rate);
        }
      }
    }
  }

  /** Consecutive segments are contiguous: each starts the day after the previous one ends. */
  ghost predicate Contiguous(segs: seq<Segment>)
  {
    forall k :: 0 <= k < |segs| - 1 ==> segs[k + 1].startDate == segs[k].endDate + 1
  }

  lemma {:induction false} ScheduleContiguous(addYear: Day -> Day, s: Day, end: Day, rate: real,
                                              base: real, pct: real, kind: IncreaseType)
    requires Advances(addYear)
    ensures Contiguous(Schedule(addYear, s, end, rate, base, pct, kind))
    decreases end - s + 1
  {
    if s <= end {
      var e := SegmentEnd(addYear, s, end);
      var next := Escalate(rate, base, pct, kind);
      var rest := Schedule(addYear, e + 1, end, next, base, pct, kind);
      var segs := Schedule(addYear, s, end, rate, base, pct, kind);
      ScheduleContiguous(addYear, e + 1, end, next, base, pct, kind);
      assert segs == [Segment(s, e, rate)] + rest;
      forall k | 0 <= k < |segs| - 1
        ensures segs[k + 1].startDate == segs[k].endDate + 1
      {
        assert segs[k + 1] == rest[k];
        if k > 0 {
          assert segs[k] == rest[k - 1];
        } else {
          assert segs[0] == Segment(s, e, rate);
          ScheduleEmpty(addYear, e + 1, end, next, base, pct, kind);
          ScheduleEnds(addYear, e + 1, end, next, base, pct, kind);
        }
      }
    }
  }

  /** Segment `k` is charged at the starting rate escalated `k` times. */
  ghost predicate RatesEscalate(segs: seq<Segment>, rate: real, base: real, pct: real, kind: IncreaseType)
  {
    forall k :: 0 <= k < |segs| ==> segs[k].rate == Escalated(rate, base, pct, kind, k)
  }

  lemma {:induction false} ScheduleRates(addYear: Day -> Day, s: Day, end: Day, rate: real,
                                         base: real, pct: real, kind: IncreaseType)
    requires Advances(addYear)
    ensures RatesEscalate(Schedule(addYear, s, end, rate, base, pct, kind), rate, base, pct, kind)
    decreases end - s + 1
  {
    if s <= end {
      var e := SegmentEnd(addYear, s, end);
      var next := Escalate(rate, base, pct, kind);
      var rest := Schedule(addYear, e + 1, end, next, base, pct, kind);
      var segs := Schedule(addYear, s, end, rate, base, pct, kind);
      ScheduleRates(addYear, e + 1, end, next, base, pct, kind);
      assert segs == [Segment(s, e, rate)] + rest;
      forall k | 0 <= k < |segs|
        ensures segs[k].rate == Escalated(rate, base, pct, kind, k)
      {
        if k > 0 {
          assert segs[k] == rest[k - 1];
        }
      }
    }
  }

  /**
   * The rate left in force is the last segment's rate, or the starting rate when there is
   * no segment: the rate is never escalated after the last segment.
   */
  lemma {:induction false} FinalRateIsLastRate(addYear: Day -> Day, s: Day, end: Day, rate: real,
                                               base: real, pct: real, kind: IncreaseType)
    requires Advances(addYear)
    ensures FinalRate(addYear, s, end, rate, base, pct, kind)
              == if end < s then rate
                 else Schedule(addYear, s, end, rate, base, pct, kind)[|Schedule(addYear, s, end, rate, base, pct, kind)| - 1].rate
    decreases end - s + 1
  {
    if s <= end {
      var e := SegmentEnd(addYear, s, end);
      var next := Escalate(rate, base, pct, kind);
      var rest := Schedule(addYear, e + 1, end, next, base, pct, kind);
      assert Schedule(addYear, s, end, rate, base, pct, kind) == [Segment(s, e, rate)] + rest;
      FinalRateIsLastRate(addYear, e + 1, end, next, base, pct, kind);
      if e + 1 <= end {
        assert ([Segment(s, e, rate)] + rest)[|rest|] == rest[|rest| - 1];
      }
    }
  }

  /**
   * Entry `k` of a breakdown is numbered `k + 1`, covers segment `k`'s days, records the
   * base amount and charges segment `k`'s rate for its inclusive day count in months of
   * 30.4375 days.
   */
  ghost predicate EntriesOf(b: seq<YearlyBreakdown>, segs: seq<Segment>, base: real)
  {
    && |b| == |segs|
    && forall k :: 0 <= k < |segs| ==>
         && b[k].year == YearLabel(k + 1)
         && b[k].startDate == segs[k].startDate
         && b[k].endDate == segs[k].endDate
         && b[k].basicAmount == base
         && b[k].increasedAmount == segs[k].rate
         && b[k].durationDisplay == PeriodDisplay(segs[k].startDate, segs[k].endDate)
         && b[k].totalPeriod == Subtotal(segs[k].rate, segs[k].startDate, segs[k].endDate)
  }

  lemma {:induction false} BreakdownEntries(segs: seq<Segment>, base: real)
    ensures EntriesOf(Breakdown(segs, base), segs, base)
    decreases |segs|
  {
    if |segs| > 0 {
      var front := segs[..|segs| - 1];
      BreakdownEntries(front, base);
      var b, bf := Breakdown(segs, base), Breakdown(front, base);
      assert b == bf + [Entry(segs[|segs| - 1], base, |segs|)];
      forall k | 0 <= k < |segs|
        ensures b[k] == Entry(segs[k], base, k + 1)
      {
        if k < |segs| - 1 {
          assert b[k] == bf[k] && segs[k] == front[k];
        }
      }
    }
  }

  // ---------------------------------------------------------------------------
  // The whole calculation (calculator.ts:14-160)
  // ---------------------------------------------------------------------------

  /**
   * The day the calculation starts: the day after the partial-satisfaction date when the
   * decree is partially satisfied and that date is after the start; otherwise the start.
   */
  function EffectiveStart(d: ReportData): (e: Day)
    ensures d.startDate <= e
    ensures e != d.startDate <==> d.partiallySatisfied && d.partialSatisfactionDate.Some?
                                  && d.startDate < d.partialSatisfactionDate.value
    ensures e != d.startDate ==> e == d.partialSatisfactionDate.value + 1
  {
    if d.partiallySatisfied && d.partialSatisfactionDate.Some? && d.partialSatisfactionDate.value > d.startDate
    then d.partialSatisfactionDate.value + 1
    else d.startDate
  }

  /** The number of whole anniversaries the rate is fast-forwarded past before the walk. */
  function AnniversariesBeforeWalk(addYear: Day -> Day, d: ReportData): nat
    requires Advances(addYear)
  {
    if d.partiallySatisfied && d.partialSatisfactionDate.Some?
    then WholeAnniversaries(addYear, d.startDate, d.partialSatisfactionDate.value)
    else 0
  }

  /** The monthly rate in force when the walk begins. */
  function StartingRate(addYear: Day -> Day, d: ReportData, base: real): real
    requires Advances(addYear)
  {
    Escalated(base, base, d.yearlyIncrease, d.increaseType, AnniversariesBeforeWalk(addYear, d))
  }

  /** The schedule of one recipient: from the effective start, at the starting rate. */
  function RecipientSchedule(addYear: Day -> Day, d: ReportData, r: Recipient): seq<Segment>
    requires Advances(addYear)
  {
    Schedule(addYear, EffectiveStart(d), d.endDate, StartingRate(addYear, d, r.amount),
             r.amount, d.yearlyIncrease, d.increaseType)
  }

  /** What the engine reports for one recipient. */
  function RecipientResult(addYear: Day -> Day, d: ReportData, r: Recipient): RecipientCalculation
    requires Advances(addYear)
  {
    var breakdown := Breakdown(RecipientSchedule(addYear, d, r), r.amount);
    RecipientCalculation(r.name, r.relationship, r.amount, d.increaseType, d.yearlyIncrease,
                         SumPeriods(breakdown),
                         FinalRate(addYear, EffectiveStart(d), d.endDate, StartingRate(addYear, d, r.amount),
                                   r.amount, d.yearlyIncrease, d.increaseType),
                         breakdown)
  }

  /** The results for recipients `rs` of the decree `d`, in order. */
  function RecipientResults(addYear: Day -> Day, d: ReportData, rs: seq<Recipient>): seq<RecipientCalculation>
    requires Advances(addYear)
  {
    if |rs| == 0 then []
    else RecipientResults(addYear, d, rs[..|rs| - 1]) + [RecipientResult(addYear, d, rs[|rs| - 1])]
  }

  /** The sum of the recipients' totals. */
  function GrandTotal(cs: seq<RecipientCalculation>): real
  {
    if |cs| == 0 then 0.0 else GrandTotal(cs[..|cs| - 1]) + cs[|cs| - 1].totalRecipientAmount
  }

  /** An other-amount is counted when it has a description and a positive amount. */
  predicate CountsOtherAmount(oa: OtherAmount)
  {
    oa.description != "" && oa.amount.Some? && oa.amount.value > 0.0
  }

  /** A payment is counted when it has a date and a positive amount. */
  predicate CountsPayment(p: Payment)
  {
    p.date.Some? && p.amount.Some? && p.amount.value > 0.0
  }

  /** The other-amounts that are counted, in their original order. */
  function ValidOtherAmounts(s: seq<OtherAmount>): (t: seq<OtherAmount>)
    ensures |t| <= |s|
    ensures |t| == |s| ==> t == s
  {
    if |s| == 0 then []
    else if CountsOtherAmount(s[0]) then [s[0]] + ValidOtherAmounts(s[1..])
    else ValidOtherAmounts(s[1..])
  }

  /** The payments that are counted, in their original order. */
  function ValidPayments(s: seq<Payment>): (t: seq<Payment>)
    ensures |t| <= |s|
    ensures |t| == |s| ==> t == s
  {
    if |s| == 0 then []
    else if CountsPayment(s[0]) then [s[0]] + ValidPayments(s[1..])
    else ValidPayments(s[1..])
  }

  /** The sum of the amounts (an absent amount counts as 0). */
  function SumOtherAmounts(s: seq<OtherAmount>): real
  {
    if |s| == 0 then 0.0 else SumOtherAmounts(s[..|s| - 1]) + s[|s| - 1].amount.GetOr(0.0)
  }

  function SumPayments(s: seq<Payment>): real
  {
    if |s| == 0 then 0.0 else SumPayments(s[..|s| - 1]) + s[|s| - 1].amount.GetOr(0.0)
  }

  /**
   * The filter keeps exactly the counted entries and invents none; it keeps nothing
   * exactly when nothing counts.
   */
  lemma {:induction false} ValidOtherAmountsKeeps(s: seq<OtherAmount>)
    ensures var t := ValidOtherAmounts(s);
            && (forall i :: 0 <= i < |t| ==> CountsOtherAmount(t[i]))
            && (forall x :: x in s && CountsOtherAmount(x) ==> x in t)
            && (forall x :: x in t ==> x in s)
            && |t| <= |s|
            && (|t| == 0 <==> forall i :: 0 <= i < |s| ==> !CountsOtherAmount(s[i]))
  {
    if |s| > 0 {
      ValidOtherAmountsKeeps(s[1..]);
      assert s == [s[0]] + s[1..];
      forall i | 0 <= i < |s[1..]|
        ensures s[1..][i] == s[i + 1]
      {
      }
    }
  }

  /** The filter keeps order and multiplicity: filtering a concatenation filters each part. */
  lemma {:induction false} ValidOtherAmountsConcat(a: seq<OtherAmount>, b: seq<OtherAmount>)
    ensures ValidOtherAmounts(a + b) == ValidOtherAmounts(a) + ValidOtherAmounts(b)
    decreases |a|
  {
    if |a| > 0 {
      ValidOtherAmountsConcat(a[1..], b);
      assert (a + b)[1..] == a[1..] + b;
    } else {
      assert a + b == b;
    }
  }

  /**
   * The filter keeps exactly the counted entries and invents none; it keeps nothing
   * exactly when nothing counts.
   */
  lemma {:induction false} ValidPaymentsKeeps(s: seq<Payment>)
    ensures var t := ValidPayments(s);
            && (forall i :: 0 <= i < |t| ==> CountsPayment(t[i]))
            && (forall x :: x in s && CountsPayment(x) ==> x in t)
            && (forall x :: x in t ==> x in s)
            && |t| <= |s|
            && (|t| == 0 <==> forall i :: 0 <= i < |s| ==> !CountsPayment(s[i]))
  {
    if |s| > 0 {
      ValidPaymentsKeeps(s[1..]);
      assert s == [s[0]] + s[1..];
      forall i | 0 <= i < |s[1..]|
        ensures s[1..][i] == s[i + 1]
      {
      }
    }
  }

  lemma {:induction false} ValidPaymentsConcat(a: seq<Payment>, b: seq<Payment>)
    ensures ValidPayments(a + b) == ValidPayments(a) + ValidPayments(b)
    decreases |a|
  {
    if |a| > 0 {
      ValidPaymentsConcat(a[1..], b);
      assert (a + b)[1..] == a[1..] + b;
    } else {
      assert a + b == b;
    }
  }

  lemma {:induction false} SumOtherAmountsAppend(a: seq<OtherAmount>, b: seq<OtherAmount>)
    ensures SumOtherAmounts(a + b) == SumOtherAmounts(a) + SumOtherAmounts(b)
    decreases |b|
  {
    if |b| > 0 {
      SumOtherAmountsAppend(a, b[..|b| - 1]);
      assert (a + b)[..|a + b| - 1] == a + b[..|b| - 1];
    } else {
      assert a + b == a;
    }
  }

  lemma {:induction false} SumPaymentsAppend(a: seq<Payment>, b: seq<Payment>)
    ensures SumPayments(a + b) == SumPayments(a) + SumPayments(b)
    decreases |b|
  {
    if |b| > 0 {
      SumPaymentsAppend(a, b[..|b| - 1]);
      assert (a + b)[..|a + b| - 1] == a + b[..|b| - 1];
    } else {
      assert a + b == a;
    }
  }

  /** The amounts of the counted entries of `s`, each other entry contributing nothing. */
  function CountedOtherAmountsTotal(s: seq<OtherAmount>): real
  {
    if |s| == 0 then 0.0
    else
      var last := s[|s| - 1];
      CountedOtherAmountsTotal(s[..|s| - 1]) + if CountsOtherAmount(last) then last.amount.value else 0.0
  }

  function CountedPaymentsTotal(s: seq<Payment>): real
  {
    if |s| == 0 then 0.0
    else
      var last := s[|s| - 1];
      CountedPaymentsTotal(s[..|s| - 1]) + if CountsPayment(last) then last.amount.value else 0.0
  }

  /** Summing the filtered other amounts sums the counted entries of the input, each as often as it occurs. */
  lemma {:induction false} ValidOtherAmountsTotal(s: seq<OtherAmount>)
    ensures SumOtherAmounts(ValidOtherAmounts(s)) == CountedOtherAmountsTotal(s)
    decreases |s|
  {
    if |s| > 0 {
      var front, last := s[..|s| - 1], s[|s| - 1];
      ValidOtherAmountsTotal(front);
      assert s == front + [last];
      ValidOtherAmountsConcat(front, [last]);
      assert ValidOtherAmounts([last]) == if CountsOtherAmount(last) then [last] else [];
      SumOtherAmountsAppend(ValidOtherAmounts(front), ValidOtherAmounts([last]));
    }
  }

  /** Summing the filtered payments sums the counted entries of the input, each as often as it occurs. */
  lemma {:induction false} ValidPaymentsTotal(s: seq<Payment>)
    ensures SumPayments(ValidPayments(s)) == CountedPaymentsTotal(s)
    decreases |s|
  {
    if |s| > 0 {
      var front, last := s[..|s| - 1], s[|s| - 1];
      ValidPaymentsTotal(front);
      assert s == front + [last];
      ValidPaymentsConcat(front, [last]);
      assert ValidPayments([last]) == if CountsPayment(last) then [last] else [];
      SumPaymentsAppend(ValidPayments(front), ValidPayments([last]));
    }
  }

  /** The counted amounts are all positive, so their total is never negative. */
  lemma {:induction false} SumValidOtherAmountsNonNegative(s: seq<OtherAmount>)
    requires forall i :: 0 <= i < |s| ==> CountsOtherAmount(s[i])
    ensures SumOtherAmounts(s) >= 0.0
    ensures |s| > 0 ==> SumOtherAmounts(s) > 0.0
  {
    if |s| > 0 {
      SumValidOtherAmountsNonNegative(s[..|s| - 1]);
    }
  }

  lemma {:induction false} SumValidPaymentsNonNegative(s: seq<Payment>)
    requires forall i :: 0 <= i < |s| ==> CountsPayment(s[i])
    ensures SumPayments(s) >= 0.0
    ensures |s| > 0 ==> SumPayments(s) > 0.0
  {
    if |s| > 0 {
      SumValidPaymentsNonNegative(s[..|s| - 1]);
    }
  }

  /** The summary block: totals before payments, and the outstanding amount, unclamped. */
  function SummaryOf(grand: real, others: real, payments: real): (s: Summary)
    ensures s.totalDecretalAmountBeforePayments == s.grandTotalMaintenance + s.totalOtherAmounts
    ensures s.finalOutstandingAmount == s.totalDecretalAmountBeforePayments - s.totalPayments
    ensures s.grandTotalMaintenance == grand && s.totalOtherAmounts == others && s.totalPayments == payments
  {
    var before := grand + others;
    Summary(grand, others, before, payments, before - payments)
  }

  /**
   * The report for `d` around the recipients' results `calcs`, whose totals sum to
   * `grand`: only the counted other-amounts and payments are kept and summed, and the
   * summary is built from the three totals. It is created at `now`.
   */
  function Assemble(d: ReportData, calcs: seq<RecipientCalculation>, grand: real, now: int): CalculatedReport
  {
    var others := ValidOtherAmounts(d.otherAmounts.GetOr([]));
    var payments := ValidPayments(d.payments.GetOr([]));
    CalculatedReport(
      CaseDetails(d.courtName, d.partyA, d.partyB, d.cmsNo),
      GeneratorDetails(d.reportGenerator, d.counselName.GetOr("")),
      Period(d.startDate, d.endDate, PeriodDisplay(d.startDate, d.endDate)),
      if d.partiallySatisfied && d.partialSatisfactionDate.Some?
      then Some(PartialSatisfaction(d.partialSatisfactionDate.value, EffectiveStart(d)))
      else None,
      calcs,
      others,
      payments,
      SummaryOf(grand, SumOtherAmounts(others), SumPayments(payments)),
      now)
  }

  /** The whole report the engine computes for `d`, created at `now`. */
  function Decree(addYear: Day -> Day, d: ReportData, now: int): CalculatedReport
    requires Advances(addYear)
  {
    var calcs := RecipientResults(addYear, d, d.recipients);
    Assemble(d, calcs, GrandTotal(calcs), now)
  }

  /** Appending a recipient's result adds its total to the grand total. */
  lemma GrandTotalSnoc(cs: seq<RecipientCalculation>, c: RecipientCalculation)
    ensures GrandTotal(cs + [c]) == GrandTotal(cs) + c.totalRecipientAmount
  {
    assert (cs + [c])[..|cs|] == cs;
  }

  /**
   * The body of the recipient loop: the rate is fast-forwarded when the decree is
   * partially satisfied, then the segments are walked from the effective start.
   */
  method CalculateRecipient(addYear: Day -> Day, d: ReportData, recipient: Recipient, effectiveStartDate: Day)
    returns (calculation: RecipientCalculation)
    requires Advances(addYear)
    requires effectiveStartDate == EffectiveStart(d)
    ensures calculation == RecipientResult(addYear, d, recipient)
  {
    var baseAmount := recipient.amount;
    var currentRate := baseAmount;
    if d.partiallySatisfied && d.partialSatisfactionDate.Some? {
      currentRate := FastForwardRate(addYear, d.startDate, d.partialSatisfactionDate.value,
                                     baseAmount, d.yearlyIncrease, d.increaseType);
    }
    var yearlyBreakdown, totalRecipientAmount, finalRate :=
      WalkSegments(addYear, effectiveStartDate, d.endDate, baseAmount, currentRate,
                   d.yearlyIncrease, d.increaseType);
    calculation := RecipientCalculation(recipient.name, recipient.relationship, baseAmount,
                                        d.increaseType, d.yearlyIncrease, totalRecipientAmount,
                                        finalRate, yearlyBreakdown);
  }

  /**
   * calculateDecree: one pass over the recipients, fast-forwarding each one's rate,
   * walking its segments and adding its total to the grand total; then the filtered
   * totals and the summary. The report it returns is `Decree`.
   */
  method CalculateDecree(addYear: Day -> Day, reportData: ReportData, now: int)
    returns (report: CalculatedReport)
    requires Advances(addYear)
    ensures report == Decree(addYear, reportData, now)
  {
    var d := reportData;
    var effectiveStartDate := EffectiveStart(d);
    var grandTotalMaintenance := 0.0;
    var recipientCalculations: seq<RecipientCalculation> := [];

    for i := 0 to |d.recipients|
      invariant recipientCalculations == RecipientResults(addYear, d, d.recipients[..i])
      invariant grandTotalMaintenance == GrandTotal(recipientCalculations)
    {
      var calculation := CalculateRecipient(addYear, d, d.recipients[i], effectiveStartDate);
      GrandTotalSnoc(recipientCalculations, calculation);
      assert d.recipients[..i + 1][..i] == d.recipients[..i];
      recipientCalculations := recipientCalculations + [calculation];
      grandTotalMaintenance := grandTotalMaintenance + calculation.totalRecipientAmount;
    }
    assert d.recipients[..|d.recipients|] == d.recipients;

    report := Assemble(d, recipientCalculations, grandTotalMaintenance, now);
  }

  // ---------------------------------------------------------------------------
  // What the report promises
  // ---------------------------------------------------------------------------

  /**
   * The summary block: the report keeps exactly the counted other-amounts and payments of
   * the input, in order, and sums them (neither total is negative); the maintenance total
   * is the one given; and the outstanding amount is the maintenance plus the other amounts
   * less the payments, even when that is negative. With nothing counted, both totals are 0
   * and the outstanding amount is the maintenance total.
   */
  lemma AssembleSummary(d: ReportData, calcs: seq<RecipientCalculation>, grand: real, now: int)
    ensures var r := Assemble(d, calcs, grand, now);
            var others, payments := d.otherAmounts.GetOr([]), d.payments.GetOr([]);
            && r.recipientCalculations == calcs
            && r.summary.grandTotalMaintenance == grand
            && r.otherAmounts == ValidOtherAmounts(others)
            && r.payments == ValidPayments(payments)
            && r.summary.totalOtherAmounts == CountedOtherAmountsTotal(others) >= 0.0
            && r.summary.totalPayments == CountedPaymentsTotal(payments) >= 0.0
            && r.summary.finalOutstandingAmount
               == r.summary.grandTotalMaintenance + r.summary.totalOtherAmounts - r.summary.totalPayments
            && ((forall i :: 0 <= i < |others| ==> !CountsOtherAmount(others[i])) ==> r.summary.totalOtherAmounts == 0.0)
            && ((forall i :: 0 <= i < |payments| ==> !CountsPayment(payments[i])) ==> r.summary.totalPayments == 0.0)
            && (d.otherAmounts.GetOr([]) == [] && d.payments.GetOr([]) == [] ==>
                  r.summary.finalOutstandingAmount == grand)
  {
    var r := Assemble(d, calcs, grand, now);
    var others, payments := d.otherAmounts.GetOr([]), d.payments.GetOr([]);
    ValidOtherAmountsKeeps(others);
    ValidPaymentsKeeps(payments);
    SumValidOtherAmountsNonNegative(r.otherAmounts);
    SumValidPaymentsNonNegative(r.payments);
    ValidOtherAmountsTotal(others);
    ValidPaymentsTotal(payments);
  }

  /**
   * The maintenance total is the sum of the recipients' totals, there is one result per
   * recipient in input order, and each recipient's total is the sum of its segments'
   * subtotals.
   */
  lemma DecreeTotals(addYear: Day -> Day, d: ReportData, now: int)
    requires Advances(addYear)
    ensures var r := Decree(addYear, d, now);
            && r.summary.grandTotalMaintenance == GrandTotal(r.recipientCalculations)
            && |r.recipientCalculations| == |d.recipients|
            && (forall i :: 0 <= i < |d.recipients| ==>
                  && r.recipientCalculations[i] == RecipientResult(addYear, d, d.recipients[i])
                  && r.recipientCalculations[i].totalRecipientAmount
                     == SumPeriods(r.recipientCalculations[i].yearlyBreakdown))
  {
    var calcs := RecipientResults(addYear, d, d.recipients);
    AssembleSummary(d, calcs, GrandTotal(calcs), now);
    RecipientResultsPointwise(addYear, d, d.recipients);
  }

  /** Result `i` is the result for recipient `i`: one result per recipient, in input order. */
  lemma {:induction false} RecipientResultsPointwise(addYear: Day -> Day, d: ReportData, rs: seq<Recipient>)
    requires Advances(addYear)
    ensures |RecipientResults(addYear, d, rs)| == |rs|
    ensures forall i :: 0 <= i < |rs| ==> RecipientResults(addYear, d, rs)[i] == RecipientResult(addYear, d, rs[i])
    decreases |rs|
  {
    if |rs| > 0 {
      var front := rs[..|rs| - 1];
      RecipientResultsPointwise(addYear, d, front);
      forall i | 0 <= i < |rs| - 1
        ensures RecipientResults(addYear, d, rs)[i] == RecipientResult(addYear, d, rs[i])
      {
        assert rs[i] == front[i];
      }
    }
  }

  /**
   * The span of one recipient's breakdown: it has no entry exactly when the effective start
   * is after the end date, and then the total is 0 and the current monthly amount is the
   * (possibly fast-forwarded) starting rate; otherwise it starts at the effective start,
   * ends at the end date, and the current monthly amount is the last entry's rate.
   */
  lemma RecipientSpan(addYear: Day -> Day, d: ReportData, r: Recipient)
    requires Advances(addYear)
    ensures var c := RecipientResult(addYear, d, r);
            var b := c.yearlyBreakdown;
            && c.baseAmount == r.amount
            && (|b| == 0 <==> d.endDate < EffectiveStart(d))
            && (|b| == 0 ==> c.totalRecipientAmount == 0.0
                             && c.currentMonthAmount == StartingRate(addYear, d, r.amount))
            && (|b| > 0 ==>
                  && b[0].startDate == EffectiveStart(d)
                  && b[|b| - 1].endDate == d.endDate
                  && c.currentMonthAmount == b[|b| - 1].increasedAmount)
  {
    var r0 := StartingRate(addYear, d, r.amount);
    var e := EffectiveStart(d);
    var segs := Schedule(addYear, e, d.endDate, r0, r.amount, d.yearlyIncrease, d.increaseType);
    ScheduleEmpty(addYear, e, d.endDate, r0, r.amount, d.yearlyIncrease, d.increaseType);
    if e <= d.endDate {
      ScheduleEnds(addYear, e, d.endDate, r0, r.amount, d.yearlyIncrease, d.increaseType);
    }
    FinalRateIsLastRate(addYear, e, d.endDate, r0, r.amount, d.yearlyIncrease, d.increaseType);
    BreakdownEntries(segs, r.amount);
  }

  /** The segments of one recipient's breakdown are contiguous: each starts the day after the previous one ends. */
  lemma RecipientContiguous(addYear: Day -> Day, d: ReportData, r: Recipient)
    requires Advances(addYear)
    ensures var b := RecipientResult(addYear, d, r).yearlyBreakdown;
            forall k :: 0 <= k < |b| - 1 ==> b[k + 1].startDate == b[k].endDate + 1
  {
    var segs := RecipientSchedule(addYear, d, r);
    ScheduleContiguous(addYear, EffectiveStart(d), d.endDate, StartingRate(addYear, d, r.amount),
                       r.amount, d.yearlyIncrease, d.increaseType);
    BreakdownEntries(segs, r.amount);
  }

  /**
   * Each segment of one recipient's breakdown lies within the period and ends the day
   * before the anniversary of its own start, or at the end date.
   */
  lemma RecipientSegments(addYear: Day -> Day, d: ReportData, r: Recipient)
    requires Advances(addYear)
    ensures var b := RecipientResult(addYear, d, r).yearlyBreakdown;
            forall k :: 0 <= k < |b| ==>
              && EffectiveStart(d) <= b[k].startDate <= b[k].endDate <= d.endDate
              && b[k].endDate == (if addYear(b[k].startDate) <= d.endDate
                                  then addYear(b[k].startDate) - 1 else d.endDate)
  {
    var segs := RecipientSchedule(addYear, d, r);
    ScheduleBounds(addYear, EffectiveStart(d), d.endDate, StartingRate(addYear, d, r.amount),
                   r.amount, d.yearlyIncrease, d.increaseType);
    BreakdownEntries(segs, r.amount);
  }

  /**
   * Entry `k` of one recipient's breakdown is labelled `k + 1`, records the base amount,
   * and its subtotal is its rate times its inclusive day count in months of 30.4375 days.
   */
  lemma RecipientEntries(addYear: Day -> Day, d: ReportData, r: Recipient)
    requires Advances(addYear)
    ensures var b := RecipientResult(addYear, d, r).yearlyBreakdown;
            forall k :: 0 <= k < |b| ==>
              && b[k].year == YearLabel(k + 1)
              && b[k].basicAmount == r.amount
              && b[k].totalPeriod == Subtotal(b[k].increasedAmount, b[k].startDate, b[k].endDate)
  {
    var r0 := StartingRate(addYear, d, r.amount);
    var segs := Schedule(addYear, EffectiveStart(d), d.endDate, r0, r.amount, d.yearlyIncrease, d.increaseType);
    BreakdownEntries(segs, r.amount);
  }

  /** Entry `k` of one recipient's breakdown is charged at the starting rate escalated `k` times. */
  lemma RecipientRates(addYear: Day -> Day, d: ReportData, r: Recipient)
    requires Advances(addYear)
    ensures var b := RecipientResult(addYear, d, r).yearlyBreakdown;
            forall k :: 0 <= k < |b| ==>
              b[k].increasedAmount
              == Escalated(StartingRate(addYear, d, r.amount), r.amount, d.yearlyIncrease, d.increaseType, k)
  {
    var r0 := StartingRate(addYear, d, r.amount);
    var e := EffectiveStart(d);
    var segs := Schedule(addYear, e, d.endDate, r0, r.amount, d.yearlyIncrease, d.increaseType);
    ScheduleRates(addYear, e, d.endDate, r0, r.amount, d.yearlyIncrease, d.increaseType);
    BreakdownEntries(segs, r.amount);
  }

  /**
   * The rate of entry `k` (see `RecipientRates`) in closed form, counting the anniversaries
   * passed before the walk as `m`: progressive gives `base * (1 + p/100)^(m + k)`, fixed
   * gives `base + (m + k) * base * p/100`.
   */
  lemma EntryRateClosedForm(addYear: Day -> Day, d: ReportData, base: real, k: nat)
    requires Advances(addYear)
    ensures var pct := d.yearlyIncrease;
            var m := AnniversariesBeforeWalk(addYear, d);
            var rate := Escalated(StartingRate(addYear, d, base), base, pct, d.increaseType, k);
            && (d.increaseType == Progressive ==> rate == base * Pow(1.0 + pct / 100.0, m + k))
            && (d.increaseType == Fixed ==> rate == base + ((m + k) as real) * (base * pct / 100.0))
  {
    var pct, kind := d.yearlyIncrease, d.increaseType;
    var m := AnniversariesBeforeWalk(addYear, d);
    EscalatedAdd(base, base, pct, kind, m, k);
    if kind == Progressive {
      ProgressiveEscalation(base, base, pct, m + k);
    } else {
      FixedEscalation(base, base, pct, m + k);
    }
  }
}
