/** Slot-seconds that were free while work was waiting: a sweep over the moments a run starts or ends,
    shown to be the integral, instant by instant, of the slots that were free and wanted. */
module IdleSlots {
  datatype Run = Run(started: int, completed: int)

  function Total(rows: seq<Run>, weight: Run -> int): int {
    if rows == [] then 0 else weight(rows[0]) + Total(rows[1..], weight)
  }

  function RunsAt(t: int): Run -> int {
    (r: Run) => if r.started <= t < r.completed then 1 else 0
  }

  function WaitsAt(t: int): Run -> int {
    (r: Run) => if r.started > t then 1 else 0
  }

  /** What one instant contributes: the free slots, capped by the work still to be claimed. */
  function Wanted(rows: seq<Run>, slots: int, t: int): int {
    var busy, waiting := Total(rows, RunsAt(t)), Total(rows, WaitsAt(t));
    if waiting != 0 && busy < slots then (if slots - busy < waiting then slots - busy else waiting) else 0
  }

  /*******************************************************************************
   *  The moments
   *******************************************************************************/

  ghost predicate StrictlyAscending(s: seq<int>) {
    forall i, j | 0 <= i < j < |s| :: s[i] < s[j]
  }

  lemma FirstIsLeast(s: seq<int>)
    requires StrictlyAscending(s) && s != []
    ensures StrictlyAscending(s[1..])
    ensures forall y | y in s[1..] :: s[0] < y
  {
    forall y | y in s[1..] ensures s[0] < y {
      var i :| 0 <= i < |s[1..]| && s[1..][i] == y;
      assert y == s[i + 1];
    }
  }

  function Insert(s: seq<int>, x: int): (r: seq<int>)
    requires StrictlyAscending(s)
    ensures StrictlyAscending(r) && forall y :: y in r <==> y in s || y == x
  {
    if s == [] || x < s[0] then [x] + s
    else if x == s[0] then s
    else
      FirstIsLeast(s);
      var rest := Insert(s[1..], x);
      assert forall j | 0 <= j < |rest| :: rest[j] in rest;
      [s[0]] + rest
  }

  predicate IsMoment(rows: seq<Run>, t: int) {
    exists i :: 0 <= i < |rows| && (rows[i].started == t || rows[i].completed == t)
  }

  /** `sorted` over the set of all starts and ends. */
  function Moments(rows: seq<Run>): (r: seq<int>)
    ensures StrictlyAscending(r) && (forall t :: t in r <==> IsMoment(rows, t))
    ensures rows != [] ==> r != []
  {
    if rows == [] then []
    else
      var r := Insert(Insert(Moments(rows[1..]), rows[0].started), rows[0].completed);
      MomentsOfTail(rows);
      assert rows[0].started in r;
      r
  }

  lemma MomentsOfTail(rows: seq<Run>)
    requires rows != []
    ensures forall t :: IsMoment(rows, t) <==> rows[0].started == t || rows[0].completed == t || IsMoment(rows[1..], t)
  {
    forall t | IsMoment(rows[1..], t) ensures IsMoment(rows, t) {
      var i :| 0 <= i < |rows[1..]| && (rows[1..][i].started == t || rows[1..][i].completed == t);
      assert rows[i + 1] == rows[1..][i];
    }
    forall t | IsMoment(rows, t) && rows[0].started != t && rows[0].completed != t ensures IsMoment(rows[1..], t) {
      var i :| 0 <= i < |rows| && (rows[i].started == t || rows[i].completed == t);
      assert rows[1..][i - 1] == rows[i];
    }
  }

  /*******************************************************************************
   *  Integrals over unit instants
   *******************************************************************************/

  function Over(curve: int -> int, lo: int, hi: int): int
    decreases hi - lo
  {
    if hi <= lo then 0 else Over(curve, lo, hi - 1) + curve(hi - 1)
  }

  function WantedCurve(rows: seq<Run>, slots: int): int -> int {
    t => Wanted(rows, slots, t)
  }

  function BusyCurve(rows: seq<Run>): int -> int {
    t => Total(rows, RunsAt(t))
  }

  function WaitCurve(rows: seq<Run>): int -> int {
    t => Total(rows, WaitsAt(t))
  }

  lemma {:induction false} OverSplits(curve: int -> int, lo: int, mid: int, hi: int)
    requires lo <= mid <= hi
    ensures Over(curve, lo, hi) == Over(curve, lo, mid) + Over(curve, mid, hi)
    decreases hi - mid
  {
    if mid < hi {
      OverSplits(curve, lo, mid, hi - 1);
    }
  }

  lemma {:induction false} OverConstant(curve: int -> int, lo: int, hi: int, height: int)
    requires lo <= hi && forall t | lo <= t < hi :: curve(t) == height
    ensures Over(curve, lo, hi) == height * (hi - lo)
    decreases hi - lo
  {
    if lo < hi {
      OverConstant(curve, lo, hi - 1, height);
      assert height * (hi - 1 - lo) + height == height * (hi - lo);
    }
  }

  lemma {:induction false} OverBounded(curve: int -> int, bound: int -> int, lo: int, hi: int)
    requires forall t | lo <= t < hi :: curve(t) <= bound(t)
    ensures Over(curve, lo, hi) <= Over(bound, lo, hi)
    decreases hi - lo
  {
    if lo < hi {
      OverBounded(curve, bound, lo, hi - 1);
    }
  }

  lemma {:induction false} OverAdds(a: int -> int, b: int -> int, sum: int -> int, lo: int, hi: int)
    requires forall t | lo <= t < hi :: sum(t) == a(t) + b(t)
    ensures Over(sum, lo, hi) == Over(a, lo, hi) + Over(b, lo, hi)
    decreases hi - lo
  {
    if lo < hi {
      OverAdds(a, b, sum, lo, hi - 1);
    }
  }

  lemma {:induction false} TotalSame(rows: seq<Run>, a: Run -> int, b: Run -> int)
    requires forall r | r in rows :: a(r) == b(r)
    ensures Total(rows, a) == Total(rows, b)
  {
    if rows != [] {
      TotalSame(rows[1..], a, b);
    }
  }

  lemma AdjacentGap(s: seq<int>, i: nat, x: int)
    requires StrictlyAscending(s) && 0 < i < |s| && x in s
    ensures x <= s[i - 1] || s[i] <= x
  {
    var k :| 0 <= k < |s| && s[k] == x;
    if k < i - 1 {
      assert s[k] < s[i - 1];
    } else if i < k {
      assert s[i] < s[k];
    }
  }

  /** The moments hold every start and end. */
  ghost predicate Marks(moments: seq<int>, rows: seq<Run>) {
    StrictlyAscending(moments) && forall r | r in rows :: r.started in moments && r.completed in moments
  }

  lemma MomentsMark(rows: seq<Run>)
    ensures Marks(Moments(rows), rows)
  {
    forall r | r in rows ensures r.started in Moments(rows) && r.completed in Moments(rows) {
      assert IsMoment(rows, r.started) && IsMoment(rows, r.completed);
    }
  }

  /** Between two adjacent moments nothing starts and nothing ends, so the curve is flat. */
  lemma FlatBetweenMoments(rows: seq<Run>, slots: int, moments: seq<int>, i: nat, t: int)
    requires Marks(moments, rows) && 0 < i < |moments| && moments[i - 1] <= t < moments[i]
    ensures Wanted(rows, slots, t) == Wanted(rows, slots, moments[i - 1])
  {
    var from := moments[i - 1];
    forall r | r in rows
      ensures RunsAt(t)(r) == RunsAt(from)(r) && WaitsAt(t)(r) == WaitsAt(from)(r)
    {
      AdjacentGap(moments, i, r.started);
      AdjacentGap(moments, i, r.completed);
    }
    TotalSame(rows, RunsAt(t), RunsAt(from));
    TotalSame(rows, WaitsAt(t), WaitsAt(from));
  }

  lemma StepIntegral(rows: seq<Run>, slots: int, moments: seq<int>, i: nat)
    requires Marks(moments, rows) && 0 < i < |moments|
    ensures Over(WantedCurve(rows, slots), moments[0], moments[i])
         == Over(WantedCurve(rows, slots), moments[0], moments[i - 1])
            + Wanted(rows, slots, moments[i - 1]) * (moments[i] - moments[i - 1])
  {
    forall t | moments[i - 1] <= t < moments[i]
      ensures WantedCurve(rows, slots)(t) == Wanted(rows, slots, moments[i - 1])
    {
      FlatBetweenMoments(rows, slots, moments, i, t);
    }
    OverConstant(WantedCurve(rows, slots), moments[i - 1], moments[i], Wanted(rows, slots, moments[i - 1]));
    OverSplits(WantedCurve(rows, slots), moments[0], moments[i - 1], moments[i]);
  }

  /** Every run is claimed by `end`. */
  ghost predicate ClaimsBy(rows: seq<Run>, end: int) {
    forall r | r in rows :: r.started <= end
  }

  lemma {:induction false} NoneWaiting(rows: seq<Run>, t: int)
    requires ClaimsBy(rows, t)
    ensures Total(rows, WaitsAt(t)) == 0
  {
    if rows != [] {
      NoneWaiting(rows[1..], t);
    }
  }

  /** Past the last claim nothing is wanted, so where the reading ends no longer matters. */
  lemma NothingAfterTheLastClaim(rows: seq<Run>, slots: int, first: int, a: int, b: int)
    requires first <= a && first <= b && ClaimsBy(rows, a) && ClaimsBy(rows, b)
    ensures Over(WantedCurve(rows, slots), first, a) == Over(WantedCurve(rows, slots), first, b)
    decreases b < a
  {
    if b < a {
      NothingAfterTheLastClaim(rows, slots, first, b, a);
    } else {
      forall t | a <= t < b ensures WantedCurve(rows, slots)(t) == 0 {
        NoneWaiting(rows, t);
      }
      OverConstant(WantedCurve(rows, slots), a, b, 0);
      OverSplits(WantedCurve(rows, slots), first, a, b);
    }
  }

  function Earlier(a: int, b: int): int {
    if a < b then a else b
  }

  function Later(a: int, b: int): int {
    if a < b then b else a
  }

  function First(rows: seq<Run>): int
    requires rows != []
  {
    var own := Earlier(rows[0].started, rows[0].completed);
    if |rows| == 1 then own else Earlier(own, First(rows[1..]))
  }

  function Last(rows: seq<Run>): int
    requires rows != []
  {
    var own := Later(rows[0].started, rows[0].completed);
    if |rows| == 1 then own else Later(own, Last(rows[1..]))
  }

  /** The figure, read as the integral it is: over every unit instant from the first moment on, what
      that instant contributes. */
  function IdleSlotSeconds(rows: seq<Run>, slots: int): int {
    if rows == [] then 0 else Over(WantedCurve(rows, slots), First(rows), Last(rows))
  }

  lemma {:induction false} Extremes(rows: seq<Run>)
    requires rows != []
    ensures IsMoment(rows, First(rows)) && IsMoment(rows, Last(rows))
    ensures forall t | IsMoment(rows, t) :: First(rows) <= t <= Last(rows)
  {
    MomentsOfTail(rows);
    if |rows| > 1 {
      Extremes(rows[1..]);
    }
  }

  /** The sweep runs from the first moment to the last. */
  lemma MomentsSpan(rows: seq<Run>, moments: seq<int>)
    requires rows != [] && moments != [] && StrictlyAscending(moments)
    requires forall t :: t in moments <==> IsMoment(rows, t)
    ensures moments[0] == First(rows) && moments[|moments| - 1] == Last(rows)
  {
    Extremes(rows);
    var i :| 0 <= i < |moments| && moments[i] == First(rows);
    var j :| 0 <= j < |moments| && moments[j] == Last(rows);
    assert moments[0] in moments && moments[|moments| - 1] in moments;
  }

  /*******************************************************************************
   *  The sweep
   *******************************************************************************/

  /** `build_idle_slot_seconds` computes the integral. */
  method BuildIdleSlotSeconds(rows: seq<Run>, slots: int) returns (idle: int)
    ensures idle == IdleSlotSeconds(rows, slots)
  {
    idle := 0;
    if rows == [] {
      return;
    }
    var moments := Moments(rows);
    MomentsMark(rows);
    MomentsSpan(rows, moments);
    idle := SweepMoments(rows, slots, moments);
  }

  method SweepMoments(rows: seq<Run>, slots: int, moments: seq<int>) returns (idle: int)
    requires Marks(moments, rows) && moments != []
    ensures idle == Over(WantedCurve(rows, slots), moments[0], moments[|moments| - 1])
  {
    idle := 0;
    for i := 1 to |moments|
      invariant idle == Over(WantedCurve(rows, slots), moments[0], moments[i - 1])
    {
      StepIntegral(rows, slots, moments, i);
      var share := SlotSecondsBetween(rows, slots, moments[i - 1], moments[i]);
      idle := idle + share;
    }
  }

  method SlotSecondsBetween(rows: seq<Run>, slots: int, since: int, closed: int) returns (share: int)
    ensures share == Wanted(rows, slots, since) * (closed - since)
  {
    var busy, waiting := Total(rows, RunsAt(since)), Total(rows, WaitsAt(since));
    share := 0;
    if waiting != 0 && busy < slots {
      var wanted := if slots - busy < waiting then slots - busy else waiting;
      share := wanted * (closed - since);
    }
  }

  /** Where the reading ends does not matter, from the last claim on. */
  lemma NothingCountsPastTheLastClaim(rows: seq<Run>, slots: int, end: int)
    requires rows != [] && ClaimsBy(rows, end) && First(rows) <= end
    ensures IdleSlotSeconds(rows, slots) == Over(WantedCurve(rows, slots), First(rows), end)
  {
    Extremes(rows);
    forall r | r in rows ensures r.started <= Last(rows) {
      assert IsMoment(rows, r.started);
    }
    NothingAfterTheLastClaim(rows, slots, First(rows), Last(rows), end);
  }

  /*******************************************************************************
   *  What the figure means
   *******************************************************************************/

  lemma {:induction false} TotalRemove(rows: seq<Run>, i: nat, weight: Run -> int)
    requires i < |rows|
    ensures Total(rows, weight) == weight(rows[i]) + Total(rows[..i] + rows[i + 1..], weight)
  {
    if i == 0 {
      assert rows[..0] + rows[1..] == rows[1..];
    } else {
      TotalRemove(rows[1..], i - 1, weight);
      assert rows[1..][..i - 1] + rows[1..][i..] == (rows[..i] + rows[i + 1..])[1..];
    }
  }

  lemma {:induction false} TotalOfAPermutation(a: seq<Run>, b: seq<Run>, weight: Run -> int)
    requires multiset(a) == multiset(b)
    ensures Total(a, weight) == Total(b, weight)
  {
    if a == [] {
      assert |multiset(b)| == 0;
    } else {
      assert a[0] in multiset(b);
      var i :| 0 <= i < |b| && b[i] == a[0];
      TotalRemove(b, i, weight);
      assert a == [a[0]] + a[1..];
      assert b == b[..i] + [b[i]] + b[i + 1..];
      assert multiset(a) == multiset{a[0]} + multiset(a[1..]);
      assert multiset(b) == multiset(b[..i]) + multiset{b[i]} + multiset(b[i + 1..]);
      assert multiset(b[..i] + b[i + 1..]) == multiset(b[..i]) + multiset(b[i + 1..]);
      assert multiset(a[1..]) == multiset(a) - multiset{a[0]};
      TotalOfAPermutation(a[1..], b[..i] + b[i + 1..], weight);
    }
  }

  lemma {:induction false} OverSame(a: int -> int, b: int -> int, lo: int, hi: int)
    requires forall t | lo <= t < hi :: a(t) == b(t)
    ensures Over(a, lo, hi) == Over(b, lo, hi)
    decreases hi - lo
  {
    if lo < hi {
      OverSame(a, b, lo, hi - 1);
    }
  }

  /** The order the rows are read in does not matter. */
  lemma RowOrderDoesNotMatter(a: seq<Run>, b: seq<Run>, slots: int)
    requires multiset(a) == multiset(b)
    ensures IdleSlotSeconds(a, slots) == IdleSlotSeconds(b, slots)
  {
    assert |a| == |multiset(a)| == |b|;
    if a != [] {
      forall r ensures r in a <==> r in b {
        assert r in a <==> r in multiset(a);
        assert r in b <==> r in multiset(b);
      }
      SameMoments(a, b);
      Extremes(a);
      Extremes(b);
      forall t ensures WantedCurve(a, slots)(t) == WantedCurve(b, slots)(t) {
        TotalOfAPermutation(a, b, RunsAt(t));
        TotalOfAPermutation(a, b, WaitsAt(t));
      }
      OverSame(WantedCurve(a, slots), WantedCurve(b, slots), First(a), Last(a));
    }
  }

  lemma SameMoments(a: seq<Run>, b: seq<Run>)
    requires forall r | r in a :: r in b
    requires forall r | r in b :: r in a
    ensures forall t :: IsMoment(a, t) <==> IsMoment(b, t)
  {
    forall t ensures IsMoment(a, t) <==> IsMoment(b, t) {
      if i :| 0 <= i < |a| && (a[i].started == t || a[i].completed == t) {
        assert a[i] in b;
      }
      if i :| 0 <= i < |b| && (b[i].started == t || b[i].completed == t) {
        assert b[i] in a;
      }
    }
  }

  function Shifted(rows: seq<Run>, offset: int): (r: seq<Run>)
    ensures |r| == |rows| && forall i | 0 <= i < |rows| :: r[i] == Run(rows[i].started + offset, rows[i].completed + offset)
  {
    if rows == [] then [] else [Run(rows[0].started + offset, rows[0].completed + offset)] + Shifted(rows[1..], offset)
  }

  lemma {:induction false} ShiftedCounts(rows: seq<Run>, offset: int, t: int)
    ensures Total(Shifted(rows, offset), RunsAt(t + offset)) == Total(rows, RunsAt(t))
    ensures Total(Shifted(rows, offset), WaitsAt(t + offset)) == Total(rows, WaitsAt(t))
  {
    if rows != [] {
      ShiftedCounts(rows[1..], offset, t);
      assert Shifted(rows, offset)[1..] == Shifted(rows[1..], offset);
    }
  }

  lemma ShiftedWanted(rows: seq<Run>, offset: int, slots: int, t: int)
    ensures Wanted(Shifted(rows, offset), slots, t + offset) == Wanted(rows, slots, t)
  {
    ShiftedCounts(rows, offset, t);
  }

  lemma {:induction false} ShiftedIntegral(rows: seq<Run>, offset: int, slots: int, lo: int, hi: int)
    ensures Over(WantedCurve(Shifted(rows, offset), slots), lo + offset, hi + offset) == Over(WantedCurve(rows, slots), lo, hi)
    decreases hi - lo
  {
    if lo < hi {
      ShiftedIntegral(rows, offset, slots, lo, hi - 1);
      ShiftedWanted(rows, offset, slots, hi - 1);
    }
  }

  lemma {:induction false} ShiftedEnds(rows: seq<Run>, offset: int)
    requires rows != []
    ensures First(Shifted(rows, offset)) == First(rows) + offset && Last(Shifted(rows, offset)) == Last(rows) + offset
  {
    if |rows| > 1 {
      ShiftedEnds(rows[1..], offset);
      assert Shifted(rows, offset)[1..] == Shifted(rows[1..], offset);
    }
  }

  /** Only durations matter, not when the drain happened. */
  lemma TimeShiftDoesNotMatter(rows: seq<Run>, offset: int, slots: int)
    ensures IdleSlotSeconds(Shifted(rows, offset), slots) == IdleSlotSeconds(rows, slots)
  {
    if rows != [] {
      ShiftedEnds(rows, offset);
      ShiftedIntegral(rows, offset, slots, First(rows), Last(rows));
    }
  }

  /** Runs as a drain makes them, within its window. */
  ghost predicate Within(rows: seq<Run>, lo: int, hi: int) {
    forall r | r in rows :: lo <= r.started <= r.completed <= hi
  }

  function Duration(): Run -> int {
    (r: Run) => r.completed - r.started
  }

  function WaitSince(lo: int): Run -> int {
    (r: Run) => r.started - lo
  }

  /** Counting busy slots instant by instant and adding up the runs' durations give one number, and so
      do counting waiting runs and adding up how long each waited. */
  lemma {:induction false} DoubleCounting(rows: seq<Run>, lo: int, hi: int)
    requires Within(rows, lo, hi)
    ensures Over(BusyCurve(rows), lo, hi) == Total(rows, Duration())
    ensures Over(WaitCurve(rows), lo, hi) == Total(rows, WaitSince(lo))
  {
    if rows == [] {
      if lo <= hi {
        OverConstant(BusyCurve(rows), lo, hi, 0);
        OverConstant(WaitCurve(rows), lo, hi, 0);
      }
    } else {
      var r, rest := rows[0], rows[1..];
      DoubleCounting(rest, lo, hi);
      SingleRun(r, lo, hi);
      OverAdds(BusyOf(r), BusyCurve(rest), BusyCurve(rows), lo, hi);
      OverAdds(WaitOf(r), WaitCurve(rest), WaitCurve(rows), lo, hi);
    }
  }

  function BusyOf(r: Run): int -> int {
    t => if r.started <= t < r.completed then 1 else 0
  }

  function WaitOf(r: Run): int -> int {
    t => if r.started > t then 1 else 0
  }

  lemma SingleRun(r: Run, lo: int, hi: int)
    requires lo <= r.started <= r.completed <= hi
    ensures Over(BusyOf(r), lo, hi) == r.completed - r.started
    ensures Over(WaitOf(r), lo, hi) == r.started - lo
  {
    var busy, waits := BusyOf(r), WaitOf(r);
    assert forall t :: busy(t) == if r.started <= t < r.completed then 1 else 0;
    assert forall t :: waits(t) == if r.started > t then 1 else 0;
    OverSplits(busy, lo, r.started, hi);
    OverSplits(busy, r.started, r.completed, hi);
    OverConstant(busy, lo, r.started, 0);
    OverConstant(busy, r.started, r.completed, 1);
    OverConstant(busy, r.completed, hi, 0);
    OverSplits(waits, lo, r.started, hi);
    OverConstant(waits, lo, r.started, 1);
    OverConstant(waits, r.started, hi, 0);
  }

  /** The figure is never negative and never more than the time tasks spent waiting. */
  lemma IdleIsCappedByWaiting(rows: seq<Run>, slots: int)
    requires rows != [] && forall r | r in rows :: r.started <= r.completed
    ensures 0 <= IdleSlotSeconds(rows, slots) <= Total(rows, WaitSince(First(rows)))
  {
    var lo, hi := First(rows), Last(rows);
    WithinItsMoments(rows);
    DoubleCounting(rows, lo, hi);
    forall t ensures 0 <= WantedCurve(rows, slots)(t) <= WaitCurve(rows)(t) {
      CountsAreNatural(rows, t);
    }
    var nothing := (t: int) => 0;
    OverBounded(WantedCurve(rows, slots), WaitCurve(rows), lo, hi);
    OverBounded(nothing, WantedCurve(rows, slots), lo, hi);
    OverConstant(nothing, lo, hi, 0);
  }

  lemma WantedFitsBesideBusy(rows: seq<Run>, slots: int, lo: int, hi: int)
    requires lo <= hi && forall t :: Total(rows, RunsAt(t)) <= slots
    ensures Over(WantedCurve(rows, slots), lo, hi) + Over(BusyCurve(rows), lo, hi) <= slots * (hi - lo)
  {
    var both, all := (t: int) => Wanted(rows, slots, t) + Total(rows, RunsAt(t)), (t: int) => slots;
    OverAdds(WantedCurve(rows, slots), BusyCurve(rows), both, lo, hi);
    OverBounded(both, all, lo, hi);
    OverConstant(all, lo, hi, slots);
  }

  /** When no more than `slots` runs ever overlap, the figure and the time spent running fit together
      in what the slots offered over the drain. */
  lemma IdleAndBusyFitTheSlots(rows: seq<Run>, slots: int)
    requires rows != [] && forall r | r in rows :: r.started <= r.completed
    requires forall t :: Total(rows, RunsAt(t)) <= slots
    ensures IdleSlotSeconds(rows, slots) + Total(rows, Duration()) <= slots * (Last(rows) - First(rows))
  {
    WithinItsMoments(rows);
    DoubleCounting(rows, First(rows), Last(rows));
    WantedFitsBesideBusy(rows, slots, First(rows), Last(rows));
  }

  /** Free slots beyond the work waiting, and work waiting beyond the free slots. */
  function SpareCurve(rows: seq<Run>, slots: int): int -> int {
    (t: int) => Positive(slots - Total(rows, RunsAt(t)) - Total(rows, WaitsAt(t)))
  }

  function QueuedCurve(rows: seq<Run>, slots: int): int -> int {
    (t: int) => Positive(Total(rows, WaitsAt(t)) - Positive(slots - Total(rows, RunsAt(t))))
  }

  function Positive(n: int): int {
    if n < 0 then 0 else n
  }

  /** Every slot-second of the drain is busy, idle and wanted, or spare: nothing else and nothing twice. */
  lemma SlotSecondsAreConserved(rows: seq<Run>, slots: int)
    requires rows != [] && forall r | r in rows :: r.started <= r.completed
    requires forall t :: Total(rows, RunsAt(t)) <= slots
    ensures IdleSlotSeconds(rows, slots) + Total(rows, Duration()) + Over(SpareCurve(rows, slots), First(rows), Last(rows))
            == slots * (Last(rows) - First(rows))
  {
    WithinItsMoments(rows);
    DoubleCounting(rows, First(rows), Last(rows));
    SlotsSplit(rows, slots, First(rows), Last(rows));
  }

  lemma InstantSplits(rows: seq<Run>, slots: int, t: int)
    requires Total(rows, RunsAt(t)) <= slots
    ensures WantedCurve(rows, slots)(t) + BusyCurve(rows)(t) + SpareCurve(rows, slots)(t) == slots
  {
    CountsAreNatural(rows, t);
  }

  lemma {:induction false} SlotsSplit(rows: seq<Run>, slots: int, lo: int, hi: int)
    requires lo <= hi && forall t :: Total(rows, RunsAt(t)) <= slots
    ensures Over(WantedCurve(rows, slots), lo, hi) + Over(BusyCurve(rows), lo, hi) + Over(SpareCurve(rows, slots), lo, hi)
            == slots * (hi - lo)
    decreases hi - lo
  {
    if lo < hi {
      SlotsSplit(rows, slots, lo, hi - 1);
      InstantSplits(rows, slots, hi - 1);
      assert slots * (hi - 1 - lo) + slots == slots * (hi - lo);
    }
  }

  /** Every second a task waited had a free slot to take, or had none. */
  lemma WaitingIsConserved(rows: seq<Run>, slots: int)
    requires rows != [] && forall r | r in rows :: r.started <= r.completed
    ensures IdleSlotSeconds(rows, slots) + Over(QueuedCurve(rows, slots), First(rows), Last(rows))
            == Total(rows, WaitSince(First(rows)))
  {
    var lo, hi := First(rows), Last(rows);
    WithinItsMoments(rows);
    DoubleCounting(rows, lo, hi);
    forall t ensures Wanted(rows, slots, t) + QueuedCurve(rows, slots)(t) == Total(rows, WaitsAt(t)) {
      CountsAreNatural(rows, t);
    }
    OverAdds(WantedCurve(rows, slots), QueuedCurve(rows, slots), WaitCurve(rows), lo, hi);
  }

  lemma {:induction false} CountsAreNatural(rows: seq<Run>, t: int)
    ensures 0 <= Total(rows, RunsAt(t)) && 0 <= Total(rows, WaitsAt(t))
  {
    if rows != [] {
      CountsAreNatural(rows[1..], t);
    }
  }

  lemma WithinItsMoments(rows: seq<Run>)
    requires rows != [] && forall r | r in rows :: r.started <= r.completed
    ensures Within(rows, First(rows), Last(rows)) && First(rows) <= Last(rows)
  {
    Extremes(rows);
    forall r | r in rows ensures First(rows) <= r.started && r.completed <= Last(rows) {
      assert IsMoment(rows, r.started) && IsMoment(rows, r.completed);
    }
  }
}
