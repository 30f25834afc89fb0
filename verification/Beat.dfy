/** The beat loop: which cron occurrences it fires and which it skips, under a clock that may read
    anything, and why two racing beats still spawn each due time once. */
module Beat {
  import opened Text

  /** `get_next_datetime`: the next occurrence of a cron after an instant, in microseconds. */
  type Calendar = (string, int) -> int

  /** The least occurrence strictly after `t`: no instant in between has a next occurrence of its own. */
  ghost predicate LeastAfter(next: Calendar, cron: string, t: int) {
    t < next(cron, t) && forall u | t <= u < next(cron, t) :: next(cron, u) == next(cron, t)
  }

  ghost predicate IsCalendar(next: Calendar) {
    forall cron, t :: LeastAfter(next, cron, t)
  }

  predicate Occurs(next: Calendar, cron: string, u: int) {
    next(cron, u - 1) == u
  }

  /** One firing: the due time it was for, and what the clock read in that pass. */
  datatype Firing = Firing(due: int, seenAt: int)

  function NextAfter(next: Calendar, cron: string, start: int, fired: seq<Firing>): int {
    next(cron, if fired == [] then start else fired[|fired| - 1].seenAt)
  }

  /** A log of firings as the loop makes them: each one due by the clock it was seen at, and for the
      occurrence right after what the previous firing's pass saw. */
  ghost predicate Chain(next: Calendar, cron: string, start: int, fired: seq<Firing>) {
    fired == []
    || (var front, last := fired[..|fired| - 1], fired[|fired| - 1];
        last.due == NextAfter(next, cron, start, front) && last.due <= last.seenAt && Chain(next, cron, start, front))
  }

  /** One turn of the loop as the outside makes it: whether `stop` is set at its head, what the clock
      reads before the wait, whether the wait ends with a stop, and what the clock reads after it. */
  datatype Pass = Pass(stopped: bool, before: int, waitStops: bool, current: int)

  /** What an entry fires over some passes; nothing but its own cron and the clock's readings matter. */
  function FiredOver(next: Calendar, cron: string, start: int, passes: seq<Pass>): seq<Firing> {
    if passes == [] then []
    else
      var fired, current := FiredOver(next, cron, start, passes[..|passes| - 1]), passes[|passes| - 1].current;
      var due := NextAfter(next, cron, start, fired);
      if due <= current then fired + [Firing(due, current)] else fired
  }

  /*******************************************************************************
   *  The loop
   *******************************************************************************/

  class BeatEntry {
    const cron: string
    var nextAt: int
    var fired: seq<Firing>

    constructor (next: Calendar, cron: string, moment: int)
      ensures this.cron == cron && Follows(next, moment, [])
    {
      this.cron := cron;
      nextAt := next(cron, moment);
      fired := [];
    }

    /** The entry is as the passes so far leave it. */
    ghost predicate Follows(next: Calendar, start: int, passes: seq<Pass>)
      reads this
    {
      fired == FiredOver(next, cron, start, passes) && nextAt == NextAfter(next, cron, start, fired)
    }

    /** One look at the entry in a pass. */
    method Visit(next: Calendar, ghost start: int, ghost passes: seq<Pass>, pass: Pass)
      requires Follows(next, start, passes)
      modifies this
      ensures Follows(next, start, passes + [pass])
    {
      assert (passes + [pass])[..|passes|] == passes;
      if nextAt <= pass.current {
        fired := fired + [Firing(nextAt, pass.current)];
        nextAt := next(cron, pass.current);
      }
    }
  }

  method Earliest(entries: seq<BeatEntry>) returns (earliest: int)
    requires entries != []
    ensures forall i | 0 <= i < |entries| :: earliest <= entries[i].nextAt
    ensures exists i :: 0 <= i < |entries| && earliest == entries[i].nextAt
  {
    earliest := entries[0].nextAt;
    for i := 1 to |entries|
      invariant forall k | 0 <= k < i :: earliest <= entries[k].nextAt
      invariant exists k :: 0 <= k < i && earliest == entries[k].nextAt
    {
      if entries[i].nextAt < earliest {
        earliest := entries[i].nextAt;
      }
    }
  }

  ghost predicate AllFollow(next: Calendar, start: int, entries: seq<BeatEntry>, passes: seq<Pass>)
    reads entries
  {
    forall i | 0 <= i < |entries| :: entries[i].Follows(next, start, passes)
  }

  method VisitAll(next: Calendar, ghost start: int, entries: seq<BeatEntry>, ghost passes: seq<Pass>, pass: Pass)
    requires forall i, j | 0 <= i < j < |entries| :: entries[i] != entries[j]
    requires AllFollow(next, start, entries, passes)
    modifies entries
    ensures AllFollow(next, start, entries, passes + [pass])
  {
    ghost var after := passes + [pass];
    for i := 0 to |entries|
      invariant forall k | 0 <= k < i :: entries[k].Follows(next, start, after)
      invariant forall k | i <= k < |entries| :: entries[k].Follows(next, start, passes)
    {
      entries[i].Visit(next, start, passes, pass);
    }
  }

  ghost predicate NothingDue(entries: seq<BeatEntry>, moment: int)
    reads entries
  {
    forall i | 0 <= i < |entries| :: moment < entries[i].nextAt
  }

  /** One turn of the loop: it stops only while waiting for an entry that is not due yet. */
  method TakePass(next: Calendar, ghost start: int, entries: seq<BeatEntry>, ghost passes: seq<Pass>, pass: Pass)
    returns (stopped: bool)
    requires entries != [] && forall i, j | 0 <= i < j < |entries| :: entries[i] != entries[j]
    requires AllFollow(next, start, entries, passes)
    modifies entries
    ensures stopped ==> pass.waitStops && NothingDue(entries, pass.before) && AllFollow(next, start, entries, passes)
    ensures !stopped ==> AllFollow(next, start, entries, passes + [pass])
    ensures stopped <==> pass.waitStops && old(NothingDue(entries, pass.before))
  {
    var earliest := Earliest(entries);
    var delay := earliest - pass.before;
    stopped := delay > 0 && pass.waitStops;
    if !stopped {
      VisitAll(next, start, entries, passes, pass);
    }
  }

  /** `run_beat` over a script of passes: the number it completes before a stop. Every entry ends as
      those passes say, and the loop ends only at a stop: one set at the head, or one that interrupts
      a wait when nothing is due yet. */
  method RunBeat(next: Calendar, ghost start: int, entries: seq<BeatEntry>, passes: seq<Pass>) returns (completed: nat)
    requires forall i, j | 0 <= i < j < |entries| :: entries[i] != entries[j]
    requires AllFollow(next, start, entries, [])
    modifies entries
    ensures completed <= |passes| && AllFollow(next, start, entries, passes[..completed])
    ensures forall k | 0 <= k < completed :: !passes[k].stopped
    ensures entries != [] && completed < |passes| ==>
              passes[completed].stopped || (passes[completed].waitStops && NothingDue(entries, passes[completed].before))
  {
    completed := 0;
    assert passes[..0] == [];
    if entries == [] {
      return;
    }
    var stopped := false;
    while !stopped && completed < |passes| && !passes[completed].stopped
      invariant completed <= |passes| && AllFollow(next, start, entries, passes[..completed])
      invariant forall k | 0 <= k < completed :: !passes[k].stopped
      invariant stopped ==> completed < |passes|
      invariant stopped ==> passes[completed].waitStops && NothingDue(entries, passes[completed].before)
      decreases !stopped, |passes| - completed
    {
      assert passes[..completed] + [passes[completed]] == passes[..completed + 1];
      stopped := TakePass(next, start, entries, passes[..completed], passes[completed]);
      if !stopped {
        completed := completed + 1;
      }
    }
  }

  /*******************************************************************************
   *  Every occurrence is accounted for
   *******************************************************************************/

  /** Whatever the clock reads, the log is a chain, and no entry is left overdue by the last reading. */
  lemma {:induction false} PassesMakeAChain(next: Calendar, cron: string, start: int, passes: seq<Pass>)
    ensures Chain(next, cron, start, FiredOver(next, cron, start, passes))
    ensures (IsCalendar(next) && passes != [] ==>
              passes[|passes| - 1].current < NextAfter(next, cron, start, FiredOver(next, cron, start, passes)))
  {
    if passes != [] {
      var front, current := passes[..|passes| - 1], passes[|passes| - 1].current;
      PassesMakeAChain(next, cron, start, front);
      var fired := FiredOver(next, cron, start, front);
      var due := NextAfter(next, cron, start, fired);
      assert (fired + [Firing(due, current)])[..|fired|] == fired;
      assert IsCalendar(next) ==> LeastAfter(next, cron, current);
    }
  }

  lemma NextOccurs(next: Calendar, cron: string, t: int)
    requires IsCalendar(next)
    ensures t < next(cron, t) && Occurs(next, cron, next(cron, t))
  {
    assert LeastAfter(next, cron, t);
    assert next(cron, next(cron, t) - 1) == next(cron, t);
  }

  lemma NextIsLeast(next: Calendar, cron: string, t: int, u: int)
    requires IsCalendar(next) && Occurs(next, cron, u)
    ensures t < u ==> next(cron, t) <= u
  {
    assert LeastAfter(next, cron, t);
    if t <= u - 1 < next(cron, t) {
      assert next(cron, u - 1) == next(cron, t);
    }
  }

  /** One firing: due after the start, at a real occurrence, and not before it was due. */
  ghost predicate FiredWell(next: Calendar, cron: string, start: int, firing: Firing) {
    start < firing.due <= firing.seenAt && Occurs(next, cron, firing.due)
  }

  /** Each pass's cover, from the due time it fired to what its clock read, ends before the next. */
  ghost predicate CoversAreDisjoint(fired: seq<Firing>) {
    forall j, k | 0 <= j < k < |fired| :: fired[j].seenAt < fired[k].due
  }

  /** Whatever the clock reads, due times strictly increase, each is a real occurrence after the start,
      none is fired early, and what one pass covers ends before the next due time. */
  lemma {:induction false} FiringsAdvance(next: Calendar, cron: string, start: int, fired: seq<Firing>)
    requires IsCalendar(next) && Chain(next, cron, start, fired)
    ensures forall k | 0 <= k < |fired| :: FiredWell(next, cron, start, fired[k])
    ensures forall k | 0 <= k < |fired| :: fired[k].seenAt < NextAfter(next, cron, start, fired)
    ensures CoversAreDisjoint(fired)
    ensures start < NextAfter(next, cron, start, fired)
  {
    if fired == [] {
      NextOccurs(next, cron, start);
    } else {
      var front, last := fired[..|fired| - 1], fired[|fired| - 1];
      FiringsAdvance(next, cron, start, front);
      NextOccurs(next, cron, if front == [] then start else front[|front| - 1].seenAt);
      NextOccurs(next, cron, last.seenAt);
      assert forall k | 0 <= k < |front| :: fired[k] == front[k];
    }
  }

  predicate Covers(firing: Firing, u: int) {
    firing.due <= u <= firing.seenAt
  }

  /** The occurrences between the start and the next due time split exactly: each is covered by one
      pass and no other, as the due time it fired or as one it overran. */
  lemma {:induction false} OccurrencesSplit(next: Calendar, cron: string, start: int, fired: seq<Firing>, u: int)
    requires IsCalendar(next) && Chain(next, cron, start, fired)
    requires Occurs(next, cron, u) && start < u < NextAfter(next, cron, start, fired)
    ensures exists k :: (0 <= k < |fired| && Covers(fired[k], u)
                         && (forall j | 0 <= j < |fired| && Covers(fired[j], u) :: j == k))
  {
    var k := CoveringPass(next, cron, start, fired, u);
    FiringsAdvance(next, cron, start, fired);
    assert forall j | 0 <= j < |fired| && Covers(fired[j], u) :: j == k;
  }

  lemma {:induction false} CoveringPass(next: Calendar, cron: string, start: int, fired: seq<Firing>, u: int) returns (k: nat)
    requires IsCalendar(next) && Chain(next, cron, start, fired)
    requires Occurs(next, cron, u) && start < u < NextAfter(next, cron, start, fired)
    ensures k < |fired| && Covers(fired[k], u)
  {
    var from := if fired == [] then start else fired[|fired| - 1].seenAt;
    NextIsLeast(next, cron, from, u);
    if fired == [] {
      assert false;
    } else {
      k := |fired| - 1;
      if u < fired[k].due {
        k := CoveringPass(next, cron, start, fired[..k], u);
      }
    }
  }

  /** Under any clock, even one that steps back, every occurrence up to the last reading is accounted
      for by exactly one firing: the one for it, or the one whose pass overran it. */
  lemma EveryOccurrenceIsAccountedFor(next: Calendar, cron: string, start: int, passes: seq<Pass>, u: int)
    requires IsCalendar(next) && passes != []
    requires Occurs(next, cron, u) && start < u <= passes[|passes| - 1].current
    ensures var fired := FiredOver(next, cron, start, passes);
      && (exists k :: 0 <= k < |fired| && Covers(fired[k], u)
                      && (forall j | 0 <= j < |fired| && Covers(fired[j], u) :: j == k))
      && (forall k | 0 <= k < |fired| :: FiredWell(next, cron, start, fired[k]))
      && CoversAreDisjoint(fired)
  {
    PassesMakeAChain(next, cron, start, passes);
    FiringsAdvance(next, cron, start, FiredOver(next, cron, start, passes));
    OccurrencesSplit(next, cron, start, FiredOver(next, cron, start, passes), u);
  }

  /*******************************************************************************
   *  Racing beats
   *******************************************************************************/

  const SECOND := 1_000_000

  /** A schedule's due time, as the key names it. */
  datatype Occurrence = Occurrence(name: string, cron: string, due: int)

  /** A cron with no bar, due on a whole second as every cron occurrence is. */
  predicate Keyable(o: Occurrence) {
    '|' !in o.cron && o.due % SECOND == 0
  }

  /** What `derive_idempotency_key` hashes. `iso` renders whole seconds; the rest of the due time is cut. */
  function RawKey(backend: string, iso: int -> string, o: Occurrence): string {
    backend + "|" + o.name + "|" + o.cron + "|" + iso(o.due / SECOND)
  }

  /** ISO timestamps hold no bar and tell whole seconds apart. */
  ghost predicate RendersSeconds(iso: int -> string) {
    && (forall due :: '|' !in iso(due))
    && (forall a, b | iso(a) == iso(b) :: a == b)
  }

  /** Within one backend the text is injective, whatever bars a schedule's name holds. */
  lemma RawKeyInjective(backend: string, iso: int -> string, a: Occurrence, b: Occurrence)
    requires RendersSeconds(iso) && Keyable(a) && Keyable(b)
    requires RawKey(backend, iso, a) == RawKey(backend, iso, b)
    ensures a == b
  {
    var headA, headB := backend + "|" + a.name, backend + "|" + b.name;
    RSplitUnique(headA + "|" + a.cron, iso(a.due / SECOND), '|');
    RSplitUnique(headB + "|" + b.cron, iso(b.due / SECOND), '|');
    RSplitUnique(headA, a.cron, '|');
    RSplitUnique(headB, b.cron, '|');
    assert a.name == headA[|backend| + 1..] && b.name == headB[|backend| + 1..];
  }

  /** A hash with no collisions. */
  ghost predicate Injective(hash: string -> string) {
    forall a, b | hash(a) == hash(b) :: a == b
  }

  /** `derive_idempotency_key`. */
  function DeriveKey(backend: string, iso: int -> string, hash: string -> string): Occurrence -> string {
    (o: Occurrence) => "cron:" + hash(RawKey(backend, iso, o))
  }

  lemma DerivedKeysDiffer(backend: string, iso: int -> string, hash: string -> string, a: Occurrence, b: Occurrence)
    requires RendersSeconds(iso) && Injective(hash) && Keyable(a) && Keyable(b)
    ensures DeriveKey(backend, iso, hash)(a) == DeriveKey(backend, iso, hash)(b) <==> a == b
  {
    var keyA, keyB := DeriveKey(backend, iso, hash)(a), DeriveKey(backend, iso, hash)(b);
    if keyA == keyB {
      assert hash(RawKey(backend, iso, a)) == keyA[5..] == keyB[5..] == hash(RawKey(backend, iso, b));
      RawKeyInjective(backend, iso, a, b);
    }
  }

  /** Absurd's deduplication over everything any number of beats fire, in the order it arrives: the row
      spawned under each key. */
  function SpawnAll(key: Occurrence -> string, fires: seq<Occurrence>): map<string, Occurrence> {
    if fires == [] then map[]
    else
      var rows, last := SpawnAll(key, fires[..|fires| - 1]), fires[|fires| - 1];
      if key(last) in rows then rows else rows[key(last) := last]
  }

  /** The rows are in one-to-one correspondence with the distinct occurrences fired. */
  ghost predicate OneRowEach(key: Occurrence -> string, rows: map<string, Occurrence>, fires: seq<Occurrence>) {
    && (forall o | o in fires :: key(o) in rows && rows[key(o)] == o)
    && (forall k | k in rows :: rows[k] in fires && k == key(rows[k]))
  }

  lemma OneMoreFire(key: Occurrence -> string, rows: map<string, Occurrence>, front: seq<Occurrence>, last: Occurrence)
    requires forall o | o in front :: key(o) == key(last) ==> o == last
    requires OneRowEach(key, rows, front)
    ensures OneRowEach(key, if key(last) in rows then rows else rows[key(last) := last], front + [last])
  {
    if key(last) in rows {
      assert rows[key(last)] == last;
    } else {
      assert last !in front;
    }
  }

  lemma {:induction false} DistinctKeysSpawnOnce(key: Occurrence -> string, fires: seq<Occurrence>)
    requires forall a, b | a in fires && b in fires && key(a) == key(b) :: a == b
    ensures OneRowEach(key, SpawnAll(key, fires), fires)
  {
    if fires != [] {
      var front, last := fires[..|fires| - 1], fires[|fires| - 1];
      DistinctKeysSpawnOnce(key, front);
      OneMoreFire(key, SpawnAll(key, front), front, last);
      assert fires == front + [last];
    }
  }

  /** However beats interleave, each due time is spawned exactly once: one row per distinct occurrence
      fired, and the row is that occurrence's own. */
  lemma RacingBeatsSpawnOnce(backend: string, iso: int -> string, hash: string -> string, fires: seq<Occurrence>)
    requires RendersSeconds(iso) && Injective(hash)
    requires forall o | o in fires :: Keyable(o)
    ensures var key := DeriveKey(backend, iso, hash); OneRowEach(key, SpawnAll(key, fires), fires)
  {
    var key := DeriveKey(backend, iso, hash);
    forall a, b | a in fires && b in fires && key(a) == key(b) ensures a == b {
      DerivedKeysDiffer(backend, iso, hash, a, b);
    }
    DistinctKeysSpawnOnce(key, fires);
  }
}
