/**
 The consumer's cycle as functions of the tables and the dispatcher's view: what each section
 between two calls of others leaves behind, however its calls end and whatever the workers
 book meanwhile.
 */
module SqlCycle {
  import opened Calls
  import opened SqlTables
  import opened SqlLocal
  import M = SqlMirror

  const FULL_RESET_EVERY: nat := 10

  datatype Worked = DoneWith(stamps: seq<Stamp>) | GaveUp(stamps: seq<Stamp>)

  /** `Settle` over the first `n` stamps, in order. */
  function SettleAll(l: Local, sts: seq<Stamp>, n: nat): Local
    requires n <= |sts|
  {
    if n == 0 then l else Settle(SettleAll(l, sts, n - 1), sts[n - 1])
  }

  function AbandonAll(l: Local, sts: seq<Stamp>, n: nat): Local
    requires n <= |sts|
  {
    if n == 0 then l else SqlLocal.Abandon(AbandonAll(l, sts, n - 1), sts[n - 1])
  }

  function BookAll(l: Local, rows: seq<(Key, Tracked)>, n: nat): Local
    requires n <= |rows|
  {
    if n == 0 then l else Book(BookAll(l, rows, n - 1), rows[n - 1].0, rows[n - 1].1)
  }

  function Work(l: Local, ops: seq<Worked>, n: nat): Local
    requires n <= |ops|
  {
    if n == 0 then l
    else
      var m := Work(l, ops, n - 1);
      match ops[n - 1]
      case DoneWith(sts) => SettleAll(m, sts, |sts|)
      case GaveUp(sts) => AbandonAll(m, sts, |sts|)
  }

  /** The columns Dispatch returns for the picked rows. */
  function RowsFor(db: Db, out: seq<Key>): seq<(Key, Tracked)>
    requires forall k | k in out :: k in db.rows
  {
    seq(|out|, i requires 0 <= i < |out| =>
      var r := db.rows[out[i]];
      (out[i], Tracked(r.part, r.epoch, r.attempt)))
  }

  function Active(leases: map<nat, Lease>): set<nat> { set p | p in leases && !leases[p].draining }

  function Draining(leases: map<nat, Lease>): set<nat> { set p | p in leases && leases[p].draining }

  /** What bookkeeping by workers leaves alone: which partitions are leased, and which of them drain. */
  ghost predicate SameLeases(l: Local, l': Local) {
    l'.leases.Keys == l.leases.Keys
        && forall p | p in l.leases :: l'.leases[p] == l.leases[p].(inflight := l'.leases[p].inflight)
  }

  lemma UntrackSame(l: Local, k: Key)
    requires k in l.inflight
    ensures SameLeases(l, Untrack(l, k))
  {
  }

  lemma {:induction false} SettleSame(l: Local, sts: seq<Stamp>, n: nat)
    requires n <= |sts|
    ensures SameLeases(l, SettleAll(l, sts, n)) && SameLeases(l, AbandonAll(l, sts, n))
  {
    if n > 0 {
      SettleSame(l, sts, n - 1);
      var s, a := SettleAll(l, sts, n - 1), AbandonAll(l, sts, n - 1);
      if Tracks(s, sts[n - 1]) {
        UntrackSame(s, sts[n - 1].key);
      }
      if Tracks(a, sts[n - 1]) {
        UntrackSame(a.(orphans := a.orphans[sts[n - 1].key := sts[n - 1].attempt]), sts[n - 1].key);
      }
    }
  }

  lemma {:induction false} WorkSame(l: Local, ops: seq<Worked>, n: nat)
    requires n <= |ops|
    ensures SameLeases(l, Work(l, ops, n))
  {
    if n > 0 {
      WorkSame(l, ops, n - 1);
      SettleSame(Work(l, ops, n - 1), ops[n - 1].stamps, |ops[n - 1].stamps|);
    }
  }

  lemma {:induction false} SettleReconciles(l: Local, sts: seq<Stamp>, n: nat)
    requires n <= |sts|
    ensures SettleAll(l, sts, n).reconcile == AbandonAll(l, sts, n).reconcile == l.reconcile
  {
    if n > 0 {
      SettleReconciles(l, sts, n - 1);
    }
  }

  lemma {:induction false} WorkReconciles(l: Local, ops: seq<Worked>, n: nat)
    requires n <= |ops|
    ensures Work(l, ops, n).reconcile == l.reconcile
  {
    if n > 0 {
      WorkReconciles(l, ops, n - 1);
      SettleReconciles(Work(l, ops, n - 1), ops[n - 1].stamps, |ops[n - 1].stamps|);
    }
  }

  function Gap(l: Local, ops: seq<Worked>): Local { Work(l, ops, |ops|) }

  /** A member's share: the partitions divided by the members, rounded up. */
  function Share(members: nat): nat {
    var m := if members < 1 then 1 else members;
    (PARTITIONS + m - 1) / m
  }

  /** Members that each hold their share hold every partition, and one less each would not do. */
  lemma SharesCover(members: nat)
    requires members >= 1
    ensures members * Share(members) >= PARTITIONS > members * (Share(members) - 1)
  {
    var s := Share(members);
    assert PARTITIONS + members - 1 == members * s + (PARTITIONS + members - 1) % members;
    assert members * (s - 1) == members * s - members;
  }

  /** Draining partitions with nothing in flight, or draining for too long. */
  function Releasable(leases: map<nat, Lease>, now: int, timeout: int): set<nat> {
    set p | p in leases && leases[p].draining && (leases[p].inflight == 0 || now - leases[p].drainSince >= timeout)
  }

  function Recent(leases: map<nat, Lease>, now: int, ttl: int): set<nat> {
    set p | p in leases && now - leases[p].acquiredAt < 2 * ttl
  }

  lemma MarkActive(l: Local, l': Local, parts: set<nat>, draining: bool, now: int)
    requires SameLeases(l, l') && parts <= l.leases.Keys
    ensures var m := Mark(l', parts, draining, now).leases;
      && Active(m) == (if draining then Active(l.leases) - parts else Active(l.leases) + parts)
      && Draining(m) == (if draining then Draining(l.leases) + parts else Draining(l.leases) - parts)
  {
  }

  lemma CardinalityAtMost(s: set<nat>, a: set<nat>, b: set<nat>, c: set<nat>)
    requires s <= a + b + c
    ensures |s| <= |a| + |b| + |c|
  {
    SubsetCard(s, a + b + c);
    assert |a + b| <= |a| + |b|;
    assert |a + b + c| <= |a + b| + |c|;
  }

  lemma SubsetCard(s: set<nat>, t: set<nat>)
    requires s <= t
    ensures |s| <= |t|
  {
    assert t == s + (t - s);
  }

  /** Least loaded first, highest partition first among equals. */
  predicate DrainsBefore(leases: map<nat, Lease>, a: nat, b: nat) {
    var x := if a in leases then leases[a].inflight else 0;
    var y := if b in leases then leases[b].inflight else 0;
    x < y || (x == y && b <= a)
  }

  lemma Adopted(l: Local, gap: seq<Worked>, acquired: map<nat, nat>, now: int)
    ensures Active(Adopt(Work(l, gap, |gap|), acquired, now).leases) == Active(l.leases) + acquired.Keys
  {
    WorkSame(l, gap, |gap|);
  }

  lemma FlagActive(l: Local, gap: seq<Worked>, parts: set<nat>, draining: bool, now: int)
    requires parts <= l.leases.Keys
    ensures var m := Mark(Gap(l, gap), parts, draining, now).leases;
      && Active(m) == (if draining then Active(l.leases) - parts else Active(l.leases) + parts)
      && Draining(m) == (if draining then Draining(l.leases) + parts else Draining(l.leases) - parts)
  {
    WorkSame(l, gap, |gap|);
    MarkActive(l, Gap(l, gap), parts, draining, now);
  }

  /** Giving up what has drained leaves the active partitions alone. */
  lemma GivenUpActive(l: Local, now: int, timeout: int, gap: seq<Worked>)
    ensures Active(Forget(Gap(l, gap), Releasable(l.leases, now, timeout)).leases) == Active(l.leases)
  {
    WorkSame(l, gap, |gap|);
  }

  /** The `n` active partitions to drain: none of them is more loaded than one that stays. */
  ghost predicate LeastLoaded(leases: map<nat, Lease>, drained: set<nat>, n: nat) {
    && drained <= Active(leases) && |drained| == n
    && forall p, q | p in drained && q in Active(leases) - drained :: DrainsBefore(leases, p, q)
  }

  /** How an error-free cycle moves the active partitions toward the target. */
  ghost predicate Adjusted(was: map<nat, Lease>, leases: map<nat, Lease>, target: nat, drained: set<nat>) {
    && |Active(leases)| <= target
    && (if |Active(was)| > target then
          LeastLoaded(was, drained, |Active(was)| - target) && Active(leases) == Active(was) - drained
        else
          && drained == {} && Active(was) <= Active(leases)
          && (|Draining(was)| >= target - |Active(was)| ==> |Active(leases)| == target))
  }

  /** A call on an empty list is not made, so it cannot fail. */
  function Called(f: Fault, made: bool): Fault { if made then f else Ok }

  /** The tables after a call that sends a statement. */
  function Ran(db: Db, st: Stmt, f: Fault): Db
    requires Legal(db, st)
  {
    if f == Failed then db else Exec(db, st)
  }

  /**
   The outside of one cycle: the workers' bookkeeping during the i-th call, and as the 13th gap between
   comparing with the share and picking what to drain; how calls end; what others do before the i-th call.
   */
  datatype Around = Around(gaps: nat -> seq<Worked>, faults: nat -> Fault, world: (nat, Db) -> Db)

  /** The times of a cycle: its clock, the lease's length and end, and how long a partition may drain. */
  datatype Timing = Timing(now: int, ttl: int, expires: int, drain: int)

  /** What a section leaves: the tables, the view, and whether it failed. */
  datatype Left = Left(db: Db, view: Local, err: bool)

  /** Returns the orphans to pending and forgets those that did not change meanwhile. */
  function ReturnOrphans(db: Db, o: string, l: Local, gap: seq<Worked>, f: Fault): Left {
    var c := Called(f, l.orphans != map[]);
    var w := Gap(l, gap);
    Left(Ran(db, Undispatch(o, OrphanStamps(l), 0), c), if c == Ok then DropOrphans(w, OrphanStamps(l)) else w, c != Ok)
  }

  /** The stamps a reconciliation returns: in flight in the tables it read and not tracked once it looked. */
  function Leftover(db: Db, o: string, l: Local, gap: seq<Worked>): set<Stamp> {
    Untracked(Gap(l, gap), M.InFlight(db, o))
  }

  /**
   Returns to pending what the tables have in flight and the view does not track; `between` is what
   others did since the read.
   */
  function Reconcile(db: Db, o: string, l: Local, gap: seq<Worked>, gap': seq<Worked>, read: Fault, write: Fault,
                     between: Db -> Db): Left
  {
    if !l.reconcile then Left(db, l, false)
    else if read != Ok then Left(db, l, true)
    else
      var stamps := Leftover(db, o, l, gap);
      var c := Called(write, stamps != {});
      var w := Gap(Gap(l, gap), gap');
      Left(Ran(between(db), Undispatch(o, stamps, 0), c), if c == Ok then w.(reconcile := false) else w, c != Ok)
  }

  function Membership(o: string, t: Timing, stop: bool): Stmt {
    if stop then Resign(o) else Join(o, t.expires)
  }

  /** The tables in which a heartbeat whose calls succeed counts the members. */
  function CountedIn(db: Db, o: string, t: Timing, stop: bool, world: (nat, Db) -> Db): Db {
    world(6, Exec(world(5, Exec(world(4, db), Membership(o, t, stop))), ExpireMembers(t.now)))
  }

  /** The tables its last statement leaves. */
  function RenewedIn(db: Db, o: string, t: Timing, stop: bool, world: (nat, Db) -> Db): Db {
    Exec(world(7, CountedIn(db, o, t, stop, world)), RenewLeases(o, t.expires))
  }

  /** The heartbeat, statement by statement, and the leases synced with its reply. */
  function Beat(db: Db, o: string, l: Local, t: Timing, stop: bool, a: Around): Left {
    var joined := Ran(a.world(4, db), Membership(o, t, stop), a.faults(4));
    if a.faults(4) != Ok then Left(joined, l, true) else AfterJoin(joined, o, l, t, a)
  }

  /** From its second statement on, which expires the members that are late. */
  function AfterJoin(db: Db, o: string, l: Local, t: Timing, a: Around): Left {
    var expired := Ran(a.world(5, db), ExpireMembers(t.now), a.faults(5));
    if a.faults(5) != Ok then Left(expired, l, true) else CountAndRenew(expired, o, l, t, a)
  }

  /** Its last two statements, the count and the renewal. */
  function CountAndRenew(db: Db, o: string, l: Local, t: Timing, a: Around): Left {
    var counted := a.world(6, db);
    if a.faults(6) != Ok then Left(counted, l, true)
    else
      var renewed := Ran(a.world(7, counted), RenewLeases(o, t.expires), a.faults(7));
      if a.faults(7) != Ok then Left(renewed, l, true)
      else Left(renewed, Sync(Gap(l, a.gaps(7)), M.Holds(renewed, o), t.now), false)
  }

  /** Whether the beat after `beats` earlier ones resets every partition. */
  predicate Due(beats: nat) { (beats + 1) % FULL_RESET_EVERY == 0 }

  /** The scope of a reset: the partitions acquired lately, or all. */
  function ResetScope(l: Local, full: bool, now: int, ttl: int): Scope {
    if full then Everything else Only(Recent(l.leases, now, ttl))
  }

  function Reset(db: Db, o: string, l: Local, scope: Scope, locked: set<Key>, f: Fault): Left {
    var c := Called(f, scope != Only({}));
    Left(Ran(db, ResetStale(o, scope, locked), c), l, c != Ok)
  }

  /** Gives up the draining partitions that are idle or overdue. */
  function GiveUp(db: Db, o: string, l: Local, now: int, timeout: int, gap: seq<Worked>, f: Fault): Left {
    var release := Releasable(l.leases, now, timeout);
    var c := Called(f, release != {});
    var w := Gap(l, gap);
    Left(Ran(db, Release(o, release), c), if c == Ok then Forget(w, release) else w, c != Ok)
  }

  /** Flags partitions as draining or not, in the tables and in the view. */
  function SetFlag(db: Db, o: string, l: Local, parts: set<nat>, draining: bool, now: int, gap: seq<Worked>,
                   f: Fault): Left {
    var c := Called(f, parts != {});
    var w := Gap(l, gap);
    Left(Ran(db, SetDraining(o, parts, draining), c), if c == Ok then Mark(w, parts, draining, now) else w, c != Ok)
  }

  /** Acquires partitions and adopts their leases. */
  function TakeOver(db: Db, o: string, l: Local, acquired: map<nat, nat>, now: int, expires: int, gap: seq<Worked>,
                    f: Fault): Left
    requires Legal(db, Acquire(o, now, expires, acquired.Keys))
  {
    var w := Gap(l, gap);
    Left(Ran(db, Acquire(o, now, expires, acquired.Keys), f), if f == Ok then Adopt(w, acquired, now) else w, f != Ok)
  }

  /** Leaves: every partition is free and no lease is kept. */
  function Quit(db: Db, o: string, l: Local, f: Fault): Left {
    Left(Ran(db, Leave(o), f), if f == Ok then l.(leases := map[]) else l, f != Ok)
  }

  /** A close: the orphans go back, then the partitions; `between` is what others did in between. */
  function Closed(db: Db, o: string, l: Local, gap: seq<Worked>, orphanFault: Fault, fault: Fault,
                  between: Db -> Db): Left
  {
    var r := ReturnOrphans(db, o, l, gap, orphanFault);
    var q := Quit(between(r.db), o, r.view, fault);
    q.(err := r.err || q.err)
  }

  /** Some call of the cycle did not end well. */
  ghost predicate Faulty(faults: nat -> Fault) { exists i: nat :: faults(i) != Ok }

  /** After the partition rows are there, the orphans are returned and a due reconciliation is done. */
  function Recovered(db: Db, o: string, l: Local, a: Around): Left {
    var r := ReturnOrphans(a.world(1, db), o, l, a.gaps(1), a.faults(1));
    var q := Reconcile(a.world(2, r.db), o, r.view, a.gaps(2), a.gaps(3), a.faults(2), a.faults(3), d => a.world(3, d));
    q.(err := r.err || q.err)
  }

  /** The tables once the partition rows were created, unless they were before. */
  function Seeded(db: Db, seeded: bool, a: Around): Db {
    if seeded then db else Exec(a.world(0, db), EnsurePartitions)
  }

  /** The tables and the view a rebalance has recovered when it sends its heartbeat. */
  function BeforeBeat(db: Db, o: string, l: Local, seeded: bool, a: Around): Left {
    Recovered(Seeded(db, seeded, a), o, l, a)
  }

  /** The leases synced with the reply of a heartbeat whose calls succeed. */
  function Synced(db: Db, o: string, l: Local, t: Timing, stop: bool, a: Around): Local {
    Sync(Gap(l, a.gaps(7)), M.Holds(RenewedIn(db, o, t, stop, a.world), o), t.now)
  }

  /** The view once what has drained is given up. */
  function Lightened(l: Local, now: int, timeout: int, gap: seq<Worked>): Local {
    Forget(Gap(l, gap), Releasable(l.leases, now, timeout))
  }

  /** The view when a rebalance compares what it holds with its share. */
  function Refreshed(db: Db, o: string, l: Local, t: Timing, stop: bool, a: Around): Local {
    Lightened(Synced(db, o, l, t, stop, a), t.now, t.drain, a.gaps(9))
  }

  /** The view by whose loads it picks what to drain. */
  function Weighed(db: Db, o: string, l: Local, t: Timing, stop: bool, a: Around): Local {
    Gap(Refreshed(db, o, l, t, stop, a), a.gaps(13))
  }

  /** Resets stale stamps and, unless that failed, gives up what has drained. */
  function Tidied(db: Db, o: string, l: Local, t: Timing, scope: Scope, locked: set<Key>, a: Around): Left {
    var r := Reset(a.world(8, db), o, l, scope, locked, a.faults(8));
    if r.err then r else GiveUp(a.world(9, r.db), o, r.view, t.now, t.drain, a.gaps(9), a.faults(9))
  }

  /** The heartbeat and, unless it failed, the upkeep after it. */
  function Upkept(db: Db, o: string, l: Local, t: Timing, full: bool, stop: bool, locked: set<Key>, a: Around): Left {
    var b := Beat(db, o, l, t, stop, a);
    if b.err then b else Tidied(b.db, o, b.view, t, ResetScope(b.view, full, t.now, t.ttl), locked, a)
  }

  /** The lowest `need` draining partitions, or all of them. */
  ghost predicate Lowest(leases: map<nat, Lease>, undrain: set<nat>, need: nat) {
    && undrain <= Draining(leases) && |undrain| <= need && (|undrain| < need ==> undrain == Draining(leases))
    && forall p, q | p in undrain && q in Draining(leases) - undrain :: p <= q
  }

  /** What a rebalance picks: the partitions it drains, takes back from draining, and acquires with their epochs. */
  datatype Choice = Choice(drained: set<nat>, undrain: set<nat>, acquired: map<nat, nat>)

  /** What moving up to the share leaves: partitions back from draining, then free ones, reset. */
  ghost predicate Raised(db: Db, o: string, l: Local, t: Timing, target: nat, c: Choice, held: set<nat>,
                         locked: set<Key>, a: Around, left: Left)
    requires |Active(l.leases)| < target
  {
    var need := target - |Active(l.leases)|;
    var f := SetFlag(a.world(10, db), o, l, c.undrain, false, t.now, a.gaps(10), a.faults(10));
    && Lowest(l.leases, c.undrain, need)
    && if f.err || |c.undrain| == need then left == f
       else Extended(a.world(11, f.db), o, f.view, t, need - |c.undrain|, c.acquired, held, locked, a, left)
  }

  /** What acquiring up to `need` partitions leaves: as many as there are, under their next epochs. */
  ghost predicate Extended(db: Db, o: string, l: Local, t: Timing, need: nat, acquired: map<nat, nat>, held: set<nat>,
                           locked: set<Key>, a: Around, left: Left)
  {
    && |acquired| <= need && Legal(db, Acquire(o, t.now, t.expires, acquired.Keys))
    && (a.faults(11) == Ok ==> Exhausts(db, t.now, need, acquired, held))
    && var g := TakeOver(db, o, l, acquired, t.now, t.expires, a.gaps(11), a.faults(11));
       left == if g.err then g else Reset(a.world(12, g.db), o, g.view, Only(acquired.Keys), locked, a.faults(12))
  }

  /** The reply of an acquire call: new epochs, and no free partition left out below the need. */
  ghost predicate Exhausts(db: Db, now: int, need: nat, acquired: map<nat, nat>, held: set<nat>) {
    && (forall p | p in acquired :: p in db.parts && acquired[p] == db.parts[p].epoch + 1)
    && (forall p | Takeable(db, now, p) && p !in held && p !in acquired :: |acquired| == need)
  }

  /** What moving down to the share leaves: the surplus flagged as draining, and what is idle given up. */
  function Lowered(db: Db, o: string, l: Local, t: Timing, drained: set<nat>, a: Around): Left {
    var f := SetFlag(a.world(10, db), o, l, drained, true, t.now, a.gaps(10), a.faults(10));
    if f.err then f else GiveUp(a.world(11, f.db), o, f.view, t.now, t.drain, a.gaps(11), a.faults(11))
  }

  ghost predicate Moved(db: Db, o: string, l: Local, t: Timing, target: nat, c: Choice, held: set<nat>,
                        locked: set<Key>, a: Around, left: Left)
  {
    var n := |Active(l.leases)|;
    if n < target then Raised(db, o, l, t, target, c, held, locked, a, left)
    else if n > target then LeastLoaded(l.leases, c.drained, n - target) && left == Lowered(db, o, l, t, c.drained, a)
    else left == Left(db, l, false)
  }

  /** What a rebalance leaves from its heartbeat on. */
  ghost predicate Beaten(db: Db, o: string, l: Local, t: Timing, full: bool, stop: bool, c: Choice,
                         held: set<nat>, locked: set<Key>, a: Around, left: Left)
  {
    var d := Upkept(db, o, l, t, full, stop, locked, a);
    if d.err then left == d
    else
      var target := if stop then 0 else Share(|CountedIn(db, o, t, stop, a.world).members|);
      Moved(d.db, o, Gap(d.view, a.gaps(13)), t, target, c, held, locked, a, left)
  }

  /** What a rebalance leaves, however its calls end. */
  ghost predicate Cycled(db: Db, o: string, l: Local, seeded: bool, t: Timing, full: bool, stop: bool,
                         c: Choice, held: set<nat>, locked: set<Key>, a: Around, left: Left)
  {
    if !seeded && a.faults(0) != Ok then left == Left(Ran(a.world(0, db), EnsurePartitions, a.faults(0)), l, true)
    else
      var r := BeforeBeat(db, o, l, seeded, a);
      exists err ::
        && Beaten(r.db, o, r.view, t, full, stop, c, held, locked, a, left.(err := err))
        && left.err == (err || r.err)
  }

  lemma NoOrphans(l: Local)
    ensures OrphanStamps(l) == {} <==> l.orphans == map[]
  {
    if l.orphans != map[] {
      var k :| k in l.orphans;
      assert Stamp(k, l.orphans[k]) in OrphanStamps(l);
    }
  }

  /** A statement on an empty list changes nothing. */
  lemma NothingToDo(db: Db, o: string)
    ensures Exec(db, Undispatch(o, {}, 0)) == Exec(db, Release(o, {})) == db
    ensures Exec(db, SetDraining(o, {}, true)) == Exec(db, SetDraining(o, {}, false)) == db
  {
    assert Exec(db, Undispatch(o, {}, 0)).rows == db.rows;
    assert Exec(db, Release(o, {})).parts == db.parts;
    assert Exec(db, SetDraining(o, {}, true)).parts == db.parts;
    assert Exec(db, SetDraining(o, {}, false)).parts == db.parts;
  }

  lemma ResetNothing(db: Db, o: string, locked: set<Key>)
    ensures Exec(db, ResetStale(o, Only({}), locked)) == db
  {
    assert Exec(db, ResetStale(o, Only({}), locked)).rows == db.rows;
  }
}
