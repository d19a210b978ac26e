/**
 One dispatcher: its bookkeeping in place, its calls to the store, and the rebalance that
 keeps it at its share of the partitions. `Fault` decides how a store call ends; between
 the sections under the mutex the dispatcher's own workers may do any bookkeeping.
 */
module SqlConsumer {
  import opened Calls
  import opened SqlTables
  import opened SqlAck
  import opened SqlLocal
  import opened SqlStore
  import opened SqlCycle
  import opened Ordering
  import M = SqlMirror

  /** The `n` least loaded of the active partitions. */
  method DrainCandidates(leases: map<nat, Lease>, active: set<nat>, n: nat) returns (drain: set<nat>)
    requires n <= |active|
    ensures drain <= active && |drain| == n
    ensures forall p, q | p in drain && q in active && q !in drain :: DrainsBefore(leases, p, q)
  {
    var le := (a: nat, b: nat) => DrainsBefore(leases, a, b);
    var out := First<nat>(active, le, n);
    drain := Elements(out);
    DistinctCounts(out);
    assert forall p, q | p in drain && q in active && q !in drain :: le(p, q) && DrainsBefore(leases, p, q);
  }

  class Consumer {
    const store: Store
    const owner: string
    const leaseTTL: int
    const drainTimeout: int

    var seeded: bool
    var stopping: bool
    var reconcile: bool
    var beats: nat
    var leases: map<nat, Lease>
    var inflight: map<Key, Tracked>
    var orphans: map<Key, nat>

    constructor (store: Store, owner: string, leaseTTL: int, drainTimeout: int)
      ensures View() == SqlLocal.Fresh && !seeded && !stopping && beats == 0
      ensures this.store == store && this.owner == owner && this.leaseTTL == leaseTTL
          && this.drainTimeout == drainTimeout
    {
      this.store, this.owner, this.leaseTTL, this.drainTimeout := store, owner, leaseTTL, drainTimeout;
      seeded, stopping, reconcile, beats := false, false, false, 0;
      leases, inflight, orphans := map[], map[], map[];
    }

    /** The bookkeeping as one value. */
    function View(): Local
      reads this
    {
      Local(reconcile, leases, inflight, orphans)
    }

    function Times(now: int): Timing { Timing(now, leaseTTL, now + leaseTTL, drainTimeout) }

    method UntrackLocked(k: Key)
      requires k in inflight
      modifies this`inflight, this`leases
      ensures View() == Untrack(old(View()), k)
    {
      var t := inflight[k];
      inflight := inflight - {k};
      if t.part in leases && leases[t.part].epoch == t.epoch && leases[t.part].inflight > 0 {
        leases := leases[t.part := leases[t.part].(inflight := leases[t.part].inflight - 1)];
      }
    }

    method BookLocked(k: Key, t: Tracked)
      modifies this`inflight, this`leases, this`orphans
      ensures View() == Book(old(View()), k, t)
    {
      if k in inflight {
        UntrackLocked(k);
      }
      orphans := orphans - {k};
      inflight := inflight[k := t];
      if t.part in leases && leases[t.part].epoch == t.epoch {
        leases := leases[t.part := leases[t.part].(inflight := leases[t.part].inflight + 1)];
      }
    }

    /** Books the dispatched rows, in order. */
    method BookRows(rows: seq<(Key, Tracked)>)
      modifies this`inflight, this`leases, this`orphans
      ensures unchanged(`seeded, `stopping, `beats)
      ensures View() == BookAll(old(View()), rows, |rows|)
    {
      for i := 0 to |rows|
        invariant View() == BookAll(old(View()), rows, i)
      {
        BookLocked(rows[i].0, rows[i].1);
      }
    }

    /** The dispatch call; its reply lists the rows by deadline and creation. */
    method CallDispatch(now: int, limit: nat, locked: set<Key>, fault: Fault)
      returns (out: seq<Key>, ghost draws: map<Key, nat>)
      requires owner != ""
      modifies store
      ensures draws.Keys == Elements(out) && Distinct(out) && InOrder(old(store.db).rows, out)
      ensures var st := Dispatch(owner, now, draws, old(store.db).attempts + |out|);
        Legal(old(store.db), st) && store.db == Ran(old(store.db), st, fault)
      ensures fault != Failed ==> forall k | k in out :: k in store.db.rows
    {
      if fault == Failed {
        return [], map[];
      }
      out, draws := store.Dispatch(owner, now, limit, locked);
      forall k | k in out ensures k in store.db.rows {
        assert k in Elements(out);
      }
    }

    /**
     Dispatches and books what was dispatched, after whatever its workers booked meanwhile; on error
     the dispatch may have committed, so it asks for reconciliation.
     */
    method Poll(now: int, limit: nat, locked: set<Key>, fault: Fault, gap: seq<Worked>)
      returns (out: seq<Key>, err: bool, ghost draws: map<Key, nat>)
      requires owner != ""
      modifies this, store
      ensures err <==> fault != Ok
      ensures var st := Dispatch(owner, now, draws, old(store.db).attempts + |draws|);
        Legal(old(store.db), st) && store.db == Ran(old(store.db), st, fault)
      ensures err ==> View() == Gap(old(View()), gap).(reconcile := true)
      ensures !err ==>
        && draws.Keys == Elements(out) && Distinct(out) && InOrder(old(store.db).rows, out)
        && (forall k | k in out :: k in store.db.rows)
        && View() == BookAll(Gap(old(View()), gap), RowsFor(store.db, out), |out|)
      ensures unchanged(`seeded, `stopping, `beats)
    {
      out, draws := CallDispatch(now, limit, locked, fault);
      DistinctCounts(out);
      Workers(gap);
      if fault != Ok {
        reconcile := true;
        return [], true, draws;
      }
      BookRows(RowsFor(store.db, out));
      err := false;
    }

    /** Forgets the attempts whose outcome is written. */
    method DoneStamps(stamps: seq<Stamp>)
      modifies this`inflight, this`leases
      ensures View() == SettleAll(old(View()), stamps, |stamps|)
    {
      for i := 0 to |stamps|
        invariant View() == SettleAll(old(View()), stamps, i)
      {
        var st := stamps[i];
        if st.key in inflight && inflight[st.key].attempt == st.attempt {
          UntrackLocked(st.key);
        }
      }
    }

    /** Hands requests whose outcome could not be written to the next rebalance. */
    method Abandon(stamps: seq<Stamp>)
      modifies this`inflight, this`leases, this`orphans
      ensures View() == AbandonAll(old(View()), stamps, |stamps|)
    {
      for i := 0 to |stamps|
        invariant View() == AbandonAll(old(View()), stamps, i)
      {
        var st := stamps[i];
        if st.key in inflight && inflight[st.key].attempt == st.attempt {
          orphans := orphans[st.key := st.attempt];
          UntrackLocked(st.key);
        }
      }
    }

    /** Any bookkeeping the dispatcher's workers do while the mutex is free. */
    method Workers(ops: seq<Worked>)
      modifies this`inflight, this`leases, this`orphans
      ensures unchanged(`seeded, `stopping, `beats, `reconcile)
      ensures View() == Work(old(View()), ops, |ops|)
    {
      for i := 0 to |ops|
        invariant View() == Work(old(View()), ops, i)
      {
        match ops[i]
        case DoneWith(sts) => DoneStamps(sts);
        case GaveUp(sts) => Abandon(sts);
      }
    }

    /** Writes results; what was given is forgotten whether it was recorded or fenced, unless the call failed. */
    method Ack(cs: seq<Completion>, fault: Fault) returns (acked: seq<bool>, err: bool)
      requires owner != ""
      modifies this, store
      ensures err <==> fault != Ok
      ensures store.db == if fault == Failed then old(store.db) else Batch(old(store.db), owner, cs).0
      ensures !err ==> acked == BatchFlags(old(store.db), owner, cs)
      ensures var sts := seq(|cs|, i requires 0 <= i < |cs| => Stamp(cs[i].key, cs[i].attempt));
        View() == if err then old(View()) else SettleAll(old(View()), sts, |sts|)
      ensures unchanged(`seeded, `stopping, `beats)
    {
      acked := [];
      if fault != Failed {
        acked := store.Ack(owner, cs);
      }
      if fault != Ok {
        return [], true;
      }
      var stamps := seq(|cs|, i requires 0 <= i < |cs| => Stamp(cs[i].key, cs[i].attempt));
      DoneStamps(stamps);
      err := false;
    }

    /** Parks a request until `notBefore`. */
    method Retry(stamp: Stamp, notBefore: int, envelope: string, fault: Fault) returns (parked: bool, err: bool)
      modifies this, store
      ensures err <==> fault != Ok
      ensures store.db == if fault == Failed then old(store.db)
          else Exec(old(store.db), SqlTables.Retry(owner, stamp, notBefore, envelope))
      ensures !err ==> (parked <==> Undispatchable(old(store.db), owner, {stamp}, stamp.key))
      ensures View() == if err then old(View()) else Settle(old(View()), stamp)
      ensures unchanged(`seeded, `stopping, `beats)
    {
      parked := Undispatchable(store.db, owner, {stamp}, stamp.key);
      if fault != Failed {
        store.db := Exec(store.db, SqlTables.Retry(owner, stamp, notBefore, envelope));
      }
      if fault != Ok {
        return false, true;
      }
      assert SettleAll(View(), [stamp], 1) == Settle(View(), stamp);
      DoneStamps([stamp]);
      err := false;
    }

    /** Returns requests to pending, held back until `notBefore`; on failure they are abandoned instead. */
    method Defer(stamps: seq<Stamp>, notBefore: int, fault: Fault) returns (err: bool)
      modifies this, store
      ensures err <==> fault != Ok
      ensures store.db == if fault == Failed then old(store.db)
          else Exec(old(store.db), SqlTables.Undispatch(owner, Elements(stamps), notBefore))
      ensures View() == if err then AbandonAll(old(View()), stamps, |stamps|)
          else SettleAll(old(View()), stamps, |stamps|)
      ensures unchanged(`seeded, `stopping, `beats)
    {
      if fault != Failed {
        store.Undispatch(owner, stamps, notBefore);
      }
      if fault != Ok {
        Abandon(stamps);
        return true;
      }
      DoneStamps(stamps);
      err := false;
    }

    /** Returns the orphans to pending, and forgets those that did not change meanwhile. */
    method UndispatchOrphans(gap: seq<Worked>, fault: Fault) returns (err: bool)
      modifies this, store
      ensures Left(store.db, View(), err) == ReturnOrphans(old(store.db), owner, old(View()), gap, fault)
      ensures unchanged(`seeded, `stopping, `beats)
    {
      var stamps := OrphanStamps(View());
      ghost var was := View();
      NoOrphans(was);
      Workers(gap);
      if stamps == {} {
        NothingToDo(store.db, owner);
        assert DropOrphans(View(), {}).orphans == orphans;
        return false;
      }
      if fault != Failed {
        store.db := Exec(store.db, SqlTables.Undispatch(owner, stamps, 0));
      }
      if fault != Ok {
        return true;
      }
      orphans := map k | k in orphans && Stamp(k, orphans[k]) !in stamps :: orphans[k];
      err := false;
    }

    /** Returns to pending what the tables say is in flight and the dispatcher does not track. */
    method ReconcileInFlight(gap: seq<Worked>, gap': seq<Worked>, read: Fault, write: Fault, between: Db -> Db)
      returns (err: bool)
      modifies this, store
      ensures Left(store.db, View(), err) ==
              Reconcile(old(store.db), owner, old(View()), gap, gap', read, write, between)
      ensures unchanged(`seeded, `stopping, `beats)
    {
      if !reconcile {
        return false;
      }
      if read != Ok {
        return true;
      }
      var stamped := M.InFlight(store.db, owner);
      Workers(gap);
      var untracked := Untracked(View(), stamped);
      store.db := between(store.db);
      Workers(gap');
      if untracked == {} {
        NothingToDo(store.db, owner);
      } else {
        if write != Failed {
          store.db := Exec(store.db, SqlTables.Undispatch(owner, untracked, 0));
        }
        if write != Ok {
          return true;
        }
      }
      reconcile := false;
      err := false;
    }

    /** Replaces the leases by the heartbeat's reply, lease by lease. */
    method SyncLeases(held: map<nat, Held>, now: int)
      modifies this`leases
      ensures View() == Sync(old(View()), held, now)
    {
      var next: map<nat, Lease> := map[];
      var left := held.Keys;
      while left != {}
        invariant left <= held.Keys && leases == old(leases)
        invariant next == map p | p in held.Keys - left :: SyncOne(View(), p, held[p], now)
        decreases left
      {
        var p :| p in left;
        var st := Lease(held[p].epoch, now, false, 0, 0);
        if p in leases && leases[p].epoch == held[p].epoch {
          st := leases[p];
        }
        if held[p].draining && !st.draining {
          st := st.(drainSince := now);
        }
        st := st.(draining := held[p].draining);
        next := next[p := st];
        left := left - {p};
      }
      leases := next;
    }

    /** Gives up the draining partitions that are idle or overdue. */
    method ReleaseDrained(now: int, gap: seq<Worked>, fault: Fault) returns (err: bool)
      modifies this`leases, this`inflight, this`orphans, store
      ensures unchanged(`seeded, `stopping, `beats)
      ensures Left(store.db, View(), err) ==
              GiveUp(old(store.db), owner, old(View()), now, drainTimeout, gap, fault)
    {
      var release := Releasable(leases, now, drainTimeout);
      Workers(gap);
      if release == {} {
        NothingToDo(store.db, owner);
        assert leases - release == leases;
        return false;
      }
      if fault != Failed {
        store.db := Exec(store.db, Release(owner, release));
      }
      if fault != Ok {
        return true;
      }
      leases := leases - release;
      err := false;
    }

    /** Resets stale stamps, skipping rows other transactions hold. */
    method ResetStale(scope: Scope, locked: set<Key>, fault: Fault) returns (err: bool)
      modifies store
      ensures Left(store.db, View(), err) == Reset(old(store.db), owner, View(), scope, locked, fault)
    {
      if scope == Only({}) {
        ResetNothing(store.db, owner, locked);
        return false;
      }
      if fault != Failed {
        store.db := Exec(store.db, SqlTables.ResetStale(owner, scope, locked));
      }
      err := fault != Ok;
    }

    /** Flags partitions as draining or not. */
    method Flag(parts: set<nat>, draining: bool, now: int, gap: seq<Worked>, fault: Fault) returns (err: bool)
      modifies this`leases, this`inflight, this`orphans, store
      ensures unchanged(`seeded, `stopping, `beats)
      ensures Left(store.db, View(), err) ==
              SetFlag(old(store.db), owner, old(View()), parts, draining, now, gap, fault)
    {
      Workers(gap);
      if parts == {} {
        NothingToDo(store.db, owner);
        assert Mark(View(), {}, draining, now).leases == leases;
        return false;
      }
      if fault != Failed {
        store.db := Exec(store.db, SetDraining(owner, parts, draining));
      }
      if fault != Ok {
        return true;
      }
      leases := Mark(View(), parts, draining, now).leases;
      err := false;
    }

    /** The lowest draining partitions, as many as are needed. */
    method LowestDraining(need: nat) returns (undrain: set<nat>)
      ensures Lowest(leases, undrain, need)
    {
      var le := (a: nat, b: nat) => a <= b;
      var order := First<nat>(Draining(leases), le, need);
      undrain := Elements(order);
      DistinctCounts(order);
      assert forall p, q | p in undrain && q in Draining(leases) - undrain :: le(p, q);
    }

    /** The acquire call: as many free or lapsed partitions as are needed and there are. */
    method CallAcquire(now: int, need: nat, fault: Fault, locked: set<nat>) returns (acquired: map<nat, nat>)
      requires owner != ""
      modifies store
      ensures |acquired| <= need && Legal(old(store.db), Acquire(owner, now, now + leaseTTL, acquired.Keys))
      ensures store.db == Ran(old(store.db), Acquire(owner, now, now + leaseTTL, acquired.Keys), fault)
      ensures fault == Ok ==> Exhausts(old(store.db), now, need, acquired, locked)
    {
      if fault == Failed {
        return map[];
      }
      acquired := store.AcquirePartitions(owner, now, now + leaseTTL, need, locked);
    }

    /** Acquires partitions and adopts them. */
    method AcquireMore(now: int, need: nat, gap: seq<Worked>, fault: Fault, locked: set<nat>)
      returns (acquired: map<nat, nat>, err: bool)
      requires owner != ""
      modifies this`leases, this`inflight, this`orphans, store
      ensures unchanged(`seeded, `stopping, `beats)
      ensures |acquired| <= need && Legal(old(store.db), Acquire(owner, now, now + leaseTTL, acquired.Keys))
      ensures Left(store.db, View(), err) ==
              TakeOver(old(store.db), owner, old(View()), acquired, now, now + leaseTTL, gap, fault)
      ensures !err ==> Exhausts(old(store.db), now, need, acquired, locked)
    {
      acquired := CallAcquire(now, need, fault, locked);
      Workers(gap);
      if fault != Ok {
        return acquired, true;
      }
      leases := Adopt(View(), acquired, now).leases;
      err := false;
    }

    /** Acquires and adopts partitions, and resets the stale stamps in them. */
    method Extend(now: int, need: nat, a: Around, locked: set<nat>, lockedRows: set<Key>)
      returns (acquired: map<nat, nat>, err: bool)
      requires owner != ""
      modifies this`leases, this`inflight, this`orphans, store
      ensures unchanged(`seeded, `stopping, `beats)
      ensures Extended(old(store.db), owner, old(View()), Times(now), need, acquired, locked, lockedRows, a,
                       Left(store.db, View(), err))
      ensures err ==> Faulty(a.faults)
      ensures !err ==> Active(leases) == Active(old(leases)) + acquired.Keys
    {
      acquired, err := AcquireMore(now, need, a.gaps(11), a.faults(11), locked);
      if err {
        return;
      }
      Adopted(old(View()), a.gaps(11), acquired, now);
      store.db := a.world(12, store.db);
      err := ResetStale(Only(acquired.Keys), lockedRows, a.faults(12));
    }

    /** Takes partitions back from draining, then free ones, until the share is reached. */
    method Grow(now: int, target: nat, a: Around, locked: set<nat>, lockedRows: set<Key>)
      returns (ghost choice: Choice, err: bool)
      requires owner != "" && |Active(leases)| < target
      modifies this`leases, this`inflight, this`orphans, store
      ensures unchanged(`seeded, `stopping, `beats) && choice.drained == {}
      ensures Raised(old(store.db), owner, old(View()), Times(now), target, choice, locked, lockedRows, a,
                     Left(store.db, View(), err))
      ensures err ==> Faulty(a.faults)
      ensures !err ==> |Active(leases)| <= target && Active(old(leases)) <= Active(leases)
      ensures !err && |Draining(old(leases))| >= target - |Active(old(leases))| ==> |Active(leases)| == target
    {
      var need := target - |Active(leases)|;
      ghost var was := View();
      var back := LowestDraining(need);
      choice := Choice({}, back, map[]);
      SubsetCard(back, Draining(leases));
      store.db := a.world(10, store.db);
      err := Flag(back, false, now, a.gaps(10), a.faults(10));
      if err {
        return;
      }
      FlagActive(was, a.gaps(10), back, false, now);
      assert Active(was.leases) !! back;
      if |back| == need {
        return;
      }
      store.db := a.world(11, store.db);
      var rest := need - |back|;
      var more;
      more, err := Extend(now, rest, a, locked, lockedRows);
      choice := Choice({}, back, more);
      CardinalityAtMost(Active(was.leases) + back + more.Keys, Active(was.leases), back, more.Keys);
    }

    /** Drains the least loaded partitions above the share, and releases those already idle. */
    method Shrink(now: int, target: nat, a: Around) returns (drained: set<nat>, err: bool)
      requires |Active(leases)| > target
      modifies this`leases, this`inflight, this`orphans, store
      ensures unchanged(`seeded, `stopping, `beats)
      ensures err ==> Faulty(a.faults)
      ensures LeastLoaded(old(leases), drained, |Active(old(leases))| - target)
      ensures Left(store.db, View(), err) == Lowered(old(store.db), owner, old(View()), Times(now), drained, a)
      ensures !err ==> Active(leases) == Active(old(leases)) - drained && |Active(leases)| == target
    {
      ghost var was := View();
      drained := DrainCandidates(leases, Active(leases), |Active(leases)| - target);
      store.db := a.world(10, store.db);
      err := Flag(drained, true, now, a.gaps(10), a.faults(10));
      if err {
        return;
      }
      FlagActive(was, a.gaps(10), drained, true, now);
      ghost var l1 := View();
      store.db := a.world(11, store.db);
      err := ReleaseDrained(now, a.gaps(11), a.faults(11));
      GivenUpActive(l1, now, drainTimeout, a.gaps(11));
    }

    /**
     Renews membership and leases, statement by statement, counts the members, and syncs the leases
     with the reply.
     */
    method Heartbeat(now: int, stop: bool, a: Around) returns (members: nat, err: bool)
      modifies this`leases, this`inflight, this`orphans, store
      ensures unchanged(`seeded, `stopping, `beats)
      ensures Left(store.db, View(), err) == Beat(old(store.db), owner, old(View()), Times(now), stop, a)
      ensures err ==> Faulty(a.faults)
      ensures !err ==>
        && members == |CountedIn(old(store.db), owner, Times(now), stop, a.world).members|
        && View() == Synced(old(store.db), owner, old(View()), Times(now), stop, a)
    {
      var t := Times(now);
      members := 0;
      store.db := a.world(4, store.db);
      if a.faults(4) != Failed {
        store.db := Exec(store.db, Membership(owner, t, stop));
      }
      if a.faults(4) != Ok {
        return members, true;
      }
      store.db := a.world(5, store.db);
      if a.faults(5) != Failed {
        store.db := Exec(store.db, ExpireMembers(now));
      }
      if a.faults(5) != Ok {
        return members, true;
      }
      store.db := a.world(6, store.db);
      if a.faults(6) != Ok {
        return members, true;
      }
      members := |store.db.members|;
      store.db := a.world(7, store.db);
      if a.faults(7) != Failed {
        store.db := Exec(store.db, RenewLeases(owner, t.expires));
      }
      if a.faults(7) != Ok {
        return members, true;
      }
      var held := M.Holds(store.db, owner);
      Workers(a.gaps(7));
      SyncLeases(held, now);
      err := false;
    }

    /** Creates the partition rows once, then returns orphans and reconciles. */
    method Recover(a: Around) returns (seedErr: bool, err: bool)
      modifies this, store
      ensures stopping == old(stopping) && beats == old(beats)
      ensures seedErr == (!old(seeded) && a.faults(0) != Ok) && (seedErr ==> err)
      ensures seedErr ==>
        && store.db == Ran(a.world(0, old(store.db)), EnsurePartitions, a.faults(0))
        && View() == old(View()) && !seeded
      ensures err ==> Faulty(a.faults)
      ensures !seedErr ==>
        seeded && Left(store.db, View(), err) == BeforeBeat(old(store.db), owner, old(View()), old(seeded), a)
    {
      if !seeded {
        store.db := a.world(0, store.db);
        if a.faults(0) != Failed {
          store.db := Exec(store.db, EnsurePartitions);
        }
        if a.faults(0) != Ok {
          return true, true;
        }
        seeded := true;
      }
      store.db := a.world(1, store.db);
      var orphanErr := UndispatchOrphans(a.gaps(1), a.faults(1));
      store.db := a.world(2, store.db);
      var reconcileErr := ReconcileInFlight(a.gaps(2), a.gaps(3), a.faults(2), a.faults(3), d => a.world(3, d));
      return false, orphanErr || reconcileErr;
    }

    /** Resets stale stamps, of all partitions on every tenth beat, and releases what has drained. */
    method Tidy(now: int, a: Around, lockedRows: set<Key>) returns (err: bool)
      modifies this`beats, this`leases, this`inflight, this`orphans, store
      ensures beats == old(beats) + 1
      ensures Left(store.db, View(), err) ==
              Tidied(old(store.db), owner, old(View()), Times(now),
                     ResetScope(old(View()), Due(old(beats)), now, leaseTTL), lockedRows, a)
      ensures err ==> Faulty(a.faults)
      ensures !err ==> View() == Lightened(old(View()), now, drainTimeout, a.gaps(9))
    {
      var scope := ResetScope(View(), Due(beats), now, leaseTTL);
      beats := beats + 1;
      store.db := a.world(8, store.db);
      err := ResetStale(scope, lockedRows, a.faults(8));
      if err {
        return;
      }
      store.db := a.world(9, store.db);
      err := ReleaseDrained(now, a.gaps(9), a.faults(9));
    }

    /** Renews and syncs the leases, resets stale stamps and releases what has drained. */
    method Refresh(now: int, stop: bool, a: Around, lockedRows: set<Key>) returns (err: bool, members: nat)
      modifies this, store
      ensures seeded == old(seeded) && stopping == old(stopping)
      ensures beats == old(beats) + 1 || (err && beats == old(beats))
      ensures Left(store.db, View(), err) ==
              Upkept(old(store.db), owner, old(View()), Times(now), Due(old(beats)), stop, lockedRows, a)
      ensures err ==> Faulty(a.faults)
      ensures !err ==>
        && members == |CountedIn(old(store.db), owner, Times(now), stop, a.world).members|
        && View() == Refreshed(old(store.db), owner, old(View()), Times(now), stop, a)
    {
      members, err := Heartbeat(now, stop, a);
      if err {
        return;
      }
      err := Tidy(now, a, lockedRows);
    }

    /** Moves toward the share from below or from above. */
    method Adjust(now: int, target: nat, a: Around, locked: set<nat>, lockedRows: set<Key>)
      returns (ghost choice: Choice, err: bool)
      requires owner != ""
      modifies this`leases, this`inflight, this`orphans, store
      ensures err ==> Faulty(a.faults)
      ensures unchanged(`seeded, `stopping, `beats)
      ensures Moved(old(store.db), owner, old(View()), Times(now), target, choice, locked, lockedRows, a,
                    Left(store.db, View(), err))
      ensures !err ==> Adjusted(old(leases), leases, target, choice.drained)
    {
      choice, err := Choice({}, {}, map[]), false;
      if |Active(leases)| < target {
        choice, err := Grow(now, target, a, locked, lockedRows);
      } else if |Active(leases)| > target {
        var drained;
        drained, err := Shrink(now, target, a);
        choice := Choice(drained, {}, map[]);
      }
    }

    /** The heartbeat, its upkeep, and the move toward the share by the members it counted. */
    method Balance(now: int, stop: bool, a: Around, locked: set<nat>, lockedRows: set<Key>)
      returns (ghost choice: Choice, err: bool)
      requires owner != ""
      modifies this, store
      ensures seeded == old(seeded) && stopping == old(stopping)
      ensures beats == old(beats) + 1 || (err && beats == old(beats))
      ensures Beaten(old(store.db), owner, old(View()), Times(now), Due(old(beats)), stop, choice, locked, lockedRows,
                     a, Left(store.db, View(), err))
      ensures err ==> Faulty(a.faults)
      ensures !err ==>
        var at := Weighed(old(store.db), owner, old(View()), Times(now), stop, a);
        var members := |CountedIn(old(store.db), owner, Times(now), stop, a.world).members|;
        Adjusted(at.leases, leases, if stop then 0 else Share(members), choice.drained)
    {
      choice := Choice({}, {}, map[]);
      var members;
      err, members := Refresh(now, stop, a, lockedRows);
      if err {
        return;
      }
      var target := if stop then 0 else Share(members);
      Workers(a.gaps(13));
      choice, err := Adjust(now, target, a, locked, lockedRows);
    }

    /**
     One rebalance. An error-free one ends at or under this member's share of the 64 partitions,
     by the members its heartbeat counted in the tables as others had left them, none when it is
     stopping; what it newly drains is the least loaded surplus of the leases it then had. However its
     calls end, the tables and the view are those its sections leave one after another.
     */
    method Rebalance(now: int, a: Around, locked: set<nat>, lockedRows: set<Key>)
      returns (ghost choice: Choice, err: bool)
      requires owner != ""
      modifies this, store
      ensures seeded == (old(seeded) || a.faults(0) == Ok) && stopping == old(stopping)
      ensures beats == old(beats) + 1 || (err && beats == old(beats))
      ensures Cycled(old(store.db), owner, old(View()), old(seeded), Times(now), Due(old(beats)), old(stopping),
                     choice, locked, lockedRows, a, Left(store.db, View(), err))
      ensures err ==> Faulty(a.faults)
      ensures !err ==>
        var met := BeforeBeat(old(store.db), owner, old(View()), old(seeded), a);
        var at := Weighed(met.db, owner, met.view, Times(now), old(stopping), a);
        var members := |CountedIn(met.db, owner, Times(now), old(stopping), a.world).members|;
        Adjusted(at.leases, leases, if old(stopping) then 0 else Share(members), choice.drained)
    {
      choice := Choice({}, {}, map[]);
      var seedErr, orphanErr := Recover(a);
      if seedErr {
        return choice, true;
      }
      choice, err := Balance(now, stopping, a, locked, lockedRows);
      err := err || orphanErr;
    }

    /** Leaves at once: the orphans go back, the partitions are free for the peers. */
    method Close(gap: seq<Worked>, orphanFault: Fault, fault: Fault, between: Db -> Db) returns (err: bool)
      modifies this, store
      ensures unchanged(`seeded, `stopping, `beats)
      ensures Left(store.db, View(), err) ==
              Closed(old(store.db), owner, old(View()), gap, orphanFault, fault, between)
      ensures fault != Failed && owner != "" ==> forall p :: !Owns(store.db, owner, p)
    {
      var orphanErr := UndispatchOrphans(gap, orphanFault);
      store.db := between(store.db);
      if fault != Failed {
        store.db := Exec(store.db, Leave(owner));
      }
      if fault != Ok {
        return true;
      }
      leases := map[];
      err := orphanErr;
    }
  }
}
