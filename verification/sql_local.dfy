/**
 A dispatcher's own view of its leases and in-flight requests, and the bookkeeping
 done under its mutex, as functions from view to view.
 */
module SqlLocal {
  import opened SqlTables

  datatype Tracked = Tracked(part: nat, epoch: nat, attempt: nat)

  /** What a lease statement reports of one partition. */
  datatype Held = Held(epoch: nat, draining: bool)

  datatype Lease = Lease(epoch: nat, acquiredAt: int, draining: bool, drainSince: int, inflight: nat)

  datatype Local = Local(reconcile: bool, leases: map<nat, Lease>, inflight: map<Key, Tracked>, orphans: map<Key, nat>)

  const Fresh := Local(false, map[], map[], map[])

  predicate Leases(l: Local, part: nat, epoch: nat) {
    part in l.leases && l.leases[part].epoch == epoch
  }

  /** The lease's count moved by one, never below zero. */
  function Bump(l: Local, part: nat, epoch: nat, up: bool): Local {
    if !Leases(l, part, epoch) || (!up && l.leases[part].inflight == 0) then l
    else
      var n := l.leases[part].inflight;
      l.(leases := l.leases[part := l.leases[part].(inflight := if up then n + 1 else n - 1)])
  }

  function Untrack(l: Local, k: Key): Local
    requires k in l.inflight
  {
    var t := l.inflight[k];
    Bump(l.(inflight := l.inflight - {k}), t.part, t.epoch, false)
  }

  /** Poll's bookkeeping of one dispatched row. */
  function Book(l: Local, k: Key, t: Tracked): Local {
    var u := if k in l.inflight then Untrack(l, k) else l;
    Bump(u.(orphans := u.orphans - {k}, inflight := u.inflight[k := t]), t.part, t.epoch, true)
  }

  predicate Tracks(l: Local, st: Stamp) {
    st.key in l.inflight && l.inflight[st.key].attempt == st.attempt
  }

  /** An outcome was written: forget the attempt, unless a newer one replaced it. */
  function Settle(l: Local, st: Stamp): Local {
    if Tracks(l, st) then Untrack(l, st.key) else l
  }

  /** An outcome could not be written: keep the attempt for the next rebalance. */
  function Abandon(l: Local, st: Stamp): Local {
    if Tracks(l, st) then Untrack(l.(orphans := l.orphans[st.key := st.attempt]), st.key) else l
  }

  function OrphanStamps(l: Local): set<Stamp> {
    set k | k in l.orphans :: Stamp(k, l.orphans[k])
  }

  function DropOrphans(l: Local, stamps: set<Stamp>): Local {
    l.(orphans := map k | k in l.orphans && Stamp(k, l.orphans[k]) !in stamps :: l.orphans[k])
  }

  function Untracked(l: Local, stamps: set<Stamp>): set<Stamp> {
    set st | st in stamps && !Tracks(l, st)
  }

  function SyncOne(l: Local, p: nat, h: Held, now: int): Lease {
    var st := if Leases(l, p, h.epoch) then l.leases[p] else Lease(h.epoch, now, false, 0, 0);
    st.(draining := h.draining, drainSince := if h.draining && !st.draining then now else st.drainSince)
  }

  /** The heartbeat's reply replaces the leases, keeping the counts of those that lived on. */
  function Sync(l: Local, held: map<nat, Held>, now: int): Local {
    l.(leases := map p | p in held :: SyncOne(l, p, held[p], now))
  }

  function Adopt(l: Local, acquired: map<nat, nat>, now: int): Local {
    l.(leases := l.leases + map p | p in acquired :: Lease(acquired[p], now, false, 0, 0))
  }

  function Mark(l: Local, parts: set<nat>, draining: bool, now: int): Local {
    l.(leases := map p | p in l.leases ::
      if p !in parts then l.leases[p]
      else if draining then l.leases[p].(draining := true, drainSince := now)
      else l.leases[p].(draining := false))
  }

  function Forget(l: Local, parts: set<nat>): Local {
    l.(leases := l.leases - parts)
  }

  /** The requests counted against one lease. */
  function TrackedAt(l: Local, part: nat, epoch: nat): set<Key> {
    set k | k in l.inflight && l.inflight[k].part == part && l.inflight[k].epoch == epoch
  }

  ghost predicate CountedAt(l: Local, p: nat, exact: bool)
    requires p in l.leases
  {
    var n, m := l.leases[p].inflight, |TrackedAt(l, p, l.leases[p].epoch)|;
    n <= m && (exact ==> n == m)
  }

  /** Every lease's count is at most the requests tracked under it, and exact when `exact`. */
  ghost predicate Counted(l: Local, exact: bool) {
    forall p | p in l.leases :: CountedAt(l, p, exact)
  }

  lemma UntrackCountsAt(l: Local, k: Key, p: nat, exact: bool)
    requires p in l.leases && k in l.inflight && CountedAt(l, p, exact)
    ensures CountedAt(Untrack(l, k), p, exact)
  {
    var u, t, e := Untrack(l, k), l.inflight[k], l.leases[p].epoch;
    assert TrackedAt(u, p, e) == TrackedAt(l, p, e) - {k};
    if t.part == p && t.epoch == e {
      assert k in TrackedAt(l, p, e);
    }
  }

  lemma UntrackCounts(l: Local, k: Key, exact: bool)
    requires Counted(l, exact) && k in l.inflight
    ensures Counted(Untrack(l, k), exact)
  {
    forall p | p in Untrack(l, k).leases ensures CountedAt(Untrack(l, k), p, exact) {
      UntrackCountsAt(l, k, p, exact);
    }
  }

  lemma TrackCountsAt(l: Local, k: Key, t: Tracked, p: nat, exact: bool)
    requires p in l.leases && k !in l.inflight && CountedAt(l, p, exact)
    ensures CountedAt(Book(l, k, t), p, exact)
  {
    var b, e := Book(l, k, t), l.leases[p].epoch;
    assert b.inflight == l.inflight[k := t] && b.leases[p].epoch == e;
    assert k !in TrackedAt(l, p, e);
    if t.part == p && t.epoch == e {
      assert TrackedAt(b, p, e) == TrackedAt(l, p, e) + {k};
    } else {
      assert TrackedAt(b, p, e) == TrackedAt(l, p, e);
    }
  }

  lemma BookCounts(l: Local, k: Key, t: Tracked, exact: bool)
    requires Counted(l, exact)
    ensures Counted(Book(l, k, t), exact)
    decreases k in l.inflight
  {
    if k in l.inflight {
      UntrackCounts(l, k, exact);
      BookCounts(Untrack(l, k), k, t, exact);
    } else {
      forall p | p in Book(l, k, t).leases ensures CountedAt(Book(l, k, t), p, exact) {
        TrackCountsAt(l, k, t, p, exact);
      }
    }
  }

  lemma AbandonCounts(l: Local, st: Stamp, exact: bool)
    requires Counted(l, exact)
    ensures Counted(Abandon(l, st), exact)
  {
    if Tracks(l, st) {
      var o := l.(orphans := l.orphans[st.key := st.attempt]);
      forall p | p in l.leases ensures TrackedAt(o, p, o.leases[p].epoch) == TrackedAt(l, p, l.leases[p].epoch) {
      }
      UntrackCounts(o, st.key, exact);
    }
  }

  lemma SyncCounts(l: Local, held: map<nat, Held>, now: int, exact: bool)
    requires Counted(l, exact)
    requires exact ==> forall p | p in held :: Leases(l, p, held[p].epoch)
    ensures Counted(Sync(l, held, now), exact)
  {
    var s := Sync(l, held, now);
    forall p | p in s.leases ensures TrackedAt(s, p, s.leases[p].epoch) == TrackedAt(l, p, held[p].epoch) {
    }
  }

  lemma AdoptCounts(l: Local, acquired: map<nat, nat>, now: int, exact: bool)
    requires Counted(l, exact)
    requires forall k | k in l.inflight ::
      l.inflight[k].part in acquired
      ==> l.inflight[k].epoch != acquired[l.inflight[k].part]
    ensures Counted(Adopt(l, acquired, now), exact)
  {
    var a := Adopt(l, acquired, now);
    forall p | p in a.leases
      ensures TrackedAt(a, p, a.leases[p].epoch) == if p in acquired then {} else TrackedAt(l, p, l.leases[p].epoch)
    {
    }
  }

  lemma LeasesCount(l: Local, l': Local, exact: bool)
    requires Counted(l, exact) && l'.inflight == l.inflight
    requires forall p | p in l'.leases ::
      && Leases(l, p, l'.leases[p].epoch)
      && l'.leases[p].inflight == l.leases[p].inflight
    ensures Counted(l', exact)
  {
    forall p | p in l'.leases ensures TrackedAt(l', p, l'.leases[p].epoch) == TrackedAt(l, p, l.leases[p].epoch) {
    }
  }

  ghost predicate SameEpochs(l: Local, l': Local) {
    l'.leases.Keys == l.leases.Keys && forall p | p in l.leases :: l'.leases[p].epoch == l.leases[p].epoch
  }

  lemma UntrackEffect(l: Local, k: Key)
    requires k in l.inflight
    ensures var u := Untrack(l, k);
      SameEpochs(l, u) && u.inflight == l.inflight - {k} && u.orphans == l.orphans && u.reconcile == l.reconcile
  {
  }

  lemma BookEffect(l: Local, k: Key, t: Tracked)
    ensures var b := Book(l, k, t);
      SameEpochs(l, b) && b.inflight == l.inflight[k := t] && b.orphans == l.orphans - {k} && b.reconcile == l.reconcile
  {
  }
}
