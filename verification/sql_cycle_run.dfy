/**
 A whole rebalance, and a close, as one run of the protocol: before each of its calls other
 dispatchers, producers and its own workers take any steps, and what those leave is what the
 call finds. So the view it leaves is in step with the tables.
 */
module SqlCycleRun {
  import opened Calls
  import opened SqlTables
  import opened SqlLocal
  import opened SqlMirror
  import opened SqlSections
  import R = SqlRefinement
  import C = SqlCycle

  /** Steps that are not part of the dispatcher's cycle: of others, or outcome calls of its own workers. */
  predicate NotOf(st: Step, o: string) {
    match st
    case Crash(p) => p != o
    case Do(p, act) => p != o || act.AckCall? || act.RetryCall? || act.ReturnCall?
    case _ => true
  }

  predicate Others(steps: seq<Step>, o: string) { forall st | st in steps :: NotOf(st, o) }

  lemma OtherKeeps(s: System, st: Step, o: string)
    requires o in s.nodes && NotOf(st, o)
    ensures var s' := Next(s, st);
      o in s'.nodes && s'.nodes[o].local == s.nodes[o].local && s'.nodes[o].pc == s.nodes[o].pc
  {
  }

  lemma {:induction false} OthersKeep(s: System, steps: seq<Step>, o: string)
    requires o in s.nodes && Others(steps, o)
    ensures var s' := Run(s, steps);
      o in s'.nodes && s'.nodes[o].local == s.nodes[o].local && s'.nodes[o].pc == s.nodes[o].pc
    decreases |steps|
  {
    if steps != [] {
      assert NotOf(steps[0], o);
      OtherKeeps(s, steps[0], o);
      OthersKeep(Next(s, steps[0]), steps[1..], o);
    }
  }

  ghost predicate Reaches(s: System, s': System) { exists steps :: Run(s, steps) == s' }

  lemma ReachesJoin(s: System, s1: System, s2: System)
    requires Reaches(s, s1) && Reaches(s1, s2)
    ensures Reaches(s, s2)
  {
    var a :| Run(s, a) == s1;
    var b :| Run(s1, b) == s2;
    R.RunJoins(s, a, b);
    assert Run(s, a + b) == s2;
  }

  lemma ReachesItself(s: System)
    ensures Reaches(s, s)
  {
    assert Run(s, []) == s;
  }

  /** The dispatcher between two calls, the tables, and its view. */
  ghost predicate At(s: System, o: string, pc: Pc, db: Db, l: Local) {
    o in s.nodes && s.nodes[o].pc == pc && s.nodes[o].local == l && s.h.db == db
  }

  function Viewed(s: System, o: string): Local { if o in s.nodes then s.nodes[o].local else SqlLocal.Fresh }

  /** What the workers report as written. */
  function Reported(gap: seq<C.Worked>): set<Stamp> {
    set op, st | op in gap && op.DoneWith? && st in op.stamps :: st
  }

  lemma ReportsAreHonest(gap: seq<C.Worked>)
    ensures Honest(gap, Reported(gap))
  {
  }

  /** A dispatcher's cycle: its surroundings, and the steps others take before the i-th call. */
  datatype Cycle = Cycle(o: string, a: C.Around, others: nat -> seq<Step>)

  /**
   The i-th call, if it comes to it: the tables the surroundings promise are those the steps of the
   others leave, what its workers report was written by then, and the dispatcher takes its own steps.
   */
  ghost predicate Turn(c: Cycle, i: nat, s: System, s': System, made: bool, gap: seq<C.Worked>, own: seq<Step>) {
    if !made then s' == s
    else
      var m := Run(s, c.others(i));
      && Others(c.others(i), c.o) && m.h.db == c.a.world(i, s.h.db)
      && (c.o in m.nodes ==> Settling(m.nodes[c.o], Reported(gap))) && s' == Run(m, own)
  }

  lemma TurnReaches(c: Cycle, i: nat, s: System, s': System, made: bool, gap: seq<C.Worked>, own: seq<Step>)
    requires Turn(c, i, s, s', made, gap, own)
    ensures Reaches(s, s')
  {
    if made {
      R.RunJoins(s, c.others(i), own);
      assert Run(s, c.others(i) + own) == s';
    } else {
      ReachesItself(s);
    }
  }

  /** The system the call finds. */
  lemma TurnFinds(c: Cycle, i: nat, s: System, s': System, gap: seq<C.Worked>, own: seq<Step>, pc: Pc, db: Db, l: Local)
    returns (m: System)
    requires Turn(c, i, s, s', true, gap, own) && At(s, c.o, pc, db, l)
    ensures At(m, c.o, pc, c.a.world(i, db), l) && Settling(m.nodes[c.o], Reported(gap)) && s' == Run(m, own)
    ensures Honest(gap, Reported(gap))
  {
    m := Run(s, c.others(i));
    OthersKeep(s, c.others(i), c.o);
    ReportsAreHonest(gap);
  }

  // The calls, one by one.

  function OutsideSteps(st: Stmt, f: Fault): seq<Step> { if f == Failed then [] else [Outside(st)] }

  lemma OutsideTurn(c: Cycle, i: nat, s: System, s': System, st: Stmt, db: Db, l: Local)
    requires Turn(c, i, s, s', true, [], OutsideSteps(st, c.a.faults(i))) && At(s, c.o, Idle, db, l)
    requires FromOutside(st) && Legal(c.a.world(i, db), st)
    ensures At(s', c.o, Idle, C.Ran(c.a.world(i, db), st, c.a.faults(i)), l)
  {
    var m := TurnFinds(c, i, s, s', [], OutsideSteps(st, c.a.faults(i)), Idle, db, l);
    if c.a.faults(i) != Failed {
      R.RunOne(m, Outside(st));
    }
  }

  lemma OrphansTurn(c: Cycle, s: System, s': System, db: Db, l: Local)
    requires Turn(c, 1, s, s', true, c.a.gaps(1), OrphanSteps(c.o, l, c.a.gaps(1), c.a.faults(1)))
    requires At(s, c.o, Idle, db, l)
    ensures var r := C.ReturnOrphans(c.a.world(1, db), c.o, l, c.a.gaps(1), c.a.faults(1));
      At(s', c.o, Idle, r.db, r.view)
  {
    var gap := c.a.gaps(1);
    var m := TurnFinds(c, 1, s, s', gap, OrphanSteps(c.o, l, gap, c.a.faults(1)), Idle, db, l);
    OrphansIsRun(m, c.o, gap, c.a.faults(1), Reported(gap));
  }

  lemma ReadTurn(c: Cycle, s: System, s': System, db: Db, l: Local)
    requires Turn(c, 2, s, s', true, c.a.gaps(2), ReadSteps(c.o, c.a.gaps(2))) && At(s, c.o, Idle, db, l) && l.reconcile
    ensures var found, gap := c.a.world(2, db), c.a.gaps(2);
      At(s', c.o, Leftover(C.Leftover(found, c.o, l, gap)), found, C.Gap(l, gap))
  {
    var gap := c.a.gaps(2);
    var m := TurnFinds(c, 2, s, s', gap, ReadSteps(c.o, gap), Idle, db, l);
    ReconcileReadIsRun(m, c.o, gap, Reported(gap));
  }

  lemma WriteTurn(c: Cycle, s: System, s': System, stamps: set<Stamp>, db: Db, l: Local)
    requires Turn(c, 3, s, s', true, c.a.gaps(3), WriteSteps(c.o, stamps, c.a.gaps(3), c.a.faults(3)))
    requires At(s, c.o, Leftover(stamps), db, l)
    ensures var f, w := C.Called(c.a.faults(3), stamps != {}), C.Gap(l, c.a.gaps(3));
      At(s', c.o, Idle, C.Ran(c.a.world(3, db), Undispatch(c.o, stamps, 0), f),
         if f == Ok then w.(reconcile := false) else w)
  {
    var gap := c.a.gaps(3);
    var m := TurnFinds(c, 3, s, s', gap, WriteSteps(c.o, stamps, gap, c.a.faults(3)), Leftover(stamps), db, l);
    ReconcileWriteIsRun(m, c.o, gap, c.a.faults(3), Reported(gap));
  }

  lemma RenewTurn(c: Cycle, s: System, s': System, now: int, expires: int, gap: seq<C.Worked>, db: Db, l: Local)
    requires gap == if c.a.faults(7) == Ok then c.a.gaps(7) else []
    requires Turn(c, 7, s, s', true, gap, BeatSteps(c.o, now, expires, gap, c.a.faults(7))) && At(s, c.o, Idle, db, l)
    ensures var renewed := C.Ran(c.a.world(7, db), RenewLeases(c.o, expires), c.a.faults(7));
      At(s', c.o, Idle, renewed, if c.a.faults(7) == Ok then Sync(C.Gap(l, gap), Holds(renewed, c.o), now) else l)
  {
    var f := c.a.faults(7);
    var m := TurnFinds(c, 7, s, s', gap, BeatSteps(c.o, now, expires, gap, f), Idle, db, l);
    if f == Ok {
      BeatIsRun(m, c.o, now, expires, gap, Reported(gap));
    } else {
      FailedBeatIsRun(m, c.o, now, expires, gap, f, Reported(gap));
    }
  }

  lemma ResetTurn(c: Cycle, i: nat, s: System, s': System, scope: Scope, locked: set<Key>, db: Db, l: Local)
    requires Turn(c, i, s, s', true, [], ResetSteps(c.o, scope, locked, c.a.faults(i))) && At(s, c.o, Idle, db, l)
    ensures var r := C.Reset(c.a.world(i, db), c.o, l, scope, locked, c.a.faults(i)); At(s', c.o, Idle, r.db, r.view)
  {
    var m := TurnFinds(c, i, s, s', [], ResetSteps(c.o, scope, locked, c.a.faults(i)), Idle, db, l);
    ResetIsRun(m, c.o, scope, locked, c.a.faults(i), Reported([]));
  }

  lemma GiveTurn(c: Cycle, i: nat, s: System, s': System, now: int, timeout: int, db: Db, l: Local)
    requires Turn(c, i, s, s', true, c.a.gaps(i),
                  GiveSteps(c.o, C.Releasable(l.leases, now, timeout), c.a.gaps(i), c.a.faults(i)))
    requires At(s, c.o, Idle, db, l)
    ensures var r := C.GiveUp(c.a.world(i, db), c.o, l, now, timeout, c.a.gaps(i), c.a.faults(i));
      At(s', c.o, Idle, r.db, r.view)
  {
    var gap, f := c.a.gaps(i), c.a.faults(i);
    var own := GiveSteps(c.o, C.Releasable(l.leases, now, timeout), gap, f);
    var m := TurnFinds(c, i, s, s', gap, own, Idle, db, l);
    ReleaseIsRun(m, c.o, now, timeout, gap, f, Reported(gap));
  }

  lemma FlagTurn(c: Cycle, s: System, s': System, parts: set<nat>, draining: bool, now: int, db: Db, l: Local)
    requires Turn(c, 10, s, s', true, c.a.gaps(10),
                  FlagSteps(c.o, parts, draining, now, c.a.gaps(10), c.a.faults(10)))
    requires At(s, c.o, Idle, db, l)
    ensures var r := C.SetFlag(c.a.world(10, db), c.o, l, parts, draining, now, c.a.gaps(10), c.a.faults(10));
      At(s', c.o, Idle, r.db, r.view)
  {
    var gap, f := c.a.gaps(10), c.a.faults(10);
    var m := TurnFinds(c, 10, s, s', gap, FlagSteps(c.o, parts, draining, now, gap, f), Idle, db, l);
    FlagIsRun(m, c.o, parts, draining, now, gap, f, Reported(gap));
  }

  lemma TakeTurn(c: Cycle, s: System, s': System, acquired: map<nat, nat>, now: int, expires: int, db: Db, l: Local)
    requires Turn(c, 11, s, s', true, c.a.gaps(11),
                  TakeSteps(c.o, acquired.Keys, now, expires, c.a.gaps(11), c.a.faults(11)))
    requires At(s, c.o, Idle, db, l) && Legal(c.a.world(11, db), Acquire(c.o, now, expires, acquired.Keys))
    requires c.a.faults(11) == Ok ==> forall p | p in acquired :: acquired[p] == c.a.world(11, db).parts[p].epoch + 1
    ensures var r := C.TakeOver(c.a.world(11, db), c.o, l, acquired, now, expires, c.a.gaps(11), c.a.faults(11));
      At(s', c.o, Idle, r.db, r.view)
  {
    var gap, f := c.a.gaps(11), c.a.faults(11);
    var m := TurnFinds(c, 11, s, s', gap, TakeSteps(c.o, acquired.Keys, now, expires, gap, f), Idle, db, l);
    TakeOverIsRun(m, c.o, acquired, now, expires, gap, f, Reported(gap));
  }

  // The parts of a rebalance. `v(i)` is the system after the first i turns.

  predicate Comparing(s: System, o: string) { o in s.nodes && s.nodes[o].pc.Leftover? }

  function Compared(s: System, o: string): set<Stamp> { if Comparing(s, o) then s.nodes[o].pc.stamps else {} }

  ghost predicate RecoverTurns(c: Cycle, v: nat -> System) {
    var a, l1, l2 := c.a, Viewed(v(1), c.o), Viewed(v(2), c.o);
    var looks := l2.reconcile && a.faults(2) == Ok;
    && Turn(c, 1, v(1), v(2), true, a.gaps(1), OrphanSteps(c.o, l1, a.gaps(1), a.faults(1)))
    && Turn(c, 2, v(2), v(3), true, if looks then a.gaps(2) else [], if looks then ReadSteps(c.o, a.gaps(2)) else [])
    && Turn(c, 3, v(3), v(4), Comparing(v(3), c.o), a.gaps(3),
            WriteSteps(c.o, Compared(v(3), c.o), a.gaps(3), a.faults(3)))
  }

  lemma RecoverIsRun(c: Cycle, v: nat -> System, db: Db, l: Local)
    requires RecoverTurns(c, v) && At(v(1), c.o, Idle, db, l)
    ensures var r := C.Recovered(db, c.o, l, c.a); At(v(4), c.o, Idle, r.db, r.view)
  {
    var a := c.a;
    OrphansTurn(c, v(1), v(2), db, l);
    var r := C.ReturnOrphans(a.world(1, db), c.o, l, a.gaps(1), a.faults(1));
    if r.view.reconcile && a.faults(2) == Ok {
      ReadTurn(c, v(2), v(3), r.db, r.view);
      var found := a.world(2, r.db);
      WriteTurn(c, v(3), v(4), C.Leftover(found, c.o, r.view, a.gaps(2)), found, C.Gap(r.view, a.gaps(2)));
    } else {
      var m := TurnFinds(c, 2, v(2), v(3), [], [], Idle, r.db, r.view);
    }
  }

  /** The calls of a heartbeat up to the one that fails. */
  ghost predicate BeatTurns(c: Cycle, v: nat -> System, t: C.Timing, stop: bool) {
    var a := c.a;
    var gap := if a.faults(7) == Ok then a.gaps(7) else [];
    var ok4 := a.faults(4) == Ok;
    var ok5 := ok4 && a.faults(5) == Ok;
    var ok6 := ok5 && a.faults(6) == Ok;
    && Turn(c, 4, v(4), v(5), true, [], OutsideSteps(C.Membership(c.o, t, stop), a.faults(4)))
    && Turn(c, 5, v(5), v(6), ok4, [], OutsideSteps(ExpireMembers(t.now), a.faults(5)))
    && Turn(c, 6, v(6), v(7), ok5, [], [])
    && Turn(c, 7, v(7), v(8), ok6, gap, BeatSteps(c.o, t.now, t.expires, gap, a.faults(7)))
  }

  lemma BeatIsWholeRun(c: Cycle, v: nat -> System, t: C.Timing, stop: bool, db: Db, l: Local)
    requires BeatTurns(c, v, t, stop) && At(v(4), c.o, Idle, db, l)
    ensures var b := C.Beat(db, c.o, l, t, stop, c.a); At(v(8), c.o, Idle, b.db, b.view)
  {
    var a, joins := c.a, C.Membership(c.o, t, stop);
    OutsideTurn(c, 4, v(4), v(5), joins, db, l);
    if a.faults(4) == Ok {
      ExpireIsRun(c, v, t, stop, C.Ran(a.world(4, db), joins, Ok), l);
    }
  }

  lemma ExpireIsRun(c: Cycle, v: nat -> System, t: C.Timing, stop: bool, db: Db, l: Local)
    requires BeatTurns(c, v, t, stop) && At(v(5), c.o, Idle, db, l) && c.a.faults(4) == Ok
    ensures var r := C.AfterJoin(db, c.o, l, t, c.a); At(v(8), c.o, Idle, r.db, r.view)
  {
    OutsideTurn(c, 5, v(5), v(6), ExpireMembers(t.now), db, l);
    if c.a.faults(5) == Ok {
      RenewIsRun(c, v, t, stop, C.Ran(c.a.world(5, db), ExpireMembers(t.now), Ok), l);
    }
  }

  lemma RenewIsRun(c: Cycle, v: nat -> System, t: C.Timing, stop: bool, db: Db, l: Local)
    requires BeatTurns(c, v, t, stop) && At(v(6), c.o, Idle, db, l) && c.a.faults(4) == c.a.faults(5) == Ok
    ensures var r := C.CountAndRenew(db, c.o, l, t, c.a); At(v(8), c.o, Idle, r.db, r.view)
  {
    var m := TurnFinds(c, 6, v(6), v(7), [], [], Idle, db, l);
    if c.a.faults(6) == Ok {
      var gap := if c.a.faults(7) == Ok then c.a.gaps(7) else [];
      RenewTurn(c, v(7), v(8), t.now, t.expires, gap, c.a.world(6, db), l);
    }
  }

  /** The members are counted in the tables the sixth call finds. */
  lemma CountsMembers(c: Cycle, v: nat -> System, t: C.Timing, stop: bool, db: Db, l: Local)
    requires BeatTurns(c, v, t, stop) && At(v(4), c.o, Idle, db, l)
    requires c.a.faults(4) == c.a.faults(5) == Ok
    ensures v(7).h.db == C.CountedIn(db, c.o, t, stop, c.a.world)
  {
    var a, joins := c.a, C.Membership(c.o, t, stop);
    OutsideTurn(c, 4, v(4), v(5), joins, db, l);
    var joined := C.Ran(a.world(4, db), joins, Ok);
    OutsideTurn(c, 5, v(5), v(6), ExpireMembers(t.now), joined, l);
    var m := TurnFinds(c, 6, v(6), v(7), [], [], Idle, C.Ran(a.world(5, joined), ExpireMembers(t.now), Ok), l);
  }

  ghost predicate TidyTurns(c: Cycle, v: nat -> System, t: C.Timing, full: bool, locked: set<Key>) {
    var a, l8, l9 := c.a, Viewed(v(8), c.o), Viewed(v(9), c.o);
    var scope := C.ResetScope(l8, full, t.now, t.ttl);
    && Turn(c, 8, v(8), v(9), true, [], ResetSteps(c.o, scope, locked, a.faults(8)))
    && Turn(c, 9, v(9), v(10), C.Called(a.faults(8), scope != Only({})) == Ok, a.gaps(9),
            GiveSteps(c.o, C.Releasable(l9.leases, t.now, t.drain), a.gaps(9), a.faults(9)))
  }

  lemma TidyIsRun(c: Cycle, v: nat -> System, t: C.Timing, full: bool, locked: set<Key>, db: Db, l: Local)
    requires TidyTurns(c, v, t, full, locked) && At(v(8), c.o, Idle, db, l)
    ensures var d := C.Tidied(db, c.o, l, t, C.ResetScope(l, full, t.now, t.ttl), locked, c.a);
      At(v(10), c.o, Idle, d.db, d.view)
  {
    var scope := C.ResetScope(l, full, t.now, t.ttl);
    ResetTurn(c, 8, v(8), v(9), scope, locked, db, l);
    var r := C.Reset(c.a.world(8, db), c.o, l, scope, locked, c.a.faults(8));
    if !r.err {
      GiveTurn(c, 9, v(9), v(10), t.now, t.drain, r.db, r.view);
    }
  }

  ghost predicate GrowTurns(c: Cycle, v: nat -> System, t: C.Timing, need: nat, pick: C.Choice, locked: set<Key>) {
    var a := c.a;
    var more := C.Called(a.faults(10), pick.undrain != {}) == Ok && |pick.undrain| != need;
    && Turn(c, 10, v(11), v(12), true, a.gaps(10),
            FlagSteps(c.o, pick.undrain, false, t.now, a.gaps(10), a.faults(10)))
    && Turn(c, 11, v(12), v(13), more, a.gaps(11),
            TakeSteps(c.o, pick.acquired.Keys, t.now, t.expires, a.gaps(11), a.faults(11)))
    && Turn(c, 12, v(13), v(14), more && a.faults(11) == Ok, [],
            ResetSteps(c.o, Only(pick.acquired.Keys), locked, a.faults(12)))
  }

  lemma GrowIsRun(c: Cycle, v: nat -> System, t: C.Timing, target: nat, pick: C.Choice, held: set<nat>,
                  locked: set<Key>, db: Db, l: Local, left: C.Left)
    requires |C.Active(l.leases)| < target && At(v(11), c.o, Idle, db, l)
    requires GrowTurns(c, v, t, target - |C.Active(l.leases)|, pick, locked)
    requires C.Raised(db, c.o, l, t, target, pick, held, locked, c.a, left)
    ensures At(v(14), c.o, Idle, left.db, left.view)
  {
    var a := c.a;
    FlagTurn(c, v(11), v(12), pick.undrain, false, t.now, db, l);
    var f := C.SetFlag(a.world(10, db), c.o, l, pick.undrain, false, t.now, a.gaps(10), a.faults(10));
    if !f.err && |pick.undrain| != target - |C.Active(l.leases)| {
      TakeTurn(c, v(12), v(13), pick.acquired, t.now, t.expires, f.db, f.view);
      var g := C.TakeOver(a.world(11, f.db), c.o, f.view, pick.acquired, t.now, t.expires, a.gaps(11), a.faults(11));
      if !g.err {
        ResetTurn(c, 12, v(13), v(14), Only(pick.acquired.Keys), locked, g.db, g.view);
      }
    }
  }

  ghost predicate ShrinkTurns(c: Cycle, v: nat -> System, t: C.Timing, drained: set<nat>) {
    var a, l := c.a, Viewed(v(12), c.o);
    && Turn(c, 10, v(11), v(12), true, a.gaps(10), FlagSteps(c.o, drained, true, t.now, a.gaps(10), a.faults(10)))
    && Turn(c, 11, v(12), v(13), C.Called(a.faults(10), drained != {}) == Ok, a.gaps(11),
            GiveSteps(c.o, C.Releasable(l.leases, t.now, t.drain), a.gaps(11), a.faults(11)))
    && v(14) == v(13)
  }

  lemma ShrinkIsRun(c: Cycle, v: nat -> System, t: C.Timing, drained: set<nat>, db: Db, l: Local)
    requires At(v(11), c.o, Idle, db, l) && ShrinkTurns(c, v, t, drained)
    ensures var r := C.Lowered(db, c.o, l, t, drained, c.a); At(v(14), c.o, Idle, r.db, r.view)
  {
    var a := c.a;
    FlagTurn(c, v(11), v(12), drained, true, t.now, db, l);
    var f := C.SetFlag(a.world(10, db), c.o, l, drained, true, t.now, a.gaps(10), a.faults(10));
    if !f.err {
      GiveTurn(c, 11, v(12), v(13), t.now, t.drain, f.db, f.view);
    }
  }

  /** The workers meanwhile, and the move toward the share. */
  ghost predicate MoveTurns(c: Cycle, v: nat -> System, t: C.Timing, target: nat, pick: C.Choice, locked: set<Key>) {
    var n := |C.Active(Viewed(v(11), c.o).leases)|;
    && (c.o in v(10).nodes ==> Settling(v(10).nodes[c.o], Reported(c.a.gaps(13))))
    && v(11) == Run(v(10), Gaps(c.o, c.a.gaps(13)))
    && if n < target then GrowTurns(c, v, t, target - n, pick, locked)
       else if n > target then ShrinkTurns(c, v, t, pick.drained)
       else v(14) == v(13) == v(12) == v(11)
  }

  lemma MoveIsRun(c: Cycle, v: nat -> System, t: C.Timing, target: nat, pick: C.Choice, held: set<nat>,
                  locked: set<Key>, db: Db, l: Local, left: C.Left)
    requires At(v(10), c.o, Idle, db, l) && MoveTurns(c, v, t, target, pick, locked)
    requires C.Moved(db, c.o, C.Gap(l, c.a.gaps(13)), t, target, pick, held, locked, c.a, left)
    ensures At(v(14), c.o, Idle, left.db, left.view)
  {
    var gap := c.a.gaps(13);
    ReportsAreHonest(gap);
    GapIsRun(v(10), c.o, gap, |gap|, Reported(gap));
    var w := C.Gap(l, gap);
    if |C.Active(w.leases)| < target {
      GrowIsRun(c, v, t, target, pick, held, locked, db, w, left);
    } else if |C.Active(w.leases)| > target {
      ShrinkIsRun(c, v, t, pick.drained, db, w);
    }
  }

  /** A whole rebalance: its turns up to the call that ends it. */
  ghost predicate CycleTurns(c: Cycle, v: nat -> System, t: C.Timing, seeded: bool, full: bool, stop: bool,
                             pick: C.Choice, locked: set<Key>)
  {
    && Turn(c, 0, v(0), v(1), !seeded, [], OutsideSteps(EnsurePartitions, c.a.faults(0)))
    && if !seeded && c.a.faults(0) != Ok then v(14) == v(1)
       else RecoverTurns(c, v) && BalanceTurns(c, v, t, full, stop, pick, locked)
  }

  /** From the heartbeat on. */
  ghost predicate BalanceTurns(c: Cycle, v: nat -> System, t: C.Timing, full: bool, stop: bool, pick: C.Choice,
                               locked: set<Key>)
  {
    var l4, l8 := Viewed(v(4), c.o), Viewed(v(8), c.o);
    && BeatTurns(c, v, t, stop)
    && if C.Beat(v(4).h.db, c.o, l4, t, stop, c.a).err then v(14) == v(8)
       else
         && TidyTurns(c, v, t, full, locked)
         && if C.Tidied(v(8).h.db, c.o, l8, t, C.ResetScope(l8, full, t.now, t.ttl), locked, c.a).err
            then v(14) == v(10)
            else MoveTurns(c, v, t, if stop then 0 else C.Share(|v(7).h.db.members|), pick, locked)
  }

  lemma BalanceIsRun(c: Cycle, v: nat -> System, t: C.Timing, full: bool, stop: bool, pick: C.Choice, held: set<nat>,
                     locked: set<Key>, db: Db, l: Local, left: C.Left)
    requires At(v(4), c.o, Idle, db, l)
    requires BalanceTurns(c, v, t, full, stop, pick, locked)
    requires C.Beaten(db, c.o, l, t, full, stop, pick, held, locked, c.a, left)
    ensures At(v(14), c.o, Idle, left.db, left.view)
  {
    BeatIsWholeRun(c, v, t, stop, db, l);
    var b := C.Beat(db, c.o, l, t, stop, c.a);
    if !b.err {
      CountsMembers(c, v, t, stop, db, l);
      TidyIsRun(c, v, t, full, locked, b.db, b.view);
      var d := C.Upkept(db, c.o, l, t, full, stop, locked, c.a);
      if !d.err {
        var target := if stop then 0 else C.Share(|v(7).h.db.members|);
        MoveIsRun(c, v, t, target, pick, held, locked, d.db, d.view, left);
      }
    }
  }

  lemma RecoverReaches(c: Cycle, v: nat -> System)
    requires RecoverTurns(c, v)
    ensures Reaches(v(1), v(4))
  {
    var a := c.a;
    var looks := Viewed(v(2), c.o).reconcile && a.faults(2) == Ok;
    TurnReaches(c, 1, v(1), v(2), true, a.gaps(1), OrphanSteps(c.o, Viewed(v(1), c.o), a.gaps(1), a.faults(1)));
    TurnReaches(c, 2, v(2), v(3), true, if looks then a.gaps(2) else [],
                if looks then ReadSteps(c.o, a.gaps(2)) else []);
    TurnReaches(c, 3, v(3), v(4), Comparing(v(3), c.o), a.gaps(3),
                WriteSteps(c.o, Compared(v(3), c.o), a.gaps(3), a.faults(3)));
    ReachesJoin(v(1), v(2), v(3));
    ReachesJoin(v(1), v(3), v(4));
  }

  lemma BeatReaches(c: Cycle, v: nat -> System, t: C.Timing, stop: bool)
    requires BeatTurns(c, v, t, stop)
    ensures Reaches(v(4), v(8))
  {
    var a := c.a;
    var gap := if a.faults(7) == Ok then a.gaps(7) else [];
    var ok4 := a.faults(4) == Ok;
    var ok5 := ok4 && a.faults(5) == Ok;
    TurnReaches(c, 4, v(4), v(5), true, [], OutsideSteps(C.Membership(c.o, t, stop), a.faults(4)));
    TurnReaches(c, 5, v(5), v(6), ok4, [], OutsideSteps(ExpireMembers(t.now), a.faults(5)));
    TurnReaches(c, 6, v(6), v(7), ok5, [], []);
    TurnReaches(c, 7, v(7), v(8), ok5 && a.faults(6) == Ok, gap,
                BeatSteps(c.o, t.now, t.expires, gap, a.faults(7)));
    ReachesJoin(v(4), v(5), v(6));
    ReachesJoin(v(4), v(6), v(7));
    ReachesJoin(v(4), v(7), v(8));
  }

  lemma TidyReaches(c: Cycle, v: nat -> System, t: C.Timing, full: bool, locked: set<Key>)
    requires TidyTurns(c, v, t, full, locked)
    ensures Reaches(v(8), v(10))
  {
    var a, l8, l9 := c.a, Viewed(v(8), c.o), Viewed(v(9), c.o);
    var scope := C.ResetScope(l8, full, t.now, t.ttl);
    TurnReaches(c, 8, v(8), v(9), true, [], ResetSteps(c.o, scope, locked, a.faults(8)));
    TurnReaches(c, 9, v(9), v(10), C.Called(a.faults(8), scope != Only({})) == Ok, a.gaps(9),
                GiveSteps(c.o, C.Releasable(l9.leases, t.now, t.drain), a.gaps(9), a.faults(9)));
    ReachesJoin(v(8), v(9), v(10));
  }

  lemma GrowReaches(c: Cycle, v: nat -> System, t: C.Timing, need: nat, pick: C.Choice, locked: set<Key>)
    requires GrowTurns(c, v, t, need, pick, locked)
    ensures Reaches(v(11), v(14))
  {
    var a := c.a;
    var more := C.Called(a.faults(10), pick.undrain != {}) == Ok && |pick.undrain| != need;
    TurnReaches(c, 10, v(11), v(12), true, a.gaps(10),
                FlagSteps(c.o, pick.undrain, false, t.now, a.gaps(10), a.faults(10)));
    TurnReaches(c, 11, v(12), v(13), more, a.gaps(11),
                TakeSteps(c.o, pick.acquired.Keys, t.now, t.expires, a.gaps(11), a.faults(11)));
    TurnReaches(c, 12, v(13), v(14), more && a.faults(11) == Ok, [],
                ResetSteps(c.o, Only(pick.acquired.Keys), locked, a.faults(12)));
    ReachesJoin(v(11), v(12), v(13));
    ReachesJoin(v(11), v(13), v(14));
  }

  lemma ShrinkReaches(c: Cycle, v: nat -> System, t: C.Timing, drained: set<nat>)
    requires ShrinkTurns(c, v, t, drained)
    ensures Reaches(v(11), v(14))
  {
    var a, l := c.a, Viewed(v(12), c.o);
    TurnReaches(c, 10, v(11), v(12), true, a.gaps(10),
                FlagSteps(c.o, drained, true, t.now, a.gaps(10), a.faults(10)));
    TurnReaches(c, 11, v(12), v(13), C.Called(a.faults(10), drained != {}) == Ok, a.gaps(11),
                GiveSteps(c.o, C.Releasable(l.leases, t.now, t.drain), a.gaps(11), a.faults(11)));
    ReachesJoin(v(11), v(12), v(13));
  }

  lemma MoveReaches(c: Cycle, v: nat -> System, t: C.Timing, target: nat, pick: C.Choice, locked: set<Key>)
    requires MoveTurns(c, v, t, target, pick, locked)
    ensures Reaches(v(10), v(14))
  {
    var n := |C.Active(Viewed(v(11), c.o).leases)|;
    assert Reaches(v(10), v(11));
    if n < target {
      GrowReaches(c, v, t, target - n, pick, locked);
    } else if n > target {
      ShrinkReaches(c, v, t, pick.drained);
    } else {
      ReachesItself(v(11));
    }
    ReachesJoin(v(10), v(11), v(14));
  }

  lemma CycleReaches(c: Cycle, v: nat -> System, t: C.Timing, seeded: bool, full: bool, stop: bool, pick: C.Choice,
                     locked: set<Key>)
    requires CycleTurns(c, v, t, seeded, full, stop, pick, locked)
    ensures Reaches(v(0), v(14))
  {
    TurnReaches(c, 0, v(0), v(1), !seeded, [], OutsideSteps(EnsurePartitions, c.a.faults(0)));
    if seeded || c.a.faults(0) == Ok {
      RecoverReaches(c, v);
      ReachesJoin(v(0), v(1), v(4));
      BalanceReaches(c, v, t, full, stop, pick, locked);
      ReachesJoin(v(0), v(4), v(14));
    }
  }

  lemma BalanceReaches(c: Cycle, v: nat -> System, t: C.Timing, full: bool, stop: bool, pick: C.Choice,
                       locked: set<Key>)
    requires BalanceTurns(c, v, t, full, stop, pick, locked)
    ensures Reaches(v(4), v(14))
  {
    var l4, l8 := Viewed(v(4), c.o), Viewed(v(8), c.o);
    BeatReaches(c, v, t, stop);
    if !C.Beat(v(4).h.db, c.o, l4, t, stop, c.a).err {
      TidyReaches(c, v, t, full, locked);
      ReachesJoin(v(4), v(8), v(10));
      if !C.Tidied(v(8).h.db, c.o, l8, t, C.ResetScope(l8, full, t.now, t.ttl), locked, c.a).err {
        MoveReaches(c, v, t, if stop then 0 else C.Share(|v(7).h.db.members|), pick, locked);
        ReachesJoin(v(4), v(10), v(14));
      }
    }
  }

  /**
   A whole rebalance is one run: whatever steps others take before its calls and however these end,
   the tables and the view it leaves are those of a system the protocol reaches.
   */
  lemma RebalanceIsRun(c: Cycle, v: nat -> System, t: C.Timing, seeded: bool, full: bool, stop: bool, pick: C.Choice,
                       held: set<nat>, locked: set<Key>, left: C.Left)
    requires c.o in v(0).nodes && v(0).nodes[c.o].pc.Idle?
    requires CycleTurns(c, v, t, seeded, full, stop, pick, locked)
    requires C.Cycled(v(0).h.db, c.o, v(0).nodes[c.o].local, seeded, t, full, stop, pick, held, locked, c.a, left)
    ensures At(v(14), c.o, Idle, left.db, left.view) && Reaches(v(0), v(14))
  {
    var db, l := v(0).h.db, v(0).nodes[c.o].local;
    CycleReaches(c, v, t, seeded, full, stop, pick, locked);
    SeedIsRun(c, v, seeded, db, l);
    if seeded || c.a.faults(0) == Ok {
      var r := C.BeforeBeat(db, c.o, l, seeded, c.a);
      RecoverIsRun(c, v, C.Seeded(db, seeded, c.a), l);
      var err :| C.Beaten(r.db, c.o, r.view, t, full, stop, pick, held, locked, c.a, left.(err := err))
          && left.err == (err || r.err);
      BalanceIsRun(c, v, t, full, stop, pick, held, locked, r.db, r.view, left.(err := err));
    }
  }

  lemma SeedIsRun(c: Cycle, v: nat -> System, seeded: bool, db: Db, l: Local)
    requires Turn(c, 0, v(0), v(1), !seeded, [], OutsideSteps(EnsurePartitions, c.a.faults(0)))
    requires At(v(0), c.o, Idle, db, l)
    ensures At(v(1), c.o, Idle,
               if seeded then db else C.Ran(c.a.world(0, db), EnsurePartitions, c.a.faults(0)), l)
  {
    if !seeded {
      OutsideTurn(c, 0, v(0), v(1), EnsurePartitions, db, l);
    }
  }

  /** So a rebalance from a system in step leaves its view in step with the tables. */
  lemma RebalanceKeepsStep(c: Cycle, v: nat -> System, t: C.Timing, seeded: bool, full: bool, stop: bool,
                           pick: C.Choice, held: set<nat>, locked: set<Key>, left: C.Left)
    requires SystemInv(v(0)) && c.o in v(0).nodes && v(0).nodes[c.o].pc.Idle?
    requires CycleTurns(c, v, t, seeded, full, stop, pick, locked)
    requires C.Cycled(v(0).h.db, c.o, v(0).nodes[c.o].local, seeded, t, full, stop, pick, held, locked, c.a, left)
    ensures c.o in v(14).nodes && v(14).nodes[c.o].local == left.view
    ensures NodeInv(left.db, c.o, v(14).nodes[c.o]) && SystemInv(v(14))
  {
    RebalanceIsRun(c, v, t, seeded, full, stop, pick, held, locked, left);
    var steps :| Run(v(0), steps) == v(14);
    RunKeepsSystem(v(0), steps);
  }

  /** The system after a close, with the steps others take between its two calls. */
  ghost function CloseRun(s: System, o: string, gap: seq<C.Worked>, orphanFault: Fault, fault: Fault,
                          others: seq<Step>): System
  {
    Run(Run(Run(s, OrphanSteps(o, Viewed(s, o), gap, orphanFault)), others), QuitSteps(o, fault))
  }

  /** A close is one run too: what it leaves is that system's tables and view. */
  lemma CloseIsRun(s: System, o: string, gap: seq<C.Worked>, orphanFault: Fault, fault: Fault, between: Db -> Db,
                   others: seq<Step>)
    requires Ready(s, o, gap, Reported(gap)) && Others(others, o)
    requires var s1 := Run(s, OrphanSteps(o, Viewed(s, o), gap, orphanFault)); between(s1.h.db) == Run(s1, others).h.db
    ensures var left := C.Closed(s.h.db, o, s.nodes[o].local, gap, orphanFault, fault, between);
      At(CloseRun(s, o, gap, orphanFault, fault, others), o, Idle, left.db, left.view)
  {
    OrphansIsRun(s, o, gap, orphanFault, Reported(gap));
    var s1 := Run(s, OrphanSteps(o, Viewed(s, o), gap, orphanFault));
    OthersKeep(s1, others, o);
    QuitIsRun(Run(s1, others), o, fault, {});
  }

  /** So a close from a system in step leaves its view in step with the tables. */
  lemma CloseKeepsStep(s: System, o: string, gap: seq<C.Worked>, orphanFault: Fault, fault: Fault, between: Db -> Db,
                       others: seq<Step>)
    requires SystemInv(s) && Ready(s, o, gap, Reported(gap)) && Others(others, o)
    requires var s1 := Run(s, OrphanSteps(o, Viewed(s, o), gap, orphanFault)); between(s1.h.db) == Run(s1, others).h.db
    ensures var left := C.Closed(s.h.db, o, s.nodes[o].local, gap, orphanFault, fault, between);
      var s' := CloseRun(s, o, gap, orphanFault, fault, others);
      o in s'.nodes && s'.nodes[o].local == left.view && NodeInv(left.db, o, s'.nodes[o])
  {
    CloseIsRun(s, o, gap, orphanFault, fault, between, others);
    CloseKeeps(s, o, gap, orphanFault, fault, others);
  }

  lemma CloseKeeps(s: System, o: string, gap: seq<C.Worked>, orphanFault: Fault, fault: Fault, others: seq<Step>)
    requires SystemInv(s)
    ensures SystemInv(CloseRun(s, o, gap, orphanFault, fault, others))
  {
    var first := OrphanSteps(o, Viewed(s, o), gap, orphanFault);
    RunKeepsSystem(s, first);
    RunKeepsSystem(Run(s, first), others);
    RunKeepsSystem(Run(Run(s, first), others), QuitSteps(o, fault));
  }
}
