/**
 Every section of the consumer's poll, rebalance and close, however its calls end and whatever
 its workers book meanwhile, is a run of the protocol, so what holds of every run holds of it.
 */
module SqlSections {
  import opened Calls
  import opened SqlTables
  import opened SqlLocal
  import opened SqlMirror
  import R = SqlRefinement
  import C = SqlCycle
  import opened Ordering

  /** What was written stays known as written until its bookkeeping ran, and then is tracked no more. */
  ghost predicate Settling(n: Node, written: set<Stamp>) {
    forall st | st in written :: st in n.written || !Tracks(n.local, st)
  }

  /** `s'` differs from `s` in the dispatcher's view, and its stage, only. */
  ghost predicate Moves(s: System, s': System, o: string, l: Local, pc: Pc, written: set<Stamp>) {
    && o in s.nodes && o in s'.nodes && s'.nodes.Keys == s.nodes.Keys
    && (forall p | p in s.nodes && p != o :: s'.nodes[p] == s.nodes[p])
    && s'.nodes[o].local == l && s'.nodes[o].pc == pc && Settling(s'.nodes[o], written)
  }

  /** The bookkeeping of one worker, stamp by stamp. */
  function OpSteps(o: string, op: C.Worked, n: nat): seq<Step>
    requires n <= |op.stamps|
  {
    if n == 0 then []
    else
      var st := op.stamps[n - 1];
      OpSteps(o, op, n - 1) + [Do(o, if op.DoneWith? then DoneRow(st) else AbandonRow(st))]
  }

  function GapSteps(o: string, ops: seq<C.Worked>, n: nat): seq<Step>
    requires n <= |ops|
  {
    if n == 0 then [] else GapSteps(o, ops, n - 1) + OpSteps(o, ops[n - 1], |ops[n - 1].stamps|)
  }

  function Gaps(o: string, ops: seq<C.Worked>): seq<Step> { GapSteps(o, ops, |ops|) }

  lemma DoneOne(s: System, o: string, st: Stamp, written: set<Stamp>)
    requires o in s.nodes && Settling(s.nodes[o], written) && st in written
    ensures var s' := Next(s, Do(o, DoneRow(st)));
      s'.h == s.h && Moves(s, s', o, Settle(s.nodes[o].local, st), s.nodes[o].pc, written)
  {
  }

  lemma AbandonOne(s: System, o: string, st: Stamp, written: set<Stamp>)
    requires o in s.nodes && Settling(s.nodes[o], written)
    ensures var s' := Next(s, Do(o, AbandonRow(st)));
      s'.h == s.h && Moves(s, s', o, SqlLocal.Abandon(s.nodes[o].local, st), s.nodes[o].pc, written)
  {
  }

  /** Workers only report as done what was written. */
  ghost predicate Honest(ops: seq<C.Worked>, written: set<Stamp>) {
    forall op | op in ops && op.DoneWith? :: forall st | st in op.stamps :: st in written
  }

  lemma Then(s: System, steps: seq<Step>, st: Step)
    ensures Run(s, steps + [st]) == Next(Run(s, steps), st)
  {
    R.RunJoins(s, steps, [st]);
    R.RunOne(Run(s, steps), st);
  }

  lemma {:induction false} OpIsRun(s: System, o: string, op: C.Worked, n: nat, written: set<Stamp>)
    requires n <= |op.stamps| && o in s.nodes && Settling(s.nodes[o], written)
    requires op.DoneWith? ==> forall st | st in op.stamps :: st in written
    ensures var s', l := Run(s, OpSteps(o, op, n)), s.nodes[o].local;
      && s'.h == s.h
      && Moves(s, s', o, if op.DoneWith? then C.SettleAll(l, op.stamps, n) else C.AbandonAll(l, op.stamps, n),
               s.nodes[o].pc, written)
  {
    if n > 0 {
      OpIsRun(s, o, op, n - 1, written);
      var s1, st := Run(s, OpSteps(o, op, n - 1)), op.stamps[n - 1];
      Then(s, OpSteps(o, op, n - 1), Do(o, if op.DoneWith? then DoneRow(st) else AbandonRow(st)));
      if op.DoneWith? {
        DoneOne(s1, o, st, written);
      } else {
        AbandonOne(s1, o, st, written);
      }
    }
  }

  /** The workers' bookkeeping during a gap is a run, at any stage of the cycle. */
  lemma {:induction false} GapIsRun(s: System, o: string, ops: seq<C.Worked>, n: nat, written: set<Stamp>)
    requires n <= |ops| && o in s.nodes && Settling(s.nodes[o], written) && Honest(ops, written)
    ensures var s' := Run(s, GapSteps(o, ops, n));
      s'.h == s.h && Moves(s, s', o, C.Work(s.nodes[o].local, ops, n), s.nodes[o].pc, written)
  {
    if n > 0 {
      GapIsRun(s, o, ops, n - 1, written);
      var s1, op := Run(s, GapSteps(o, ops, n - 1)), ops[n - 1];
      OpIsRun(s1, o, op, |op.stamps|, written);
      R.RunJoins(s, GapSteps(o, ops, n - 1), OpSteps(o, op, |op.stamps|));
    }
  }

  // One step of the cycle each, with the tables and the stage it leads to.

  lemma TakeOrphansStep(s: System, o: string, written: set<Stamp>)
    requires o in s.nodes && s.nodes[o].pc.Idle? && Settling(s.nodes[o], written)
    ensures var s' := Next(s, Do(o, TakeOrphans));
      s'.h == s.h && Moves(s, s', o, s.nodes[o].local, Orphans(OrphanStamps(s.nodes[o].local)), written)
  {
  }

  lemma SendOrphansStep(s: System, o: string, f: Fault, written: set<Stamp>)
    requires o in s.nodes && s.nodes[o].pc.Orphans? && Settling(s.nodes[o], written)
    ensures var s', stamps := Next(s, Do(o, SendOrphans(f))), s.nodes[o].pc.stamps;
      && s'.h.db == C.Ran(s.h.db, Undispatch(o, stamps, 0), f)
      && Moves(s, s', o, s.nodes[o].local, if f == Ok then OrphansSent(stamps) else Idle, written)
  {
  }

  lemma ForgetOrphansStep(s: System, o: string, written: set<Stamp>)
    requires o in s.nodes && s.nodes[o].pc.OrphansSent? && Settling(s.nodes[o], written)
    ensures var s' := Next(s, Do(o, ForgetOrphans));
      s'.h == s.h && Moves(s, s', o, DropOrphans(s.nodes[o].local, s.nodes[o].pc.stamps), Idle, written)
  {
  }

  lemma QueryMoves(s: System, o: string, written: set<Stamp>)
    requires o in s.nodes && s.nodes[o].pc.Idle? && s.nodes[o].local.reconcile && Settling(s.nodes[o], written)
    ensures var s' := Next(s, Do(o, Query));
      s'.h == s.h && Moves(s, s', o, s.nodes[o].local, Queried(InFlight(s.h.db, o)), written)
  {
    QueryStep(s, o);
  }

  lemma DiffMoves(s: System, o: string, written: set<Stamp>)
    requires o in s.nodes && s.nodes[o].pc.Queried? && Settling(s.nodes[o], written)
    ensures var s' := Next(s, Do(o, Diff));
      && s'.h == s.h
      && Moves(s, s', o, s.nodes[o].local, Leftover(Untracked(s.nodes[o].local, s.nodes[o].pc.stamps)), written)
  {
    DiffStep(s, o);
  }

  lemma SendLeftoverMoves(s: System, o: string, f: Fault, written: set<Stamp>)
    requires o in s.nodes && s.nodes[o].pc.Leftover? && Settling(s.nodes[o], written)
    ensures var s' := Next(s, Do(o, SendLeftover(f)));
      && s'.h.db == C.Ran(s.h.db, Undispatch(o, s.nodes[o].pc.stamps, 0), f)
      && Moves(s, s', o, s.nodes[o].local, if f == Ok then LeftoverSent else Idle, written)
  {
  }

  lemma ClearMoves(s: System, o: string, written: set<Stamp>)
    requires o in s.nodes && s.nodes[o].pc.LeftoverSent? && Settling(s.nodes[o], written)
    ensures var s' := Next(s, Do(o, Clear));
      s'.h == s.h && Moves(s, s', o, s.nodes[o].local.(reconcile := false), Idle, written)
  {
    ClearStep(s, o);
  }

  lemma BeatMoves(s: System, o: string, expires: int, f: Fault, written: set<Stamp>)
    requires o in s.nodes && s.nodes[o].pc.Idle? && Settling(s.nodes[o], written)
    ensures var s' := Next(s, Do(o, Beat(expires, f)));
      && s'.h.db == C.Ran(s.h.db, RenewLeases(o, expires), f)
      && Moves(s, s', o, s.nodes[o].local,
               if f == Ok then Beaten(Holds(Exec(s.h.db, RenewLeases(o, expires)), o)) else Idle, written)
  {
  }

  lemma SyncMoves(s: System, o: string, now: int, written: set<Stamp>)
    requires o in s.nodes && s.nodes[o].pc.Beaten? && Settling(s.nodes[o], written)
    ensures var s' := Next(s, Do(o, SyncLeases(now)));
      s'.h == s.h && Moves(s, s', o, Sync(s.nodes[o].local, s.nodes[o].pc.held, now), Idle, written)
  {
  }

  lemma ResetMoves(s: System, o: string, scope: Scope, locked: set<Key>, written: set<Stamp>)
    requires o in s.nodes && s.nodes[o].pc.Idle? && Settling(s.nodes[o], written)
    ensures var s' := Next(s, Do(o, Reset(scope, locked)));
      s'.h.db == Exec(s.h.db, ResetStale(o, scope, locked)) && Moves(s, s', o, s.nodes[o].local, Idle, written)
  {
  }

  lemma FlagMoves(s: System, o: string, parts: set<nat>, draining: bool, f: Fault, written: set<Stamp>)
    requires o in s.nodes && s.nodes[o].pc.Idle? && Settling(s.nodes[o], written)
    ensures var s' := Next(s, Do(o, Flag(parts, draining, f)));
      && s'.h.db == C.Ran(s.h.db, SetDraining(o, parts, draining), f)
      && Moves(s, s', o, s.nodes[o].local, if f == Ok then Flagged(parts, draining) else Idle, written)
  {
  }

  lemma MarkMoves(s: System, o: string, now: int, written: set<Stamp>)
    requires o in s.nodes && s.nodes[o].pc.Flagged? && Settling(s.nodes[o], written)
    ensures var s', pc := Next(s, Do(o, MarkLeases(now))), s.nodes[o].pc;
      s'.h == s.h && Moves(s, s', o, Mark(s.nodes[o].local, pc.parts, pc.draining, now), Idle, written)
  {
  }

  lemma GiveMoves(s: System, o: string, parts: set<nat>, f: Fault, written: set<Stamp>)
    requires o in s.nodes && s.nodes[o].pc.Idle? && Settling(s.nodes[o], written)
    ensures var s' := Next(s, Do(o, Give(parts, f)));
      && s'.h.db == C.Ran(s.h.db, Release(o, parts), f)
      && Moves(s, s', o, s.nodes[o].local, if f == Ok then Given(parts) else Idle, written)
  {
  }

  lemma ForgetLeasesMoves(s: System, o: string, written: set<Stamp>)
    requires o in s.nodes && s.nodes[o].pc.Given? && Settling(s.nodes[o], written)
    ensures var s' := Next(s, Do(o, ForgetLeases));
      s'.h == s.h && Moves(s, s', o, Forget(s.nodes[o].local, s.nodes[o].pc.parts), Idle, written)
  {
  }

  lemma TakeMoves(s: System, o: string, now: int, expires: int, picked: set<nat>, f: Fault, written: set<Stamp>)
    requires o in s.nodes && s.nodes[o].pc.Idle? && Settling(s.nodes[o], written)
    requires Legal(s.h.db, Acquire(o, now, expires, picked))
    ensures var s' := Next(s, Do(o, Take(now, expires, picked, f)));
      && s'.h.db == C.Ran(s.h.db, Acquire(o, now, expires, picked), f)
      && Moves(s, s', o, s.nodes[o].local,
               if f == Ok then Taken(EpochsOf(Exec(s.h.db, Acquire(o, now, expires, picked)), picked)) else Idle,
               written)
  {
  }

  lemma AdoptMoves(s: System, o: string, now: int, written: set<Stamp>)
    requires o in s.nodes && s.nodes[o].pc.Taken? && Settling(s.nodes[o], written)
    ensures var s' := Next(s, Do(o, AdoptLeases(now)));
      s'.h == s.h && Moves(s, s', o, Adopt(s.nodes[o].local, s.nodes[o].pc.acquired, now), Idle, written)
  {
  }

  lemma QuitMoves(s: System, o: string, f: Fault, written: set<Stamp>)
    requires o in s.nodes && s.nodes[o].pc.Idle? && Settling(s.nodes[o], written)
    ensures var s' := Next(s, Do(o, Quit(f)));
      && s'.h.db == C.Ran(s.h.db, Leave(o), f)
      && Moves(s, s', o, s.nodes[o].local, if f == Ok then Gone else Idle, written)
  {
  }

  lemma ForgetAllMoves(s: System, o: string, written: set<Stamp>)
    requires o in s.nodes && s.nodes[o].pc.Gone? && Settling(s.nodes[o], written)
    ensures var s' := Next(s, Do(o, ForgetAll));
      s'.h == s.h && Moves(s, s', o, s.nodes[o].local.(leases := map[]), Idle, written)
  {
  }

  // The sections.

  lemma MovesJoin(s: System, s1: System, s2: System, o: string, l1: Local, pc1: Pc, l2: Local, pc2: Pc,
                  written: set<Stamp>)
    requires Moves(s, s1, o, l1, pc1, written) && Moves(s1, s2, o, l2, pc2, written)
    ensures Moves(s, s2, o, l2, pc2, written)
  {
  }

  /** A step that leaves the view alone, and the workers' bookkeeping after it. */
  lemma StepThenGap(s: System, o: string, act: Act, pc: Pc, ops: seq<C.Worked>, written: set<Stamp>)
    requires o in s.nodes && Moves(s, Next(s, Do(o, act)), o, s.nodes[o].local, pc, written) && Honest(ops, written)
    ensures var s' := Run(s, [Do(o, act)] + Gaps(o, ops));
      s'.h == Next(s, Do(o, act)).h && Moves(s, s', o, C.Gap(s.nodes[o].local, ops), pc, written)
  {
    var s1 := Next(s, Do(o, act));
    GapIsRun(s1, o, ops, |ops|, written);
    R.RunJoins(s, [Do(o, act)], Gaps(o, ops));
    R.RunOne(s, Do(o, act));
    MovesJoin(s, s1, Run(s1, Gaps(o, ops)), o, s.nodes[o].local, pc, C.Gap(s.nodes[o].local, ops), pc, written);
  }

  /** One more step of the dispatcher. */
  lemma OneMore(s: System, before: seq<Step>, o: string, act: Act, w: Local, pc: Pc, l: Local, pc': Pc,
                written: set<Stamp>)
    requires Moves(s, Run(s, before), o, w, pc, written)
    requires Moves(Run(s, before), Next(Run(s, before), Do(o, act)), o, l, pc', written)
    ensures Run(s, before + [Do(o, act)]) == Next(Run(s, before), Do(o, act))
    ensures Moves(s, Run(s, before + [Do(o, act)]), o, l, pc', written)
  {
    Then(s, before, Do(o, act));
    MovesJoin(s, Run(s, before), Run(s, before + [Do(o, act)]), o, w, pc, l, pc', written);
  }

  /** The section is over: its tables, its view, and the cycle lock free. */
  ghost predicate Rests(s: System, s': System, o: string, left: C.Left, written: set<Stamp>) {
    s'.h.db == left.db && Moves(s, s', o, left.view, Idle, written)
  }

  ghost predicate Ready(s: System, o: string, ops: seq<C.Worked>, written: set<Stamp>) {
    o in s.nodes && s.nodes[o].pc.Idle? && Settling(s.nodes[o], written) && Honest(ops, written)
  }

  /** A call, the workers meanwhile, and the section that ends it when its reply arrived. */
  function CallSteps(o: string, call: Act, gap: seq<C.Worked>, f: Fault, end: Act): seq<Step> {
    var sent := [Do(o, call)] + Gaps(o, gap);
    if f == Ok then sent + [Do(o, end)] else sent
  }

  function PollSteps(o: string, now: int, draws: map<Key, nat>, last: nat, out: seq<Key>, gap: seq<C.Worked>,
                     f: Fault): seq<Step>
  {
    var call := [Do(o, Poll(now, draws, last, f))];
    if f == Ok then call + Gaps(o, gap) + (R.BookSteps(o, out, |out|) + [Do(o, BookDone)]) else Gaps(o, gap) + call
  }

  /**
   Polling leaves the tables and the bookkeeping exactly as the protocol's dispatch, the workers
   meanwhile and its row by row bookings do.
   */
  lemma PollIsRun(s: System, o: string, now: int, draws: map<Key, nat>, last: nat, out: seq<Key>, gap: seq<C.Worked>,
                  written: set<Stamp>)
    requires Ready(s, o, gap, written) && Legal(s.h.db, Dispatch(o, now, draws, last))
    requires Distinct(out) && draws.Keys == Elements(out)
    requires forall k | k in out :: k in Exec(s.h.db, Dispatch(o, now, draws, last)).rows
    ensures var s' := Run(s, PollSteps(o, now, draws, last, out, gap, Ok));
      && s'.h.db == Exec(s.h.db, Dispatch(o, now, draws, last)) && o in s'.nodes && s'.nodes[o].pc.Idle?
      && s'.nodes[o].local == C.BookAll(C.Gap(s.nodes[o].local, gap), C.RowsFor(s'.h.db, out), |out|)
  {
    var poll := Poll(now, draws, last, Ok);
    var before, s1 := [Do(o, poll)] + Gaps(o, gap), Next(s, Do(o, poll));
    R.PollToBook(s, o, now, draws, last, out);
    PollMoves(s, o, now, draws, last, written);
    StepThenGap(s, o, poll, s1.nodes[o].pc, gap, written);
    R.RunJoins(s, before, R.BookSteps(o, out, |out|) + [Do(o, BookDone)]);
    R.BooksAndDone(Run(s, before), o, out);
  }

  lemma PollMoves(s: System, o: string, now: int, draws: map<Key, nat>, last: nat, written: set<Stamp>)
    requires o in s.nodes && s.nodes[o].pc.Idle? && Settling(s.nodes[o], written)
    requires Legal(s.h.db, Dispatch(o, now, draws, last))
    ensures var s' := Next(s, Do(o, Poll(now, draws, last, Ok)));
      o in s'.nodes && Moves(s, s', o, s.nodes[o].local, s'.nodes[o].pc, written)
  {
  }

  /** A poll whose call failed or lost its reply asks for reconciliation. */
  lemma FailedPollIsRun(s: System, o: string, now: int, draws: map<Key, nat>, last: nat, out: seq<Key>,
                        gap: seq<C.Worked>, f: Fault, written: set<Stamp>)
    requires Ready(s, o, gap, written) && Legal(s.h.db, Dispatch(o, now, draws, last)) && f != Ok
    ensures var s' := Run(s, PollSteps(o, now, draws, last, out, gap, f));
      && s'.h.db == C.Ran(s.h.db, Dispatch(o, now, draws, last), f) && o in s'.nodes && s'.nodes[o].pc.Idle?
      && s'.nodes[o].local == C.Gap(s.nodes[o].local, gap).(reconcile := true)
  {
    GapIsRun(s, o, gap, |gap|, written);
    Then(s, Gaps(o, gap), Do(o, Poll(now, draws, last, f)));
  }

  function OrphanSteps(o: string, l: Local, gap: seq<C.Worked>, f: Fault): seq<Step> {
    if l.orphans == map[] then Gaps(o, gap)
    else
      var sent := [Do(o, TakeOrphans)] + Gaps(o, gap) + [Do(o, SendOrphans(f))];
      if f == Ok then sent + [Do(o, ForgetOrphans)] else sent
  }

  lemma OrphansIsRun(s: System, o: string, gap: seq<C.Worked>, f: Fault, written: set<Stamp>)
    requires Ready(s, o, gap, written)
    ensures var l := s.nodes[o].local;
      Rests(s, Run(s, OrphanSteps(o, l, gap, f)), o, C.ReturnOrphans(s.h.db, o, l, gap, f), written)
  {
    var l := s.nodes[o].local;
    C.NoOrphans(l);
    if l.orphans == map[] {
      GapIsRun(s, o, gap, |gap|, written);
      C.NothingToDo(s.h.db, o);
      assert DropOrphans(C.Gap(l, gap), {}).orphans == C.Gap(l, gap).orphans;
    } else {
      TakeOrphansStep(s, o, written);
      StepThenGap(s, o, TakeOrphans, Orphans(OrphanStamps(l)), gap, written);
      OrphansSend(s, o, [Do(o, TakeOrphans)] + Gaps(o, gap), f, OrphanStamps(l), C.Gap(l, gap), written);
    }
  }

  lemma OrphansSend(s: System, o: string, before: seq<Step>, f: Fault, stamps: set<Stamp>, w: Local,
                    written: set<Stamp>)
    requires Moves(s, Run(s, before), o, w, Orphans(stamps), written)
    ensures var sent := before + [Do(o, SendOrphans(f))];
      Rests(s, Run(s, if f == Ok then sent + [Do(o, ForgetOrphans)] else sent), o,
            C.Left(C.Ran(Run(s, before).h.db, Undispatch(o, stamps, 0), f),
                   if f == Ok then DropOrphans(w, stamps) else w, f != Ok),
            written)
  {
    SendOrphansStep(Run(s, before), o, f, written);
    var sent := before + [Do(o, SendOrphans(f))];
    var pc := if f == Ok then OrphansSent(stamps) else Idle;
    OneMore(s, before, o, SendOrphans(f), w, Orphans(stamps), w, pc, written);
    if f == Ok {
      ForgetOrphansStep(Run(s, sent), o, written);
      OneMore(s, sent, o, ForgetOrphans, w, OrphansSent(stamps), DropOrphans(w, stamps), Idle, written);
    }
  }

  function ReadSteps(o: string, gap: seq<C.Worked>): seq<Step> { [Do(o, Query)] + Gaps(o, gap) + [Do(o, Diff)] }

  /** Up to the write: the read, the workers meanwhile, and the comparison. */
  lemma ReconcileReadIsRun(s: System, o: string, gap: seq<C.Worked>, written: set<Stamp>)
    requires Ready(s, o, gap, written) && s.nodes[o].local.reconcile
    ensures var s', l := Run(s, ReadSteps(o, gap)), s.nodes[o].local;
      s'.h == s.h && Moves(s, s', o, C.Gap(l, gap), Leftover(C.Leftover(s.h.db, o, l, gap)), written)
  {
    var l, read := s.nodes[o].local, [Do(o, Query)] + Gaps(o, gap);
    var queried := Queried(InFlight(s.h.db, o));
    QueryMoves(s, o, written);
    StepThenGap(s, o, Query, queried, gap, written);
    DiffMoves(Run(s, read), o, written);
    OneMore(s, read, o, Diff, C.Gap(l, gap), queried, C.Gap(l, gap), Leftover(C.Leftover(s.h.db, o, l, gap)), written);
  }

  function WriteSteps(o: string, stamps: set<Stamp>, gap: seq<C.Worked>, f: Fault): seq<Step> {
    var c := C.Called(f, stamps != {});
    var sent := Gaps(o, gap) + [Do(o, SendLeftover(c))];
    if c == Ok then sent + [Do(o, Clear)] else sent
  }

  /** From the write on, after the workers before it, in whatever tables others have left. */
  lemma ReconcileWriteIsRun(s: System, o: string, gap: seq<C.Worked>, f: Fault, written: set<Stamp>)
    requires o in s.nodes && s.nodes[o].pc.Leftover? && Settling(s.nodes[o], written) && Honest(gap, written)
    ensures var w, stamps := C.Gap(s.nodes[o].local, gap), s.nodes[o].pc.stamps;
      var c := C.Called(f, stamps != {});
      Rests(s, Run(s, WriteSteps(o, stamps, gap, f)), o,
            C.Left(C.Ran(s.h.db, Undispatch(o, stamps, 0), c), if c == Ok then w.(reconcile := false) else w, c != Ok),
            written)
  {
    var w, pc := C.Gap(s.nodes[o].local, gap), s.nodes[o].pc;
    var c := C.Called(f, pc.stamps != {});
    GapIsRun(s, o, gap, |gap|, written);
    SendLeftoverMoves(Run(s, Gaps(o, gap)), o, c, written);
    var sent := Gaps(o, gap) + [Do(o, SendLeftover(c))];
    OneMore(s, Gaps(o, gap), o, SendLeftover(c), w, pc, w, if c == Ok then LeftoverSent else Idle, written);
    if c == Ok {
      ClearMoves(Run(s, sent), o, written);
      OneMore(s, sent, o, Clear, w, LeftoverSent, w.(reconcile := false), Idle, written);
    }
  }

  function BeatSteps(o: string, now: int, expires: int, gap: seq<C.Worked>, f: Fault): seq<Step> {
    if f == Ok then [Do(o, Beat(expires, Ok))] + Gaps(o, gap) + [Do(o, SyncLeases(now))] else [Do(o, Beat(expires, f))]
  }

  /** The heartbeat's last statement and the sync with its reply; the membership statements are anybody's. */
  lemma BeatIsRun(s: System, o: string, now: int, expires: int, gap: seq<C.Worked>, written: set<Stamp>)
    requires Ready(s, o, gap, written)
    ensures var db, l := Exec(s.h.db, RenewLeases(o, expires)), s.nodes[o].local;
      Rests(s, Run(s, BeatSteps(o, now, expires, gap, Ok)), o,
            C.Left(db, Sync(C.Gap(l, gap), Holds(db, o), now), false), written)
  {
    var db := Exec(s.h.db, RenewLeases(o, expires));
    BeatMoves(s, o, expires, Ok, written);
    StepThenGap(s, o, Beat(expires, Ok), Beaten(Holds(db, o)), gap, written);
    var sent, w := [Do(o, Beat(expires, Ok))] + Gaps(o, gap), C.Gap(s.nodes[o].local, gap);
    SyncAfter(s, sent, o, w, Holds(db, o), now, written);
  }

  lemma SyncAfter(s: System, before: seq<Step>, o: string, w: Local, held: map<nat, Held>, now: int,
                  written: set<Stamp>)
    requires Moves(s, Run(s, before), o, w, Beaten(held), written)
    ensures var steps := before + [Do(o, SyncLeases(now))];
      Run(s, steps).h == Run(s, before).h && Moves(s, Run(s, steps), o, Sync(w, held, now), Idle, written)
  {
    SyncMoves(Run(s, before), o, now, written);
    OneMore(s, before, o, SyncLeases(now), w, Beaten(held), Sync(w, held, now), Idle, written);
  }

  /** A heartbeat whose last statement failed, or lost its reply, leaves the view alone. */
  lemma FailedBeatIsRun(s: System, o: string, now: int, expires: int, gap: seq<C.Worked>, f: Fault, written: set<Stamp>)
    requires Ready(s, o, [], written) && f != Ok
    ensures Rests(s, Run(s, BeatSteps(o, now, expires, gap, f)), o,
                  C.Left(C.Ran(s.h.db, RenewLeases(o, expires), f), s.nodes[o].local, true), written)
  {
    BeatMoves(s, o, expires, f, written);
    R.RunOne(s, Do(o, Beat(expires, f)));
  }

  function ResetSteps(o: string, scope: Scope, locked: set<Key>, f: Fault): seq<Step> {
    if C.Called(f, scope != Only({})) == Failed then [] else [Do(o, Reset(scope, locked))]
  }

  lemma ResetIsRun(s: System, o: string, scope: Scope, locked: set<Key>, f: Fault, written: set<Stamp>)
    requires Ready(s, o, [], written)
    ensures Rests(s, Run(s, ResetSteps(o, scope, locked, f)), o,
                  C.Reset(s.h.db, o, s.nodes[o].local, scope, locked, f), written)
  {
    if C.Called(f, scope != Only({})) != Failed {
      ResetMoves(s, o, scope, locked, written);
      R.RunOne(s, Do(o, Reset(scope, locked)));
    }
  }

  function GiveSteps(o: string, parts: set<nat>, gap: seq<C.Worked>, f: Fault): seq<Step> {
    var c := C.Called(f, parts != {});
    CallSteps(o, Give(parts, c), gap, c, ForgetLeases)
  }

  lemma ReleaseIsRun(s: System, o: string, now: int, timeout: int, gap: seq<C.Worked>, f: Fault, written: set<Stamp>)
    requires Ready(s, o, gap, written)
    ensures var l := s.nodes[o].local;
      Rests(s, Run(s, GiveSteps(o, C.Releasable(l.leases, now, timeout), gap, f)), o,
            C.GiveUp(s.h.db, o, l, now, timeout, gap, f), written)
  {
    var l := s.nodes[o].local;
    var release := C.Releasable(l.leases, now, timeout);
    var c := C.Called(f, release != {});
    var sent := [Do(o, Give(release, c))] + Gaps(o, gap);
    GiveMoves(s, o, release, c, written);
    StepThenGap(s, o, Give(release, c), if c == Ok then Given(release) else Idle, gap, written);
    if c == Ok {
      ForgetLeasesMoves(Run(s, sent), o, written);
      OneMore(s, sent, o, ForgetLeases, C.Gap(l, gap), Given(release), Forget(C.Gap(l, gap), release), Idle, written);
    }
  }

  function FlagSteps(o: string, parts: set<nat>, draining: bool, now: int, gap: seq<C.Worked>, f: Fault): seq<Step> {
    var c := C.Called(f, parts != {});
    CallSteps(o, Flag(parts, draining, c), gap, c, MarkLeases(now))
  }

  lemma FlagIsRun(s: System, o: string, parts: set<nat>, draining: bool, now: int, gap: seq<C.Worked>, f: Fault,
                  written: set<Stamp>)
    requires Ready(s, o, gap, written)
    ensures Rests(s, Run(s, FlagSteps(o, parts, draining, now, gap, f)), o,
                  C.SetFlag(s.h.db, o, s.nodes[o].local, parts, draining, now, gap, f), written)
  {
    var l, c := s.nodes[o].local, C.Called(f, parts != {});
    var sent := [Do(o, Flag(parts, draining, c))] + Gaps(o, gap);
    FlagMoves(s, o, parts, draining, c, written);
    StepThenGap(s, o, Flag(parts, draining, c), if c == Ok then Flagged(parts, draining) else Idle, gap, written);
    if c == Ok {
      MarkMoves(Run(s, sent), o, now, written);
      OneMore(s, sent, o, MarkLeases(now), C.Gap(l, gap), Flagged(parts, draining),
              Mark(C.Gap(l, gap), parts, draining, now), Idle, written);
    }
  }

  lemma AcquiredEpochs(db: Db, o: string, now: int, expires: int, acquired: map<nat, nat>)
    requires Legal(db, Acquire(o, now, expires, acquired.Keys))
    requires forall p | p in acquired :: acquired[p] == db.parts[p].epoch + 1
    ensures EpochsOf(Exec(db, Acquire(o, now, expires, acquired.Keys)), acquired.Keys) == acquired
  {
  }

  function TakeSteps(o: string, parts: set<nat>, now: int, expires: int, gap: seq<C.Worked>, f: Fault): seq<Step> {
    CallSteps(o, Take(now, expires, parts, f), gap, f, AdoptLeases(now))
  }

  lemma TakeOverIsRun(s: System, o: string, acquired: map<nat, nat>, now: int, expires: int, gap: seq<C.Worked>,
                      f: Fault, written: set<Stamp>)
    requires Ready(s, o, gap, written) && Legal(s.h.db, Acquire(o, now, expires, acquired.Keys))
    requires f == Ok ==> forall p | p in acquired :: acquired[p] == s.h.db.parts[p].epoch + 1
    ensures Rests(s, Run(s, TakeSteps(o, acquired.Keys, now, expires, gap, f)), o,
                  C.TakeOver(s.h.db, o, s.nodes[o].local, acquired, now, expires, gap, f), written)
  {
    TakeThenGap(s, o, acquired, now, expires, gap, f, written);
    if f == Ok {
      AdoptAfter(s, [Do(o, Take(now, expires, acquired.Keys, f))] + Gaps(o, gap), o, C.Gap(s.nodes[o].local, gap),
                 acquired, now, written);
    }
  }

  lemma AdoptAfter(s: System, before: seq<Step>, o: string, w: Local, acquired: map<nat, nat>, now: int,
                   written: set<Stamp>)
    requires Moves(s, Run(s, before), o, w, Taken(acquired), written)
    ensures var steps := before + [Do(o, AdoptLeases(now))];
      Run(s, steps).h == Run(s, before).h && Moves(s, Run(s, steps), o, Adopt(w, acquired, now), Idle, written)
  {
    AdoptMoves(Run(s, before), o, now, written);
    OneMore(s, before, o, AdoptLeases(now), w, Taken(acquired), Adopt(w, acquired, now), Idle, written);
  }

  lemma TakeThenGap(s: System, o: string, acquired: map<nat, nat>, now: int, expires: int, gap: seq<C.Worked>, f: Fault,
                    written: set<Stamp>)
    requires Ready(s, o, gap, written) && Legal(s.h.db, Acquire(o, now, expires, acquired.Keys))
    requires f == Ok ==> forall p | p in acquired :: acquired[p] == s.h.db.parts[p].epoch + 1
    ensures var s' := Run(s, [Do(o, Take(now, expires, acquired.Keys, f))] + Gaps(o, gap));
      && s'.h.db == C.Ran(s.h.db, Acquire(o, now, expires, acquired.Keys), f)
      && Moves(s, s', o, C.Gap(s.nodes[o].local, gap), if f == Ok then Taken(acquired) else Idle, written)
  {
    if f == Ok {
      AcquiredEpochs(s.h.db, o, now, expires, acquired);
    }
    TakeMoves(s, o, now, expires, acquired.Keys, f, written);
    StepThenGap(s, o, Take(now, expires, acquired.Keys, f), if f == Ok then Taken(acquired) else Idle, gap, written);
  }

  function QuitSteps(o: string, f: Fault): seq<Step> { CallSteps(o, Quit(f), [], f, ForgetAll) }

  lemma QuitIsRun(s: System, o: string, f: Fault, written: set<Stamp>)
    requires Ready(s, o, [], written)
    ensures Rests(s, Run(s, QuitSteps(o, f)), o, C.Quit(s.h.db, o, s.nodes[o].local, f), written)
  {
    var l, sent := s.nodes[o].local, [Do(o, Quit(f))] + Gaps(o, []);
    QuitMoves(s, o, f, written);
    StepThenGap(s, o, Quit(f), if f == Ok then Gone else Idle, [], written);
    if f == Ok {
      ForgetAllMoves(Run(s, sent), o, written);
      OneMore(s, sent, o, ForgetAll, l, Gone, l.(leases := map[]), Idle, written);
    }
  }
}
