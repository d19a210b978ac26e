/**
 The admission batcher: callers queue per key, one flush per key sends a statement for all that
 wait and answers them, and a caller that gave up hands what it was granted to its callback.
 */
module Admission {
  /** What a statement decided for the caller at one of its places. */
  datatype Reply = Reply(stmt: nat, place: nat, ok: bool)

  datatype State = Pending | Answered | Abandoned

  /** A caller: its answers through the channel and through its callback, and how often its slot was given back. */
  datatype Waiter = Waiter(key: string, state: State, replies: seq<Reply>, callbacks: seq<Reply>, released: nat)

  /** A statement that came back, and how many of its callers were answered so far. */
  datatype Statement = Statement(key: string, batch: seq<nat>, granted: int, failed: bool, served: nat)

  datatype Phase = Looking | Running(batch: seq<nat>) | Serving(stmt: nat)

  /** A flush and the queue it was started with. */
  datatype Flush = Flush(key: string, waiting: seq<nat>, phase: Phase)

  /** Flushes and callers are numbered as they come. */
  datatype World = World(queues: map<string, nat>, flushes: map<nat, Flush>, spawned: nat,
                         waiters: seq<Waiter>, log: seq<Statement>, closed: bool)

  const Start := World(map[], map[], 0, [], [], false)

  datatype Step =
    | Admit(key: string)
    | Take(f: nat)
    | Finish(f: nat, granted: int, failed: bool)
    | Serve(f: nat)
    | Rest(f: nat)
    | GiveUp(x: nat)
    | UseAndRelease(x: nat)
    | Close

  predicate Served(c: Waiter) { |c.replies| + |c.callbacks| > 0 }

  predicate Enabled(w: World, st: Step) {
    match st
    case Admit(key) => if key in w.queues then w.queues[key] in w.flushes else !w.closed
    case Take(f) => f in w.flushes && w.flushes[f].phase == Looking
    case Finish(f, _, _) => f in w.flushes && w.flushes[f].phase.Running?
    case Serve(f) =>
      f in w.flushes && w.flushes[f].phase.Serving? && w.flushes[f].phase.stmt < |w.log| &&
      var s := w.log[w.flushes[f].phase.stmt]; s.served < |s.batch| && s.batch[s.served] < |w.waiters|
    case Rest(f) =>
      f in w.flushes && w.flushes[f].phase.Serving? && w.flushes[f].phase.stmt < |w.log| &&
      var s := w.log[w.flushes[f].phase.stmt]; s.served >= |s.batch|
    case GiveUp(x) => x < |w.waiters| && w.waiters[x].state == Pending
    case UseAndRelease(x) => x < |w.waiters| && w.waiters[x].state == Answered && w.waiters[x].replies != []
        && w.waiters[x].replies[0].ok
    case Close => true
  }

  predicate Granted(s: Statement, p: nat) { !s.failed && p < s.granted }

  /**
   A caller that still waits gets the reply; one that gave up has it handed to its callback, which
   gives a granted slot back.
   */
  function Answer(c: Waiter, r: Reply): Waiter {
    if c.state == Pending then c.(state := Answered, replies := c.replies + [r])
    else c.(callbacks := c.callbacks + [r], released := c.released + if r.ok then 1 else 0)
  }

  function Next(w: World, st: Step): World {
    if !Enabled(w, st) then w
    else match st
      case Admit(key) =>
        var f := if key in w.queues then w.queues[key] else w.spawned;
        var q := if key in w.queues then w.flushes[f] else Flush(key, [], Looking);
        w.(queues := w.queues[key := f], flushes := w.flushes[f := q.(waiting := q.waiting + [|w.waiters|])],
           spawned := if key in w.queues then w.spawned else w.spawned + 1,
           waiters := w.waiters + [Waiter(key, Pending, [], [], 0)])
      case Take(f) =>
        var q := w.flushes[f];
        if q.waiting == [] then w.(queues := w.queues - {q.key}, flushes := w.flushes - {f})
        else w.(flushes := w.flushes[f := q.(waiting := [], phase := Running(q.waiting))])
      case Finish(f, granted, failed) =>
        var q := w.flushes[f];
        w.(flushes := w.flushes[f := q.(phase := Serving(|w.log|))],
           log := w.log + [Statement(q.key, q.phase.batch, granted, failed, 0)])
      case Serve(f) =>
        var n := w.flushes[f].phase.stmt;
        var s := w.log[n];
        var x := s.batch[s.served];
        w.(waiters := w.waiters[x := Answer(w.waiters[x], Reply(n, s.served, Granted(s, s.served)))],
           log := w.log[n := s.(served := s.served + 1)])
      case Rest(f) => w.(flushes := w.flushes[f := w.flushes[f].(phase := Looking)])
      case GiveUp(x) => w.(waiters := w.waiters[x := w.waiters[x].(state := Abandoned)])
      case UseAndRelease(x) =>
        var c := w.waiters[x];
        w.(waiters := w.waiters[x := c.(released := if c.released == 0 then 1 else c.released)])
      case Close => w.(closed := true)
  }

  function Run(w: World, steps: seq<Step>): World
    decreases |steps|
  {
    if steps == [] then w else Run(Next(w, steps[0]), steps[1..])
  }

  /** Each key that is queued has exactly its own flush, and each flush its own key. */
  ghost predicate Paired(w: World) {
    && (forall key | key in w.queues :: w.queues[key] in w.flushes && w.flushes[w.queues[key]].key == key)
    && (forall f | f in w.flushes :: w.flushes[f].key in w.queues && w.queues[w.flushes[f].key] == f)
    && (forall f | f in w.flushes :: f < w.spawned)
  }

  lemma NextPairs(w: World, st: Step)
    requires Paired(w)
    ensures Paired(Next(w, st))
  {
  }

  ghost predicate Ascending(s: seq<nat>) { forall i, j | 0 <= i < j < |s| :: s[i] < s[j] }

  /** A flush in the serving phase serves a statement of its own key. */
  ghost predicate Phased(w: World, f: nat)
    requires f in w.flushes
  {
    w.flushes[f].phase.Serving? ==>
      var n := w.flushes[f].phase.stmt;
      n < |w.log| && w.log[n].key == w.flushes[f].key && w.log[n].served <= |w.log[n].batch|
  }

  /** The callers a flush has still to answer, in the order it will. */
  function Line(w: World, f: nat): seq<nat>
    requires f in w.flushes
  {
    var q := w.flushes[f];
    match q.phase
    case Looking => q.waiting
    case Running(batch) => batch + q.waiting
    case Serving(n) =>
      (if n < |w.log| && w.log[n].served <= |w.log[n].batch| then w.log[n].batch[w.log[n].served..] else []) + q.waiting
  }

  /** A line is in order of arrival and holds exactly the unanswered callers of its key. */
  ghost predicate Lined(w: World, f: nat)
    requires f in w.flushes
  {
    && Ascending(Line(w, f))
    && (forall x | x in Line(w, f) :: x < |w.waiters| && w.waiters[x].key == w.flushes[f].key && !Served(w.waiters[x]))
  }

  /** An unanswered caller is in the line of a running flush. */
  ghost predicate Placed(w: World, x: nat)
    requires x < |w.waiters|
  {
    var c := w.waiters[x];
    !Served(c) ==> c.key in w.queues && w.queues[c.key] in w.flushes && x in Line(w, w.queues[c.key])
  }

  ghost predicate Lines(w: World) { forall f | f in w.flushes :: Phased(w, f) && Lined(w, f) }

  lemma ServeLine(w: World, f: nat, g: nat)
    requires Paired(w) && Enabled(w, Serve(f)) && g in w.flushes && Phased(w, g) && Phased(w, f)
    ensures Phased(Next(w, Serve(f)), g)
    ensures Line(Next(w, Serve(f)), g) == if f == g then Line(w, g)[1..] else Line(w, g)
  {
    if f == g {
      var s := w.log[w.flushes[f].phase.stmt];
      assert s.batch[s.served..][1..] == s.batch[s.served + 1..];
    }
  }

  lemma AdmitLine(w: World, key: string, g: nat)
    requires Paired(w) && Enabled(w, Admit(key)) && g in w.flushes && Phased(w, g)
    ensures g in Next(w, Admit(key)).flushes && Phased(Next(w, Admit(key)), g)
        && Next(w, Admit(key)).flushes[g].key == w.flushes[g].key
    ensures Line(Next(w, Admit(key)), g) == if w.flushes[g].key == key then Line(w, g) + [|w.waiters|] else Line(w, g)
  {
  }

  lemma OtherLine(w: World, st: Step, g: nat)
    requires Paired(w) && Enabled(w, st) && !st.Admit? && !st.Serve? && g in w.flushes && g in Next(w, st).flushes
        && Phased(w, g)
    ensures Phased(Next(w, st), g) && Next(w, st).flushes[g].key == w.flushes[g].key
        && Line(Next(w, st), g) == Line(w, g)
  {
  }

  /** What a step does to the line of a flush: an arrival goes last, an answer takes the first. */
  lemma LineAfter(w: World, st: Step, g: nat)
    requires Paired(w) && Enabled(w, st) && g in w.flushes && g in Next(w, st).flushes && Phased(w, g)
    requires st.Serve? ==> Phased(w, st.f)
    ensures Phased(Next(w, st), g) && Next(w, st).flushes[g].key == w.flushes[g].key
    ensures Line(Next(w, st), g) ==
            if st.Admit? && w.flushes[g].key == st.key then Line(w, g) + [|w.waiters|]
            else if st.Serve? && st.f == g then Line(w, g)[1..]
            else Line(w, g)
  {
    match st
    case Admit(key) => AdmitLine(w, key, g);
    case Serve(f) => ServeLine(w, f, g);
    case _ => OtherLine(w, st, g);
  }

  /** The caller a flush answers next is the first of its line. */
  lemma HeadOfLine(w: World, f: nat)
    requires Enabled(w, Serve(f)) && Phased(w, f)
    ensures var s := w.log[w.flushes[f].phase.stmt]; Line(w, f) != [] && Line(w, f)[0] == s.batch[s.served]
  {
  }

  /** A caller keeps its key, and is answered only as the first of a line. */
  lemma WaiterAfter(w: World, st: Step, x: nat)
    requires x < |w.waiters| && Enabled(w, st) && (st.Serve? ==> Phased(w, st.f))
    ensures x < |Next(w, st).waiters| && Next(w, st).waiters[x].key == w.waiters[x].key
    ensures Served(Next(w, st).waiters[x]) <==> Served(w.waiters[x]) || (st.Serve? && x == Line(w, st.f)[0])
  {
    if st.Serve? { HeadOfLine(w, st.f); }
  }

  /** Who is in a line after a step was in it before, or just arrived. */
  lemma LineMember(w: World, st: Step, g: nat, x: nat)
    requires Paired(w) && Lines(w) && Enabled(w, st) && g in w.flushes && g in Next(w, st).flushes
        && x in Line(Next(w, st), g)
    ensures if st.Admit? && w.flushes[g].key == st.key && x == |w.waiters| then true
            else x in Line(w, g) && (st.Serve? && st.f == g ==> x != Line(w, g)[0])
  {
    LineAfter(w, st, g);
    if st.Serve? { HeadOfLine(w, st.f); }
  }

  lemma Ascends(line: seq<nat>, next: nat)
    requires Ascending(line)
    ensures line != [] ==> Ascending(line[1..])
    ensures (forall x | x in line :: x < next) ==> Ascending(line + [next])
  {
    if forall x | x in line :: x < next {
      assert forall i | 0 <= i < |line| :: line[i] in line;
    }
  }

  lemma LineAscends(w: World, st: Step, g: nat)
    requires Paired(w) && Lines(w) && Enabled(w, st) && g in w.flushes && g in Next(w, st).flushes
    ensures Ascending(Line(Next(w, st), g))
  {
    LineAfter(w, st, g);
    if st.Serve? { HeadOfLine(w, st.f); }
    Ascends(Line(w, g), |w.waiters|);
  }

  lemma LineUnserved(w: World, st: Step, g: nat, x: nat)
    requires Paired(w) && Lines(w) && Enabled(w, st) && g in w.flushes && g in Next(w, st).flushes
        && x in Line(Next(w, st), g)
    ensures x < |Next(w, st).waiters| && Next(w, st).waiters[x].key == Next(w, st).flushes[g].key
        && !Served(Next(w, st).waiters[x])
  {
    LineAfter(w, st, g);
    LineMember(w, st, g, x);
    if x < |w.waiters| {
      WaiterAfter(w, st, x);
      if st.Serve? { HeadOfLine(w, st.f); }
    }
  }

  lemma NextLine(w: World, st: Step, g: nat)
    requires Paired(w) && Lines(w) && Enabled(w, st) && g in Next(w, st).flushes
    ensures Phased(Next(w, st), g) && Lined(Next(w, st), g)
  {
    if g in w.flushes {
      LineAfter(w, st, g);
      LineAscends(w, st, g);
      forall x | x in Line(Next(w, st), g)
        ensures x < |Next(w, st).waiters| && Next(w, st).waiters[x].key == Next(w, st).flushes[g].key
            && !Served(Next(w, st).waiters[x])
      {
        LineUnserved(w, st, g, x);
      }
    } else {
      assert Line(Next(w, st), g) == [|w.waiters|];
    }
  }

  lemma NewPlaces(w: World, key: string)
    requires Paired(w) && Lines(w) && Enabled(w, Admit(key))
    ensures |Next(w, Admit(key)).waiters| == |w.waiters| + 1 && Placed(Next(w, Admit(key)), |w.waiters|)
  {
    var g := Next(w, Admit(key)).queues[key];
    if g in w.flushes { AdmitLine(w, key, g); }
  }

  /** A flush that ends leaves nobody behind. */
  lemma FlushStays(w: World, st: Step, g: nat)
    requires Paired(w) && Enabled(w, st) && g in w.flushes && Line(w, g) != []
    ensures g in Next(w, st).flushes && w.flushes[g].key in Next(w, st).queues
        && Next(w, st).queues[w.flushes[g].key] == g
  {
  }

  lemma OldPlaces(w: World, st: Step, x: nat)
    requires Paired(w) && Lines(w) && Enabled(w, st) && x < |w.waiters| && Placed(w, x)
    ensures x < |Next(w, st).waiters| && Placed(Next(w, st), x)
  {
    WaiterAfter(w, st, x);
    if !Served(Next(w, st).waiters[x]) {
      var g := w.queues[w.waiters[x].key];
      FlushStays(w, st, g);
      LineAfter(w, st, g);
    }
  }

  lemma NextPlaces(w: World, st: Step, x: nat)
    requires Paired(w) && Lines(w) && Enabled(w, st) && x < |Next(w, st).waiters|
    requires x < |w.waiters| ==> Placed(w, x)
    ensures Placed(Next(w, st), x)
  {
    if x < |w.waiters| { OldPlaces(w, st, x); } else { NewPlaces(w, st.key); }
  }

  /** Callers of one key are answered in order of arrival. */
  ghost predicate Fair(w: World, x: nat, y: nat)
    requires x < |w.waiters| && y < |w.waiters|
  {
    w.waiters[x].key == w.waiters[y].key && Served(w.waiters[x]) && !Served(w.waiters[y]) ==> x < y
  }

  lemma NextFair(w: World, st: Step, x: nat, y: nat)
    requires Paired(w) && Lines(w) && Enabled(w, st) && x < |Next(w, st).waiters| && y < |Next(w, st).waiters|
    requires x < |w.waiters| && y < |w.waiters| ==> Fair(w, x, y)
    requires y < |w.waiters| ==> Placed(w, y)
    ensures Fair(Next(w, st), x, y)
  {
    if x < |w.waiters| && y < |w.waiters| {
      WaiterAfter(w, st, x);
      WaiterAfter(w, st, y);
      if st.Serve? && x == Line(w, st.f)[0] && !Served(w.waiters[y]) && w.waiters[x].key == w.waiters[y].key {
        HeadOfLine(w, st.f);
        assert w.queues[w.waiters[y].key] == st.f;
      }
    }
  }

  function Result(c: Waiter): Reply
    requires Served(c)
  {
    (c.replies + c.callbacks)[0]
  }

  /**
   One answer at most, through the channel or the callback; a slot given back at most once, and
   always by the callback.
   */
  predicate Told(c: Waiter) {
    && (c.state == Pending ==> c.replies == [] && c.callbacks == [] && c.released == 0)
    && (c.state == Answered ==>
          && |c.replies| == 1 && c.callbacks == [] && c.released <= 1
          && (c.released == 1 ==> c.replies[0].ok))
    && (c.state == Abandoned ==>
          && c.replies == [] && |c.callbacks| <= 1
          && c.released == if c.callbacks != [] && c.callbacks[0].ok then 1 else 0)
  }

  /** A caller of a statement that came back: what it was told is what the statement decided for its place. */
  ghost predicate Decided(w: World, n: nat, p: nat)
    requires n < |w.log| && p < |w.log[n].batch|
  {
    var s := w.log[n];
    && s.batch[p] < |w.waiters| && w.waiters[s.batch[p]].key == s.key && s.served <= |s.batch| && Ascending(s.batch)
    && (p < s.served ==> Served(w.waiters[s.batch[p]]) && Result(w.waiters[s.batch[p]]) == Reply(n, p, Granted(s, p)))
  }

  lemma NextTells(w: World, st: Step, x: nat)
    requires Paired(w) && Lines(w) && Enabled(w, st) && x < |Next(w, st).waiters|
    requires x < |w.waiters| ==> Told(w.waiters[x])
    ensures Told(Next(w, st).waiters[x])
  {
    if st.Serve? { HeadOfLine(w, st.f); }
  }

  /** An answer once given stays. */
  lemma ResultStays(w: World, st: Step, x: nat)
    requires x < |w.waiters| && Enabled(w, st) && Lines(w) && Served(w.waiters[x]) && Told(w.waiters[x])
    ensures x < |Next(w, st).waiters| && Served(Next(w, st).waiters[x])
        && Result(Next(w, st).waiters[x]) == Result(w.waiters[x])
  {
    if st.Serve? { HeadOfLine(w, st.f); }
  }

  /** A statement in the log only moves on, by answering the next place. */
  lemma LogAfter(w: World, st: Step, n: nat)
    requires Enabled(w, st) && n < |w.log|
    ensures var s, s' := w.log[n], Next(w, st).log[n];
      && s' == s.(served := s'.served)
      && (s'.served == s.served || (st.Serve? && w.flushes[st.f].phase.stmt == n && s.served < |s.batch|
          && s'.served == s.served + 1))
    ensures |Next(w, st).log| == |w.log| + if st.Finish? then 1 else 0
  {
  }

  lemma ServeDecides(w: World, f: nat)
    requires Lines(w) && Enabled(w, Serve(f))
    ensures var n := w.flushes[f].phase.stmt; var x := w.log[n].batch[w.log[n].served];
      var c := Next(w, Serve(f)).waiters[x];
      Served(c) && Result(c) == Reply(n, w.log[n].served, Granted(w.log[n], w.log[n].served))
  {
    HeadOfLine(w, f);
    assert Lined(w, f);
  }

  lemma NextDecides(w: World, st: Step, n: nat, p: nat)
    requires Paired(w) && Lines(w) && Enabled(w, st) && n < |w.log| && p < |w.log[n].batch|
    requires Decided(w, n, p) && Told(w.waiters[w.log[n].batch[p]])
    ensures n < |Next(w, st).log| && Next(w, st).log[n].batch == w.log[n].batch && Decided(Next(w, st), n, p)
  {
    LogAfter(w, st, n);
    WaiterAfter(w, st, w.log[n].batch[p]);
    if p < w.log[n].served { ResultStays(w, st, w.log[n].batch[p]); }
    if st.Serve? { ServeDecides(w, st.f); }
  }

  lemma NewDecides(w: World, st: Step, p: nat)
    requires Lines(w) && Enabled(w, st) && st.Finish? && p < |w.flushes[st.f].phase.batch|
    ensures |Next(w, st).log| == |w.log| + 1 && Next(w, st).log[|w.log|].batch == w.flushes[st.f].phase.batch
    ensures Decided(Next(w, st), |w.log|, p)
  {
    var q := w.flushes[st.f];
    var line := q.phase.batch + q.waiting;
    assert line == Line(w, st.f) && Phased(w, st.f) && Lined(w, st.f);
    assert forall i | 0 <= i < |q.phase.batch| :: q.phase.batch[i] == line[i];
    assert line[p] in line;
  }

  ghost predicate Inv(w: World) {
    && Paired(w) && Lines(w)
    && (forall x | 0 <= x < |w.waiters| :: Placed(w, x) && Told(w.waiters[x]))
    && (forall x, y | 0 <= x < |w.waiters| && 0 <= y < |w.waiters| :: Fair(w, x, y))
    && (forall n, p | 0 <= n < |w.log| && 0 <= p < |w.log[n].batch| :: Decided(w, n, p))
  }

  lemma NextLog(w: World, st: Step, n: nat, p: nat)
    requires Inv(w) && Enabled(w, st) && n < |Next(w, st).log| && p < |Next(w, st).log[n].batch|
    ensures Decided(Next(w, st), n, p)
  {
    if n < |w.log| {
      LogAfter(w, st, n);
      assert Decided(w, n, p);
      NextDecides(w, st, n, p);
    } else {
      NewDecides(w, st, p);
    }
  }

  lemma NextWaiter(w: World, st: Step, x: nat)
    requires Inv(w) && Enabled(w, st) && x < |Next(w, st).waiters|
    ensures Placed(Next(w, st), x) && Told(Next(w, st).waiters[x])
  {
    NextPlaces(w, st, x);
    NextTells(w, st, x);
  }

  lemma NextKeeps(w: World, st: Step)
    requires Inv(w)
    ensures Inv(Next(w, st))
  {
    if Enabled(w, st) {
      var w' := Next(w, st);
      NextPairs(w, st);
      forall g | g in w'.flushes ensures Phased(w', g) && Lined(w', g) { NextLine(w, st, g); }
      forall x | 0 <= x < |w'.waiters| ensures Placed(w', x) && Told(w'.waiters[x]) { NextWaiter(w, st, x); }
      forall x, y | 0 <= x < |w'.waiters| && 0 <= y < |w'.waiters| ensures Fair(w', x, y) { NextFair(w, st, x, y); }
      forall n, p | 0 <= n < |w'.log| && 0 <= p < |w'.log[n].batch| ensures Decided(w', n, p) { NextLog(w, st, n, p); }
    }
  }

  lemma {:induction false} RunKeeps(w: World, steps: seq<Step>)
    requires Inv(w)
    ensures Inv(Run(w, steps))
    decreases |steps|
  {
    if steps != [] {
      NextKeeps(w, steps[0]);
      RunKeeps(Next(w, steps[0]), steps[1..]);
    }
  }

  /** In every run a caller without an answer is in the line of a running flush for its key. */
  lemma WaiterHasFlush(steps: seq<Step>, x: nat)
    requires x < |Run(Start, steps).waiters| && !Served(Run(Start, steps).waiters[x])
    ensures var w := Run(Start, steps);
      w.waiters[x].key in w.queues && w.queues[w.waiters[x].key] in w.flushes
          && x in Line(w, w.queues[w.waiters[x].key])
  {
    RunKeeps(Start, steps);
    assert Placed(Run(Start, steps), x);
  }

  /** At most one flush, so one statement, per key at a time. */
  lemma OneStatementPerKey(steps: seq<Step>, f: nat, g: nat)
    requires var w := Run(Start, steps); f in w.flushes && g in w.flushes && w.flushes[f].key == w.flushes[g].key
    ensures f == g
  {
    RunKeeps(Start, steps);
  }

  /**
   Every caller gets one reply or one callback, never both or two; a slot granted to one that gave up
   is released exactly once, and no slot twice.
   */
  lemma OneAnswerOneRelease(steps: seq<Step>, x: nat)
    requires x < |Run(Start, steps).waiters|
    ensures var c := Run(Start, steps).waiters[x];
      && |c.replies| + |c.callbacks| <= 1 && c.released <= 1
      && (c.replies != [] ==> c.state == Answered) && (c.callbacks != [] ==> c.state == Abandoned)
      && (c.callbacks != [] ==> (c.released == 1 <==> c.callbacks[0].ok))
      && (c.released == 1 ==> Served(c) && Result(c).ok)
  {
    RunKeeps(Start, steps);
    assert Told(Run(Start, steps).waiters[x]);
  }

  /**
   The callers a statement grants are the first that arrived for it: of those answered, place p is
   granted exactly when p is below the grant.
   */
  lemma FirstArrivalsAreGranted(steps: seq<Step>, n: nat, p: nat)
    requires n < |Run(Start, steps).log| && p < Run(Start, steps).log[n].served && p < |Run(Start, steps).log[n].batch|
    ensures var w := Run(Start, steps); var s := w.log[n];
      && s.served <= |s.batch| && Ascending(s.batch) && s.batch[p] < |w.waiters| && Served(w.waiters[s.batch[p]])
      && (Result(w.waiters[s.batch[p]]).ok <==> !s.failed && p < s.granted)
  {
    var w := Run(Start, steps);
    RunKeeps(Start, steps);
    assert Decided(w, n, p);
  }

  /** Callers of one key are answered in order of arrival. */
  lemma AnsweredInOrder(steps: seq<Step>, x: nat, y: nat)
    requires y < x < |Run(Start, steps).waiters|
    requires var w := Run(Start, steps); w.waiters[x].key == w.waiters[y].key && Served(w.waiters[x])
    ensures Served(Run(Start, steps).waiters[y])
  {
    RunKeeps(Start, steps);
    assert Fair(Run(Start, steps), x, y);
  }
}
