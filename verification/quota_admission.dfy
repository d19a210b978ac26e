/**
 One dispatcher's batcher and the quota holders of all dispatchers together: a flush asks for its
 batch in a statement under a holder of its own, hands out what that granted, and a caller gives its
 slot back through the holder it was granted under.
 */
module QuotaAdmission {
  import A = Admission
  import Q = Quotas

  /** The statement a flush waits for. */
  datatype Ask = Ask(h: nat, id: nat)

  /**
   The batcher, the holders, which of them are the dispatcher's own, the statements its flushes wait
   for, the holder each statement that came back ran under, and the quota key an admission key names.
   */
  datatype Joint = Joint(adm: A.World, quo: Q.World, mine: set<nat>, asks: map<nat, Ask>, under: seq<nat>,
                         name: string -> string)

  function Start(name: string -> string): Joint { Joint(A.Start, Q.Start, {}, map[], [], name) }

  datatype Step =
    | Caller(call: A.Step)
    | Holder(act: Q.Step)
    | AskNew(f: nat, ttl: nat, limit: int)
    | AskOld(f: nat, h: nat, limit: int)
    | Answer(f: nat)
    | Break(f: nat, retry: bool)
    | Serve(f: nat)
    | UseAndRelease(x: nat)

  /** Callers come and give up, flushes take batches, the store closes. */
  predicate Calls(st: A.Step) { st.Admit? || st.Take? || st.Rest? || st.GiveUp? || st.Close? }

  /** Other dispatchers do anything; the own holders' statements and releases belong to the steps below. */
  predicate Plain(j: Joint, st: Q.Step) {
    st.Register? || st.BeginNew? || st.Tick? || st.h !in j.mine
        || !(st.Begin? || st.Return? || st.SettleFailed? || st.Release?)
  }

  predicate Asking(j: Joint, f: nat) {
    f in j.asks && f in j.adm.flushes && j.adm.flushes[f].phase.Running?
  }

  predicate CanAsk(j: Joint, f: nat) {
    f !in j.asks && f in j.adm.flushes && j.adm.flushes[f].phase.Running?
  }

  function Begins(j: Joint, f: nat, h: nat, limit: int): Q.Step
    requires CanAsk(j, f)
  {
    Q.Begin(h, j.name(j.adm.flushes[f].key), |j.adm.flushes[f].phase.batch|, limit)
  }

  /** A caller at the head of a line that gave up and was granted: its callback gives the slot back. */
  predicate HandsBack(w: A.World, f: nat)
    requires A.Enabled(w, A.Serve(f))
  {
    var s := w.log[w.flushes[f].phase.stmt];
    w.waiters[s.batch[s.served]].state != A.Pending && A.Granted(s, s.served)
  }

  /** The steps of the two machines a joint step takes; a step that is not possible takes none. */
  function Taken(j: Joint, st: Step): (seq<A.Step>, seq<Q.Step>) {
    match st
    case Caller(st) => (if Calls(st) then [st] else [], [])
    case Holder(st) => ([], if Plain(j, st) then [st] else [])
    case AskNew(f, ttl, limit) =>
      if !CanAsk(j, f) then ([], [])
      else
        var q := Begins(j, f, 0, limit);
        ([], [Q.BeginNew(ttl, q.key, q.n, limit)])
    case AskOld(f, h, limit) =>
      if !CanAsk(j, f) || h !in j.mine || !Q.Enabled(j.quo, Begins(j, f, h, limit)) then ([], [])
      else ([], [Begins(j, f, h, limit)])
    case Answer(f) =>
      if !Asking(j, f) || !Q.Enabled(j.quo, Q.Return(j.asks[f].h, j.asks[f].id)) then ([], [])
      else
        var k := j.asks[f];
        ([A.Finish(f, j.quo.holders[k.h].running[k.id].outcome.slots, false)], [Q.Return(k.h, k.id)])
    case Break(f, retry) =>
      if !Asking(j, f) || !Q.Enabled(j.quo, Q.SettleFailed(j.asks[f].h, j.asks[f].id)) then ([], [])
      else (if retry then [] else [A.Finish(f, 0, true)], [Q.SettleFailed(j.asks[f].h, j.asks[f].id)])
    case Serve(f) =>
      if !A.Enabled(j.adm, A.Serve(f)) then ([], [])
      else ([A.Serve(f)], if HandsBack(j.adm, f) then Releases(j, j.adm.flushes[f].phase.stmt) else [])
    case UseAndRelease(x) =>
      if !A.Enabled(j.adm, A.UseAndRelease(x)) then ([], [])
      else
        var c := j.adm.waiters[x];
        ([A.UseAndRelease(x)],
         if c.released == 0 && c.replies[0].stmt < |j.adm.log| then Releases(j, c.replies[0].stmt) else [])
  }

  function Releases(j: Joint, n: nat): seq<Q.Step>
    requires n < |j.adm.log|
  {
    if n < |j.under| then [Q.Release(j.under[n], j.name(j.adm.log[n].key))] else []
  }

  function OneA(w: A.World, sts: seq<A.Step>): A.World { if sts == [] then w else A.Next(w, sts[0]) }

  function OneQ(w: Q.World, sts: seq<Q.Step>): Q.World { if sts == [] then w else Q.Next(w, sts[0]) }

  /** A joint step is at most one step of each machine, with what the dispatcher notes about it. */
  function Next(j: Joint, st: Step): Joint {
    var (calls, acts) := Taken(j, st);
    Joint(OneA(j.adm, calls), OneQ(j.quo, acts),
          if st.AskNew? && acts != [] then j.mine + {|j.quo.holders|} else j.mine,
          if acts == [] then j.asks
          else
            match st
            case AskNew(f, _, _) => j.asks[f := Ask(|j.quo.holders|, 0)]
            case AskOld(f, h, _) => j.asks[f := Ask(h, j.quo.holders[h].drawn)]
            case Answer(f) => j.asks - {f}
            case Break(f, _) => j.asks - {f}
            case _ => j.asks,
          if calls != [] && calls[0].Finish? then j.under + [j.asks[calls[0].f].h] else j.under,
          j.name)
  }

  function Run(j: Joint, steps: seq<Step>): Joint
    decreases |steps|
  {
    if steps == [] then j else Run(Next(j, steps[0]), steps[1..])
  }

  ghost predicate Sound(j: Joint) { A.Inv(j.adm) && Q.Inv(j.quo) }

  lemma NextSound(j: Joint, st: Step)
    requires Sound(j)
    ensures Sound(Next(j, st))
  {
    var (calls, acts) := Taken(j, st);
    if calls != [] { A.NextKeeps(j.adm, calls[0]); }
    if acts != [] { Q.NextKeeps(j.quo, acts[0]); }
  }

  // Every answer can be traced to its place.

  ghost predicate Traced(w: A.World, x: nat)
    requires x < |w.waiters|
  {
    A.Served(w.waiters[x]) ==>
      var r := A.Result(w.waiters[x]);
      && r.stmt < |w.log| && r.place < w.log[r.stmt].served && r.place < |w.log[r.stmt].batch|
      && w.log[r.stmt].batch[r.place] == x && r.ok == A.Granted(w.log[r.stmt], r.place)
  }

  lemma TraceStays(w: A.World, st: A.Step, x: nat)
    requires A.Lines(w) && A.Enabled(w, st) && x < |w.waiters| && A.Served(w.waiters[x]) && A.Told(w.waiters[x])
    requires Traced(w, x)
    ensures x < |A.Next(w, st).waiters| && Traced(A.Next(w, st), x)
  {
    A.ResultStays(w, st, x);
    A.LogAfter(w, st, A.Result(w.waiters[x]).stmt);
  }

  lemma TraceServed(w: A.World, f: nat)
    requires A.Lines(w) && A.Enabled(w, A.Serve(f))
    ensures var s := w.log[w.flushes[f].phase.stmt];
      s.batch[s.served] < |A.Next(w, A.Serve(f)).waiters| && Traced(A.Next(w, A.Serve(f)), s.batch[s.served])
  {
    A.ServeDecides(w, f);
    A.LogAfter(w, A.Serve(f), w.flushes[f].phase.stmt);
  }

  lemma NextTraces(w: A.World, st: A.Step, x: nat)
    requires A.Lines(w) && A.Enabled(w, st) && x < |A.Next(w, st).waiters|
    requires x < |w.waiters| ==> A.Told(w.waiters[x]) && Traced(w, x)
    ensures Traced(A.Next(w, st), x)
  {
    if x < |w.waiters| {
      A.WaiterAfter(w, st, x);
      if A.Served(w.waiters[x]) {
        TraceStays(w, st, x);
      } else if st.Serve? {
        A.HeadOfLine(w, st.f);
        TraceServed(w, st.f);
      }
    }
  }

  // Slots in callers' hands.

  function Released(w: A.World, x: nat): nat { if x < |w.waiters| then w.waiters[x].released else 0 }

  /** A place granted under the holder for the key whose slot was not given back: unanswered, or in use. */
  predicate Out(j: Joint, n: nat, p: nat, h: nat, key: string) {
    && n < |j.adm.log| && n < |j.under| && j.under[n] == h && j.name(j.adm.log[n].key) == key
    && p < |j.adm.log[n].batch| && A.Granted(j.adm.log[n], p)
    && !(p < j.adm.log[n].served && Released(j.adm, j.adm.log[n].batch[p]) > 0)
  }

  function Outstanding(j: Joint, h: nat, key: string): set<(nat, nat)> {
    set n: nat, p: nat | n < |j.adm.log| && p < |j.adm.log[n].batch| && Out(j, n, p, h, key) :: (n, p)
  }

  /** The database's grants of a holder are exactly the slots in its callers' hands. */
  ghost predicate Matched(j: Joint, h: nat, key: string) {
    h < |j.quo.holders| && j.quo.holders[h].grants[key] == |Outstanding(j, h, key)|
  }

  lemma SameOutstanding(j: Joint, j': Joint, h: nat, key: string)
    requires j'.adm.log == j.adm.log && j'.under == j.under && j'.name == j.name
    requires forall x: nat :: Released(j'.adm, x) == Released(j.adm, x)
    ensures Outstanding(j', h, key) == Outstanding(j, h, key)
  {
    assert forall n: nat, p: nat :: Out(j', n, p, h, key) <==> Out(j, n, p, h, key);
  }

  lemma CallsRelease(w: A.World, st: A.Step, x: nat)
    requires Calls(st)
    ensures A.Next(w, st).log == w.log && Released(A.Next(w, st), x) == Released(w, x)
  {
  }

  /** Only returned statements and releases change what a holder has granted. */
  lemma GrantsStay(w: Q.World, st: Q.Step, h: nat)
    requires |w.holders| == |w.rows| && h < |w.holders|
    requires Q.Enabled(w, st) && (st.Return? || st.Release?) ==> st.h != h
    ensures h < |Q.Next(w, st).holders| && Q.Next(w, st).holders[h].grants == w.holders[h].grants
  {
    if Q.Enabled(w, st) { Q.NextShape(w, st, h); }
  }

  /** The first `m` places of a statement. */
  function Places(n: nat, m: nat): set<(nat, nat)> { set p: nat | p < m :: (n, p) }

  lemma {:induction false} CountPlaces(n: nat, m: nat)
    ensures |Places(n, m)| == m
  {
    if m > 0 {
      CountPlaces(n, m - 1);
      assert Places(n, m) == Places(n, m - 1) + {(n, m - 1)};
    }
  }

  /** The system after a statement came back. */
  ghost predicate Finished(j: Joint, j': Joint, s: A.Statement, owner: nat) {
    && |j.under| == |j.adm.log| && j'.adm.log == j.adm.log + [s] && j'.under == j.under + [owner]
    && j'.name == j.name && j'.adm.waiters == j.adm.waiters && s.served == 0
    && (!s.failed ==> 0 <= s.granted <= |s.batch|)
  }

  predicate Grants(j: Joint, s: A.Statement, owner: nat, h: nat, key: string) {
    h == owner && key == j.name(s.key) && !s.failed
  }

  lemma FinishedOut(j: Joint, j': Joint, s: A.Statement, owner: nat, h: nat, key: string, m: nat, p: nat)
    requires Finished(j, j', s, owner)
    ensures Out(j', m, p, h, key) <==>
            Out(j, m, p, h, key) || (m == |j.adm.log| && Grants(j, s, owner, h, key) && p < s.granted)
  {
    if m < |j.adm.log| { assert j'.adm.log[m] == j.adm.log[m] && j'.under[m] == j.under[m]; }
  }

  /** A statement that comes back adds the places it grants to its holder. */
  lemma FinishedOutstanding(j: Joint, j': Joint, s: A.Statement, owner: nat, h: nat, key: string)
    requires Finished(j, j', s, owner)
    ensures |Outstanding(j', h, key)| ==
            |Outstanding(j, h, key)| + if Grants(j, s, owner, h, key) then s.granted else 0
  {
    var n, was := |j.adm.log|, Outstanding(j, h, key);
    var more := if Grants(j, s, owner, h, key) then Places(n, s.granted) else {};
    FinishedSet(j, j', s, owner, h, key, more);
    assert was !! more;
    if Grants(j, s, owner, h, key) { CountPlaces(n, s.granted); }
  }

  lemma FinishedSet(j: Joint, j': Joint, s: A.Statement, owner: nat, h: nat, key: string, more: set<(nat, nat)>)
    requires Finished(j, j', s, owner)
    requires more == if Grants(j, s, owner, h, key) then Places(|j.adm.log|, s.granted) else {}
    ensures Outstanding(j', h, key) == Outstanding(j, h, key) + more
  {
    forall m: nat, p: nat ensures (m, p) in Outstanding(j', h, key) <==> (m, p) in Outstanding(j, h, key) + more {
      FinishedOut(j, j', s, owner, h, key, m, p);
      assert m < |j.adm.log| ==> j'.adm.log[m] == j.adm.log[m];
    }
  }

  /** Giving back the slot of one caller takes exactly its place off. */
  lemma GivenBackOutstanding(j: Joint, j': Joint, n: nat, p: nat, x: nat, h: nat, key: string)
    requires j'.under == j.under && j'.name == j.name && |j'.adm.log| == |j.adm.log|
    requires n < |j.adm.log| && p < |j.adm.log[n].batch| && j.adm.log[n].batch[p] == x && Released(j.adm, x) == 0
    requires forall m: nat | m < |j.adm.log| ::
        && j'.adm.log[m] == j.adm.log[m].(served := j'.adm.log[m].served)
        && (m != n ==> j'.adm.log[m].served == j.adm.log[m].served)
    requires j'.adm.log[n].served > p && p <= j.adm.log[n].served
    requires j'.adm.log[n].served == j.adm.log[n].served || j'.adm.log[n].served == j.adm.log[n].served + 1 == p + 1
    requires forall y: nat | y != x :: Released(j'.adm, y) == Released(j.adm, y)
    requires forall m: nat, q: nat | m < |j.adm.log| && q < |j.adm.log[m].batch| && q < j'.adm.log[m].served
                 && (m, q) != (n, p) :: j.adm.log[m].batch[q] != x
    ensures Outstanding(j', h, key) == Outstanding(j, h, key) - if Released(j'.adm, x) > 0 then {(n, p)} else {}
  {
    forall m: nat, q: nat ensures Out(j', m, q, h, key) <==>
        Out(j, m, q, h, key) && !(Released(j'.adm, x) > 0 && (m, q) == (n, p))
    {
    }
  }

  // The statements flushes wait for.

  /** A flush that waits is running, and its statement asks for its whole batch under a holder of its own. */
  ghost predicate Asked(j: Joint, f: nat)
    requires f in j.asks
  {
    var k := j.asks[f];
    && Asking(j, f) && k.h in j.mine && k.h < |j.quo.holders| && k.id in j.quo.holders[k.h].running
    && Fits(j.quo.holders[k.h].running[k.id], j.name(j.adm.flushes[f].key), |j.adm.flushes[f].phase.batch|)
  }

  predicate Fits(q: Q.Stmt, key: string, n: nat) {
    q.key == key && q.n == n && (q.outcome.Granted? ==> q.outcome.slots <= n)
  }

  /** A running statement goes on asking for the same until it returns or fails. */
  lemma StatementStays(w: Q.World, st: Q.Step, h: nat, id: nat, key: string, n: nat)
    requires |w.holders| == |w.rows| && h < |w.holders| && Q.Tallied(w.holders[h])
    requires id in w.holders[h].running && Fits(w.holders[h].running[id], key, n)
    requires (st.Return? || st.SettleFailed?) && st.h == h ==> st.id != id
    ensures h < |Q.Next(w, st).holders| && id in Q.Next(w, st).holders[h].running
    ensures Fits(Q.Next(w, st).holders[h].running[id], key, n)
  {
    if Q.Enabled(w, st) { Q.NextShape(w, st, h); }
  }

  /** A running flush keeps its batch until its statement is back. */
  lemma FlushRuns(w: A.World, st: A.Step, f: nat)
    requires A.Paired(w) && f in w.flushes && w.flushes[f].phase.Running? && !(st.Finish? && st.f == f)
    ensures var w' := A.Next(w, st);
      f in w'.flushes && w'.flushes[f].phase == w.flushes[f].phase && w'.flushes[f].key == w.flushes[f].key
  {
  }

  /** Nothing else of the dispatcher changes in a step of its callers or of the holders. */
  ghost predicate Kept(j: Joint, j': Joint, sa: A.Step, sq: Q.Step) {
    && j'.adm in {j.adm, A.Next(j.adm, sa)} && j'.quo in {j.quo, Q.Next(j.quo, sq)}
    && j'.name == j.name && j.mine <= j'.mine
  }

  lemma AskStays(j: Joint, j': Joint, sa: A.Step, sq: Q.Step, f: nat)
    requires Kept(j, j', sa, sq) && f in j.asks && Asked(j, f) && f in j'.asks && j'.asks[f] == j.asks[f]
    requires A.Paired(j.adm) && |j.quo.holders| == |j.quo.rows| && Q.Tallied(j.quo.holders[j.asks[f].h])
    requires !(sa.Finish? && sa.f == f)
    requires (sq.Return? || sq.SettleFailed?) && sq.h == j.asks[f].h ==> sq.id != j.asks[f].id
    ensures Asked(j', f)
  {
    var k := j.asks[f];
    FlushRuns(j.adm, sa, f);
    StatementStays(j.quo, sq, k.h, k.id, j.name(j.adm.flushes[f].key), |j.adm.flushes[f].phase.batch|);
  }

  /** No two flushes wait for one statement. */
  ghost predicate Apart(j: Joint) { forall f, g | f in j.asks && g in j.asks && f != g :: j.asks[f] != j.asks[g] }

  /** What the dispatcher notes agrees with the holders and with the batcher. */
  ghost predicate Noted(j: Joint) {
    && |j.under| == |j.adm.log| && (forall n | 0 <= n < |j.under| :: j.under[n] in j.mine)
    && (forall h | h in j.mine :: h < |j.quo.holders|)
    && Apart(j) && (forall f | f in j.asks :: Asked(j, f))
    && (forall x | 0 <= x < |j.adm.waiters| :: Traced(j.adm, x))
  }

  ghost predicate Inv(j: Joint) {
    Sound(j) && Noted(j) && forall h, key | h in j.mine :: Matched(j, h, key)
  }

  /** The little of the machines' own invariants that the notes rest on. */
  ghost predicate Basic(j: Joint) {
    && |j.quo.holders| == |j.quo.rows| && (forall h | 0 <= h < |j.quo.holders| :: Q.Tallied(j.quo.holders[h]))
    && A.Paired(j.adm)
  }

  lemma SoundIsBasic(j: Joint)
    requires Sound(j)
    ensures Basic(j)
  {
    forall h | 0 <= h < |j.quo.holders| ensures Q.Tallied(j.quo.holders[h]) { assert Q.HolderInv(j.quo, h); }
  }

  lemma HolderCount(w: Q.World, st: Q.Step)
    requires |w.holders| == |w.rows|
    ensures |Q.Next(w, st).holders| == |w.holders| + if Q.Enabled(w, st) && Q.IsNew(st) then 1 else 0
  {
    if Q.Enabled(w, st) { Q.NextShape(w, st, 0); }
  }

  lemma LogCount(w: A.World, st: A.Step)
    ensures |A.Next(w, st).log| == |w.log| + if st.Finish? && A.Enabled(w, st) then 1 else 0
  {
  }

  lemma NextMine(j: Joint, st: Step)
    requires Basic(j) && forall h | h in j.mine :: h < |j.quo.holders|
    ensures forall h | h in Next(j, st).mine :: h < |Next(j, st).quo.holders|
  {
    var acts := Taken(j, st).1;
    if acts != [] { HolderCount(j.quo, acts[0]); }
  }

  lemma NextUnder(j: Joint, st: Step)
    requires |j.under| == |j.adm.log| && (forall n | 0 <= n < |j.under| :: j.under[n] in j.mine)
    requires forall f | f in j.asks :: Asked(j, f)
    ensures var j' := Next(j, st);
      |j'.under| == |j'.adm.log| && (forall n | 0 <= n < |j'.under| :: j'.under[n] in j'.mine)
  {
    var calls := Taken(j, st).0;
    if calls != [] {
      LogCount(j.adm, calls[0]);
      if calls[0].Finish? { assert Asked(j, calls[0].f); }
    }
  }

  lemma NextApart(j: Joint, st: Step)
    requires Basic(j) && Apart(j) && forall f | f in j.asks :: Asked(j, f)
    ensures Apart(Next(j, st))
  {
    forall f | f in j.asks
      ensures j.asks[f].h < |j.quo.holders| && j.asks[f].id < j.quo.holders[j.asks[f].h].drawn
    {
      assert Asked(j, f) && Q.Tallied(j.quo.holders[j.asks[f].h]);
    }
  }

  /** The steps of the two machines that could end a flush's wait end the wait of one flush only. */
  lemma OthersWaitOn(j: Joint, st: Step, f: nat)
    requires Apart(j) && (forall g | g in j.asks :: Asked(j, g)) && f in j.asks && f in Next(j, st).asks
    ensures var (calls, acts) := Taken(j, st);
      && (calls != [] && calls[0].Finish? ==> calls[0].f != f)
      && (acts != [] && (acts[0].Return? || acts[0].SettleFailed?) && acts[0].h == j.asks[f].h ==>
            acts[0].id != j.asks[f].id)
      && Next(j, st).asks[f] == j.asks[f]
  {
    assert Asked(j, f);
  }

  lemma NextAsked(j: Joint, st: Step, f: nat)
    requires Basic(j) && Apart(j) && (forall g | g in j.asks :: Asked(j, g)) && f in Next(j, st).asks
    ensures Asked(Next(j, st), f)
  {
    var (calls, acts) := Taken(j, st);
    if f in j.asks {
      OthersWaitOn(j, st, f);
      assert Asked(j, f) && Q.Tallied(j.quo.holders[j.asks[f].h]);
      var sa, sq := if calls == [] then A.Close else calls[0], if acts == [] then Q.Tick(0) else acts[0];
      AskStays(j, Next(j, st), sa, sq, f);
    } else {
      NewAsked(j, st, f);
    }
  }

  lemma NewAsked(j: Joint, st: Step, f: nat)
    requires Basic(j) && f !in j.asks && f in Next(j, st).asks
    ensures Asked(Next(j, st), f)
  {
    HolderCount(j.quo, Taken(j, st).1[0]);
  }

  // Grants and callers, step by step.

  predicate Quiet(st: Step) { !(st.Answer? || st.Break? || st.Serve? || st.UseAndRelease?) }

  lemma QuietOutstanding(j: Joint, st: Step, h: nat, key: string)
    requires Quiet(st)
    ensures Outstanding(Next(j, st), h, key) == Outstanding(j, h, key)
  {
    var calls := Taken(j, st).0;
    if calls != [] {
      forall x: nat ensures Released(Next(j, st).adm, x) == Released(j.adm, x) { CallsRelease(j.adm, calls[0], x); }
    }
    SameOutstanding(j, Next(j, st), h, key);
  }

  /** Every other act of the holders leaves the dispatcher's own grants alone. */
  lemma QuietGrants(j: Joint, st: Step, h: nat)
    requires Quiet(st) && Basic(j) && h in j.mine && h < |j.quo.holders|
    ensures h < |Next(j, st).quo.holders| && Next(j, st).quo.holders[h].grants == j.quo.holders[h].grants
  {
    var acts := Taken(j, st).1;
    if acts != [] { GrantsStay(j.quo, acts[0], h); }
  }

  lemma NewGrants(j: Joint, st: Step, h: nat, key: string)
    requires Basic(j) && h !in j.mine && h in Next(j, st).mine
    requires forall n | 0 <= n < |j.under| :: j.under[n] in j.mine && j.under[n] < |j.quo.holders|
    ensures Matched(Next(j, st), h, key)
  {
    HolderCount(j.quo, Taken(j, st).1[0]);
    QuietOutstanding(j, st, h, key);
    assert forall n: nat, p: nat :: !Out(j, n, p, h, key);
    assert Outstanding(j, h, key) == {};
  }

  lemma QuietMatches(j: Joint, st: Step, h: nat, key: string)
    requires Quiet(st) && Basic(j) && h in j.mine && Matched(j, h, key)
    ensures Matched(Next(j, st), h, key)
  {
    QuietOutstanding(j, st, h, key);
    QuietGrants(j, st, h);
  }

  /** What a flush hands out when its statement came back. */
  lemma FinishMatches(j: Joint, st: Step, h: nat, key: string)
    requires (st.Answer? || st.Break?) && Basic(j) && h in j.mine && Matched(j, h, key) && |j.under| == |j.adm.log|
    requires forall f | f in j.asks :: Asked(j, f)
    ensures Matched(Next(j, st), h, key)
  {
    var (calls, acts) := Taken(j, st);
    if acts != [] {
      assert Asked(j, st.f);
      if calls != [] {
        var s := A.Statement(j.adm.flushes[st.f].key, j.adm.flushes[st.f].phase.batch, calls[0].granted,
                             calls[0].failed, 0);
        FinishedOutstanding(j, Next(j, st), s, j.asks[st.f].h, h, key);
      } else {
        SameOutstanding(j, Next(j, st), h, key);
      }
      ReturnGrants(j, st, h, key);
    }
  }

  lemma ReturnGrants(j: Joint, st: Step, h: nat, key: string)
    requires (st.Answer? || st.Break?) && Basic(j) && h < |j.quo.holders| && Taken(j, st).1 != []
    requires st.f in j.asks && Asked(j, st.f)
    ensures h < |Next(j, st).quo.holders|
    ensures var k := j.asks[st.f];
      var q := j.quo.holders[k.h].running[k.id];
      Next(j, st).quo.holders[h].grants[key] ==
      j.quo.holders[h].grants[key] +
      if st.Answer? && h == k.h && key == q.key && q.outcome.Granted? then q.outcome.slots else 0
  {
    if h != j.asks[st.f].h || st.Break? { GrantsStay(j.quo, Taken(j, st).1[0], h); }
  }

  lemma OutIsOutstanding(j: Joint, n: nat, p: nat, h: nat, key: string)
    ensures (n, p) in Outstanding(j, h, key) <==> Out(j, n, p, h, key)
  {
  }

  /** A place that is given back is one release of its own holder, which had the slot granted. */
  lemma ReleaseMatches(j: Joint, j': Joint, n: nat, p: nat, h: nat, key: string)
    requires Basic(j) && n < |j.adm.log| && n < |j.under| && Out(j, n, p, j.under[n], j.name(j.adm.log[n].key))
    requires Matched(j, h, key) && Matched(j, j.under[n], j.name(j.adm.log[n].key))
    requires j'.quo == Q.Next(j.quo, Q.Release(j.under[n], j.name(j.adm.log[n].key)))
    requires Outstanding(j', h, key) == Outstanding(j, h, key) - {(n, p)}
    ensures Q.Enabled(j.quo, Q.Release(j.under[n], j.name(j.adm.log[n].key))) && Matched(j', h, key)
  {
    var owner, named := j.under[n], j.name(j.adm.log[n].key);
    OutIsOutstanding(j, n, p, owner, named);
    OutIsOutstanding(j, n, p, h, key);
    assert Outstanding(j, owner, named) != {};
    if h != owner { GrantsStay(j.quo, Q.Release(owner, named), h); }
  }

  /** Answered places other than one are other callers'. */
  ghost predicate Alone(w: A.World, n: nat, p: nat, x: nat) {
    forall m: nat, q: nat | m < |w.log| && q < |w.log[m].batch| && q < w.log[m].served && (m, q) != (n, p) ::
      w.log[m].batch[q] != x
  }

  ghost predicate NewHead(w: A.World, f: nat)
    requires A.Enabled(w, A.Serve(f))
  {
    var n := w.flushes[f].phase.stmt;
    var x := w.log[n].batch[w.log[n].served];
    w.waiters[x].released == 0 && Alone(w, n, w.log[n].served, x)
  }

  /** The caller a flush answers next has no answer yet, and is at no place answered before. */
  lemma HeadIsNew(w: A.World, f: nat)
    requires A.Inv(w) && A.Enabled(w, A.Serve(f))
    ensures NewHead(w, f)
  {
    var n := w.flushes[f].phase.stmt;
    var x := w.log[n].batch[w.log[n].served];
    assert A.Phased(w, f) && A.Lined(w, f) && A.Told(w.waiters[x]);
    A.HeadOfLine(w, f);
    assert x in A.Line(w, f);
    forall m: nat, q: nat | m < |w.log| && q < |w.log[m].batch| && q < w.log[m].served ensures w.log[m].batch[q] != x {
      assert A.Decided(w, m, q);
    }
  }

  /** One caller's slot was given back, or not, at its place, which is answered now. */
  ghost predicate Handed(w: A.World, w': A.World, n: nat, p: nat, x: nat, back: bool) {
    && n < |w.log| && p < |w.log[n].batch| && w.log[n].batch[p] == x && p <= w.log[n].served
    && Released(w, x) == 0 && (Released(w', x) > 0 <==> back)
    && w'.log == w.log[n := w.log[n].(served := if p == w.log[n].served then p + 1 else w.log[n].served)]
    && (forall y: nat | y != x :: Released(w', y) == Released(w, y))
  }

  lemma HandedOutstanding(j: Joint, j': Joint, n: nat, p: nat, x: nat, back: bool, h: nat, key: string)
    requires Handed(j.adm, j'.adm, n, p, x, back) && Alone(j.adm, n, p, x) && j'.under == j.under && j'.name == j.name
    ensures Outstanding(j', h, key) == Outstanding(j, h, key) - if back then {(n, p)} else {}
  {
    GivenBackOutstanding(j, j', n, p, x, h, key);
  }

  lemma ServeHands(w: A.World, f: nat)
    requires A.Enabled(w, A.Serve(f)) && NewHead(w, f)
    ensures var n := w.flushes[f].phase.stmt;
      var p := w.log[n].served;
      Handed(w, A.Next(w, A.Serve(f)), n, p, w.log[n].batch[p], HandsBack(w, f))
  {
  }

  lemma ServeMatches(j: Joint, f: nat, h: nat, key: string)
    requires A.Enabled(j.adm, A.Serve(f)) && NewHead(j.adm, f)
    requires Basic(j) && |j.under| == |j.adm.log| && Matched(j, h, key)
    requires HandsBack(j.adm, f) ==>
      var n := j.adm.flushes[f].phase.stmt; Matched(j, j.under[n], j.name(j.adm.log[n].key))
    ensures Matched(Next(j, Serve(f)), h, key)
    ensures var n := j.adm.flushes[f].phase.stmt;
      HandsBack(j.adm, f) ==> Q.Enabled(j.quo, Q.Release(j.under[n], j.name(j.adm.log[n].key)))
  {
    var n := j.adm.flushes[f].phase.stmt;
    var p := j.adm.log[n].served;
    ServeHands(j.adm, f);
    HandMatches(j, Next(j, Serve(f)), n, p, j.adm.log[n].batch[p], HandsBack(j.adm, f), h, key);
  }

  lemma HandMatches(j: Joint, j': Joint, n: nat, p: nat, x: nat, back: bool, h: nat, key: string)
    requires Handed(j.adm, j'.adm, n, p, x, back) && Alone(j.adm, n, p, x) && j'.under == j.under && j'.name == j.name
    requires Basic(j) && |j.under| == |j.adm.log| && Matched(j, h, key)
    requires j'.quo == if back then Q.Next(j.quo, Q.Release(j.under[n], j.name(j.adm.log[n].key))) else j.quo
    requires back ==> A.Granted(j.adm.log[n], p) && Matched(j, j.under[n], j.name(j.adm.log[n].key))
    ensures Matched(j', h, key)
    ensures back ==> Q.Enabled(j.quo, Q.Release(j.under[n], j.name(j.adm.log[n].key)))
  {
    HandedOutstanding(j, j', n, p, x, back, h, key);
    if back { ReleaseMatches(j, j', n, p, h, key); }
  }

  /** A caller that holds a slot: the place it was answered at, and no other answered place is its. */
  ghost predicate OnePlace(w: A.World, x: nat)
    requires A.Enabled(w, A.UseAndRelease(x))
  {
    var r := w.waiters[x].replies[0];
    && r.stmt < |w.log| && r.place < w.log[r.stmt].served && r.place < |w.log[r.stmt].batch|
    && w.log[r.stmt].batch[r.place] == x && A.Granted(w.log[r.stmt], r.place) && Alone(w, r.stmt, r.place, x)
  }

  lemma HolderHasOnePlace(w: A.World, x: nat)
    requires A.Inv(w) && A.Enabled(w, A.UseAndRelease(x)) && Traced(w, x)
    ensures OnePlace(w, x)
  {
    assert A.Told(w.waiters[x]);
    var r := w.waiters[x].replies[0];
    assert A.Result(w.waiters[x]) == r;
    forall m: nat, q: nat | m < |w.log| && q < |w.log[m].batch| && q < w.log[m].served && (m, q) != (r.stmt, r.place)
      ensures w.log[m].batch[q] != x
    {
      assert A.Decided(w, m, q);
    }
  }

  lemma UseHands(w: A.World, x: nat)
    requires A.Enabled(w, A.UseAndRelease(x)) && OnePlace(w, x) && w.waiters[x].released == 0
    ensures var r := w.waiters[x].replies[0]; Handed(w, A.Next(w, A.UseAndRelease(x)), r.stmt, r.place, x, true)
  {
    var n := w.waiters[x].replies[0].stmt;
    assert w.log[n := w.log[n]] == w.log;
  }

  lemma UseMatches(j: Joint, x: nat, h: nat, key: string)
    requires A.Enabled(j.adm, A.UseAndRelease(x)) && OnePlace(j.adm, x)
    requires Basic(j) && |j.under| == |j.adm.log| && Matched(j, h, key)
    requires var n := j.adm.waiters[x].replies[0].stmt; Matched(j, j.under[n], j.name(j.adm.log[n].key))
    ensures Matched(Next(j, UseAndRelease(x)), h, key)
  {
    var c := j.adm.waiters[x];
    if c.released == 0 {
      UseHands(j.adm, x);
      HandMatches(j, Next(j, UseAndRelease(x)), c.replies[0].stmt, c.replies[0].place, x, true, h, key);
    } else {
      SameOutstanding(j, Next(j, UseAndRelease(x)), h, key);
    }
  }

  lemma NextMatches(j: Joint, st: Step, h: nat, key: string)
    requires Inv(j) && h in Next(j, st).mine
    ensures Matched(Next(j, st), h, key)
  {
    SoundIsBasic(j);
    if h !in j.mine {
      NewGrants(j, st, h, key);
    } else {
      assert Matched(j, h, key);
      match st
      case Answer(f) => FinishMatches(j, st, h, key);
      case Break(f, _) => FinishMatches(j, st, h, key);
      case Serve(f) =>
        if A.Enabled(j.adm, A.Serve(f)) {
          HeadIsNew(j.adm, f);
          ServeMatches(j, f, h, key);
        }
      case UseAndRelease(x) =>
        if A.Enabled(j.adm, A.UseAndRelease(x)) {
          HolderHasOnePlace(j.adm, x);
          UseMatches(j, x, h, key);
        }
      case _ => QuietMatches(j, st, h, key);
    }
  }

  lemma NextTraced(j: Joint, st: Step, x: nat)
    requires A.Inv(j.adm) && x < |Next(j, st).adm.waiters|
    requires x < |j.adm.waiters| ==> Traced(j.adm, x)
    ensures Traced(Next(j, st).adm, x)
  {
    var calls := Taken(j, st).0;
    if calls != [] && A.Enabled(j.adm, calls[0]) { NextTraces(j.adm, calls[0], x); }
  }

  lemma NextNoted(j: Joint, st: Step)
    requires Sound(j) && Noted(j)
    ensures Noted(Next(j, st))
  {
    SoundIsBasic(j);
    NextUnder(j, st);
    NextMine(j, st);
    NextApart(j, st);
    forall f | f in Next(j, st).asks ensures Asked(Next(j, st), f) { NextAsked(j, st, f); }
    forall x | 0 <= x < |Next(j, st).adm.waiters| ensures Traced(Next(j, st).adm, x) { NextTraced(j, st, x); }
  }

  lemma NextKeeps(j: Joint, st: Step)
    requires Inv(j)
    ensures Inv(Next(j, st))
  {
    NextSound(j, st);
    NextNoted(j, st);
    forall h, key | h in Next(j, st).mine ensures Matched(Next(j, st), h, key) { NextMatches(j, st, h, key); }
  }

  lemma {:induction false} RunKeeps(j: Joint, steps: seq<Step>)
    requires Inv(j)
    ensures Inv(Run(j, steps))
    decreases |steps|
  {
    if steps != [] {
      NextKeeps(j, steps[0]);
      RunKeeps(Next(j, steps[0]), steps[1..]);
    }
  }

  lemma StartHolds(name: string -> string)
    ensures Inv(Start(name))
  {
    assert Q.Inv(Q.Start);
  }

  /**
   In every run, the slots a holder of the dispatcher has granted for a key and not got back are
   exactly the places its statements granted that are still to be answered or whose callers have not
   given theirs back.
   */
  lemma GrantsHaveCallers(name: string -> string, steps: seq<Step>, h: nat, key: string)
    requires h in Run(Start(name), steps).mine
    ensures Matched(Run(Start(name), steps), h, key)
  {
    StartHolds(name);
    RunKeeps(Start(name), steps);
  }

  /** One slot of the key went from a holder's grants to its queued releases, and nothing else changed. */
  ghost predicate GaveBack(w: Q.World, w': Q.World, h: nat, key: string) {
    && h < |w.holders| && key in w.holders[h].grants && w'.rows == w.rows
    && w'.holders == w.holders[h := w.holders[h].(grants := w.holders[h].grants - multiset{key},
                                                  queued := w.holders[h].queued + multiset{key})]
  }

  lemma ReleaseGivesBack(w: Q.World, h: nat, key: string)
    requires Q.Enabled(w, Q.Release(h, key))
    ensures GaveBack(w, Q.Next(w, Q.Release(h, key)), h, key)
  {
  }

  lemma ServeReleases(j: Joint, f: nat)
    requires A.Enabled(j.adm, A.Serve(f)) && HandsBack(j.adm, f) && NewHead(j.adm, f)
    requires Basic(j) && |j.under| == |j.adm.log|
    requires var n := j.adm.flushes[f].phase.stmt; Matched(j, j.under[n], j.name(j.adm.log[n].key))
    ensures var n := j.adm.flushes[f].phase.stmt;
      GaveBack(j.quo, Next(j, Serve(f)).quo, j.under[n], j.name(j.adm.log[n].key))
  {
    var n := j.adm.flushes[f].phase.stmt;
    ServeMatches(j, f, j.under[n], j.name(j.adm.log[n].key));
    ReleaseGivesBack(j.quo, j.under[n], j.name(j.adm.log[n].key));
  }

  lemma ServeGivesBack(j: Joint, f: nat)
    requires Inv(j) && A.Enabled(j.adm, A.Serve(f)) && HandsBack(j.adm, f)
    ensures var n := j.adm.flushes[f].phase.stmt;
      n < |j.under| && GaveBack(j.quo, Next(j, Serve(f)).quo, j.under[n], j.name(j.adm.log[n].key))
  {
    var n := j.adm.flushes[f].phase.stmt;
    SoundIsBasic(j);
    HeadIsNew(j.adm, f);
    assert Matched(j, j.under[n], j.name(j.adm.log[n].key));
    ServeReleases(j, f);
  }

  /**
   A grant that reaches a caller after it gave up is given back by exactly one release, under the
   holder that granted it.
   */
  lemma AbandonedGrantIsReleased(name: string -> string, steps: seq<Step>, f: nat)
    requires var j := Run(Start(name), steps); A.Enabled(j.adm, A.Serve(f)) && HandsBack(j.adm, f)
    ensures var j := Run(Start(name), steps);
      var n := j.adm.flushes[f].phase.stmt;
      n < |j.under| && GaveBack(j.quo, Next(j, Serve(f)).quo, j.under[n], j.name(j.adm.log[n].key))
  {
    StartHolds(name);
    RunKeeps(Start(name), steps);
    ServeGivesBack(Run(Start(name), steps), f);
  }

  /** So is the slot of a caller that used it: once, whatever it calls later. */
  lemma UsedGrantIsReleased(name: string -> string, steps: seq<Step>, x: nat)
    requires A.Enabled(Run(Start(name), steps).adm, A.UseAndRelease(x))
    ensures var j := Run(Start(name), steps);
      var c, quo := j.adm.waiters[x], Next(j, UseAndRelease(x)).quo;
      var n := c.replies[0].stmt;
      && n < |j.adm.log| && n < |j.under|
      && if c.released == 0 then GaveBack(j.quo, quo, j.under[n], j.name(j.adm.log[n].key)) else quo == j.quo
  {
    StartHolds(name);
    RunKeeps(Start(name), steps);
    UseGivesBack(Run(Start(name), steps), x);
  }

  lemma UseGivesBack(j: Joint, x: nat)
    requires Inv(j) && A.Enabled(j.adm, A.UseAndRelease(x))
    ensures var c, quo := j.adm.waiters[x], Next(j, UseAndRelease(x)).quo;
      var n := c.replies[0].stmt;
      && n < |j.adm.log| && n < |j.under|
      && if c.released == 0 then GaveBack(j.quo, quo, j.under[n], j.name(j.adm.log[n].key)) else quo == j.quo
  {
    SoundIsBasic(j);
    HolderHasOnePlace(j.adm, x);
    var c := j.adm.waiters[x];
    var n, p := c.replies[0].stmt, c.replies[0].place;
    var h, key := j.under[n], j.name(j.adm.log[n].key);
    assert Matched(j, h, key);
    if c.released == 0 {
      UseHands(j.adm, x);
      HandMatches(j, Next(j, UseAndRelease(x)), n, p, x, true, h, key);
      ReleaseGivesBack(j.quo, h, key);
    }
  }

  // The callers of one dispatcher against the limit.

  /** The places for a key, under the holders before the n-th, whose slots were not given back. */
  function InHands(j: Joint, key: string, n: nat): set<(nat, nat)> {
    if n == 0 then {} else InHands(j, key, n - 1) + Outstanding(j, n - 1, key)
  }

  lemma {:induction false} InHandsCounts(j: Joint, key: string, n: nat)
    requires n <= |j.quo.holders| && forall h | 0 <= h < |j.quo.holders| :: Owes(j, key, h)
    ensures |InHands(j, key, n)| <= Q.InUse(j.quo, key, n)
  {
    if n > 0 {
      var h: nat := n - 1;
      InHandsCounts(j, key, h);
      assert Owes(j, key, h);
      InHandsMore(j, key, n, h);
    }
  }

  lemma InHandsMore(j: Joint, key: string, n: nat, h: nat)
    requires n == h + 1 <= |j.quo.holders| && Owes(j, key, h) && |InHands(j, key, h)| <= Q.InUse(j.quo, key, h)
    ensures |InHands(j, key, n)| <= Q.InUse(j.quo, key, n)
  {
    var was, out := InHands(j, key, h), Outstanding(j, h, key);
    Union(was, out);
    assert InHands(j, key, n) == was + out;
  }

  /** A holder owes at least what its callers have in hand. */
  ghost predicate Owes(j: Joint, key: string, h: nat)
    requires h < |j.quo.holders|
  {
    |Outstanding(j, h, key)| <= Q.Owed(j.quo.holders[h], key)
  }

  lemma Union(a: set<(nat, nat)>, b: set<(nat, nat)>)
    ensures |a + b| <= |a| + |b|
  {
  }

  lemma InHandsOf(j: Joint, key: string, h: nat)
    requires h < |j.quo.holders| && (h in j.mine ==> Matched(j, h, key))
    requires forall m | 0 <= m < |j.under| :: j.under[m] in j.mine
    ensures Owes(j, key, h)
  {
    if h !in j.mine {
      assert forall m: nat, p: nat :: !Out(j, m, p, h, key);
      assert Outstanding(j, h, key) == {};
    }
  }

  /** These are all the places granted for the key and not given back. */
  lemma {:induction false} InHandsIsAll(j: Joint, key: string, n: nat, m: nat, p: nat)
    ensures (m, p) in InHands(j, key, n) <==> m < |j.under| && j.under[m] < n && Out(j, m, p, j.under[m], key)
  {
    if n > 0 {
      InHandsIsAll(j, key, n - 1, m, p);
      OutIsOutstanding(j, m, p, n - 1, key);
    }
  }

  /**
   In every run the slots of a key in the hands of the dispatcher's callers never exceed the highest
   limit anybody asked for it, plus the use under holders whose lease ran out.
   */
  lemma CallersWithinLimit(name: string -> string, steps: seq<Step>, key: string)
    ensures var j := Run(Start(name), steps);
      && |j.quo.holders| == |j.quo.rows|
      && (forall m: nat, p: nat :: (m, p) in InHands(j, key, |j.quo.holders|) <==>
            m < |j.under| && Out(j, m, p, j.under[m], key))
      && |InHands(j, key, |j.quo.holders|)| <= Q.Top(j.quo, key) + Q.LapsedUse(j.quo, key, |j.quo.holders|)
  {
    var j := Run(Start(name), steps);
    StartHolds(name);
    RunKeeps(Start(name), steps);
    forall h | 0 <= h < |j.quo.holders| ensures Owes(j, key, h) { InHandsOf(j, key, h); }
    InHandsCounts(j, key, |j.quo.holders|);
    Q.UseIsCounted(j.quo, key, |j.quo.holders|);
    assert Q.Within(j.quo, key);
    forall m: nat, p: nat ensures (m, p) in InHands(j, key, |j.quo.holders|) <==>
        m < |j.under| && Out(j, m, p, j.under[m], key)
    {
      InHandsIsAll(j, key, |j.quo.holders|, m, p);
    }
  }
}
