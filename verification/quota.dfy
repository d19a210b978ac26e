/**
 Concurrency quotas counted in the database per holder: the holder and slot rows, every
 dispatcher's reference-counted holders, and all interleavings of their statements, failed
 calls, releases, renewals, lapses and deletions.
 */
module Quotas {
  /**
   One holder row with its slot rows; names are drawn fresh, so a holder is its position in the order
   of registration.
   */
  datatype Row = Row(present: bool, expires: int, used: map<string, nat>)

  predicate Live(r: Row, now: int) { r.present && r.expires > now }

  function Used(r: Row, key: string): nat { if key in r.used then r.used[key] else 0 }

  /** The slots of a key that count: those of the first `n` holders whose lease is running. */
  function LiveUsed(rows: seq<Row>, now: int, key: string, n: nat): nat
    requires n <= |rows|
  {
    if n == 0 then 0
    else LiveUsed(rows, now, key, n - 1) + if Live(rows[n - 1], now) then Used(rows[n - 1], key) else 0
  }

  function Min(a: int, b: int): int { if a <= b then a else b }

  /** What an acquire statement grants, or nothing when the holder lapsed. */
  datatype Outcome = Waiting | Granted(slots: nat) | Lapsed

  function Acquire(rows: seq<Row>, now: int, h: nat, key: string, n: nat, limit: int): (seq<Row>, Outcome)
    requires h < |rows|
  {
    if !Live(rows[h], now) then (rows, Lapsed)
    else
      var free := limit - LiveUsed(rows, now, key, |rows|);
      var grant: nat := Min(n, if free > 0 then free else 0);
      if grant == 0 then (rows, Granted(0))
      else (rows[h := rows[h].(used := rows[h].used[key := Used(rows[h], key) + grant])], Granted(grant))
  }

  /** Gives back slots of several keys, never below zero. */
  function Free(r: Row, counts: multiset<string>): Row {
    r.(used := map key | key in r.used :: if r.used[key] > counts[key] then r.used[key] - counts[key] else 0)
  }

  function Deleted(r: Row): Row { if r.present then r.(present := false, used := map[]) else r }

  function Renewed(r: Row, now: int, ttl: nat): Row { if Live(r, now) then r.(expires := now + ttl) else r }

  /** What a dispatcher keeps per holder. */
  datatype Local = Local(known: int, retired: bool, deleting: bool, gone: bool, current: bool)

  const Unknown := Local(0, false, false, false, false)

  function Retired(l: Local): Local { l.(retired := true, current := false) }

  function Settled(l: Local, n: int): Local {
    var known := l.known - n;
    l.(known := known, deleting := l.deleting || (l.retired && !l.gone && known == 0))
  }

  /** A running statement; `failed` once its caller saw an error and retired the holder. */
  datatype Stmt = Stmt(key: string, n: nat, limit: int, outcome: Outcome, failed: bool)

  /**
   A holder: what its dispatcher counts, its running statements, the grants handed out, the
   releases queued and the batch of releases being sent (freed once its statement took effect,
   broken once its call failed),
   and whether its store has shut down.
   */
  datatype Holder = Holder(local: Local, running: map<nat, Stmt>, drawn: nat, grants: multiset<string>,
                           queued: multiset<string>, sent: multiset<string>, freed: bool, broken: bool, shut: bool)

  const Nobody := Holder(Unknown, map[], 0, multiset{}, multiset{}, multiset{}, false, false, false)

  /** All holders, the clock, and the highest limit asked for each key. */
  datatype World = World(rows: seq<Row>, holders: seq<Holder>, now: int, tops: map<string, int>)

  const Start := World([], [], 0, map[])

  function Top(w: World, key: string): int { if key in w.tops then w.tops[key] else 0 }

  datatype Step =
    | Register(ttl: nat)
    | BeginNew(ttl: nat, key: string, n: nat, limit: int)
    | Begin(h: nat, key: string, n: nat, limit: int)
    | Execute(h: nat, id: nat)
    | Return(h: nat, id: nat)
    | Fail(h: nat, id: nat)
    | SettleFailed(h: nat, id: nat)
    | Release(h: nat, key: string)
    | Send(h: nat)
    | FreeSent(h: nat)
    | FailSent(h: nat)
    | SettleSent(h: nat)
    | Delete(h: nat)
    | MarkGone(h: nat)
    | RenewRow(h: nat, ttl: nat)
    | FindLapsed(h: nat)
    | GiveUpRenewing(h: nat)
    | Shut(h: nat)
    | Reap(h: nat)
    | Tick(now: int)

  /** Deletion runs for a holder marked deleting, or on shutdown for one nothing names. */
  predicate Deletable(d: Holder) { d.local.deleting || (d.shut && d.local.known == 0 && !d.local.gone) }

  predicate Names(w: World, st: Step) {
    (st.Register? || st.BeginNew? || st.Tick?) || (st.h < |w.holders| && st.h < |w.rows|)
  }

  predicate Enabled(w: World, st: Step) {
    && Names(w, st)
    && match st
       case Register(_) => true
       case BeginNew(_, _, _, _) => true
       case Begin(h, _, _, _) => w.holders[h].local.current && !w.holders[h].shut
       case Execute(h, id) =>
         id in w.holders[h].running && w.holders[h].running[id].outcome == Waiting && !w.holders[h].running[id].failed
       case Return(h, id) =>
         id in w.holders[h].running && w.holders[h].running[id].outcome.Granted? && !w.holders[h].running[id].failed
       case Fail(h, id) => id in w.holders[h].running && !w.holders[h].running[id].failed
       case SettleFailed(h, id) => id in w.holders[h].running && w.holders[h].running[id].failed
       case Release(h, key) => key in w.holders[h].grants
       case Send(h) => w.holders[h].sent == multiset{} && w.holders[h].queued != multiset{}
       case FreeSent(h) => w.holders[h].sent != multiset{} && !w.holders[h].freed && !w.holders[h].broken
       case FailSent(h) => w.holders[h].sent != multiset{} && !w.holders[h].broken
       case SettleSent(h) => w.holders[h].sent != multiset{} && (w.holders[h].freed || w.holders[h].broken)
       case Delete(h) => Deletable(w.holders[h])
       case MarkGone(h) => Deletable(w.holders[h]) && !w.rows[h].present
       case RenewRow(h, _) => true
       case FindLapsed(h) => !Live(w.rows[h], w.now)
       case GiveUpRenewing(h) => true
       case Shut(h) => w.holders[h].running == map[]
       case Reap(h) => w.rows[h].expires <= w.now
       case Tick(now) => w.now <= now
  }

  /** The holder after a step of its own. */
  function HolderAfter(w: World, st: Step): Holder
    requires Enabled(w, st) && !st.Register? && !st.BeginNew? && !st.Tick?
  {
    var d := w.holders[st.h];
    match st
    case Begin(_, key, n, limit) =>
      d.(running := d.running[d.drawn := Stmt(key, n, limit, Waiting, false)], drawn := d.drawn + 1,
         local := d.local.(known := d.local.known + 1))
    case Execute(h, id) =>
      var q := d.running[id];
      d.(running := d.running[id := q.(outcome := Acquire(w.rows, w.now, h, q.key, q.n, q.limit).1)])
    case Return(_, id) =>
      var q := d.running[id];
      d.(running := d.running - {id}, grants := d.grants[q.key := d.grants[q.key] + q.outcome.slots],
         local := Settled(d.local, 1 - q.outcome.slots))
    case Fail(_, id) => d.(running := d.running[id := d.running[id].(failed := true)], local := Retired(d.local))
    case SettleFailed(_, id) => d.(running := d.running - {id}, local := Settled(d.local, 1))
    case Release(_, key) => d.(grants := d.grants - multiset{key}, queued := d.queued + multiset{key})
    case Send(_) => d.(sent := d.queued, queued := multiset{}, freed := false, broken := false)
    case FreeSent(_) => d.(freed := true)
    case FailSent(_) => d.(broken := true, local := Retired(d.local))
    case SettleSent(_) => d.(sent := multiset{}, freed := false, broken := false, local := Settled(d.local, |d.sent|))
    case MarkGone(_) => d.(local := d.local.(gone := true))
    case FindLapsed(_) => d.(local := Retired(d.local).(gone := true))
    case GiveUpRenewing(_) => d.(local := Retired(d.local))
    case Shut(_) => d.(shut := true)
    case _ => d
  }

  function RowsAfter(w: World, st: Step): seq<Row>
    requires Enabled(w, st) && !st.Register? && !st.BeginNew? && !st.Tick?
  {
    match st
    case Execute(h, id) => var q := w.holders[h].running[id]; Acquire(w.rows, w.now, h, q.key, q.n, q.limit).0
    case FreeSent(h) => w.rows[h := Free(w.rows[h], w.holders[h].sent)]
    case Delete(h) => w.rows[h := Deleted(w.rows[h])]
    case RenewRow(h, ttl) => w.rows[h := Renewed(w.rows[h], w.now, ttl)]
    case Reap(h) => w.rows[h := Deleted(w.rows[h])]
    case _ => w.rows
  }

  function Asked(w: World, key: string, limit: int): map<string, int> {
    w.tops[key := if Top(w, key) >= limit then Top(w, key) else limit]
  }

  function Next(w: World, st: Step): World {
    if !Enabled(w, st) then w
    else match st
      case Register(ttl) => w.(rows := w.rows + [Row(true, w.now + ttl, map[])], holders := w.holders + [Nobody])
      case BeginNew(ttl, key, n, limit) =>
        World(w.rows + [Row(true, w.now + ttl, map[])],
              w.holders + [Nobody.(running := map[0 := Stmt(key, n, limit, Waiting, false)], drawn := 1,
                                   local := Unknown.(known := 1, current := true))],
              w.now, Asked(w, key, limit))
      case Tick(now) => w.(now := now)
      case Begin(h, key, n, limit) => w.(holders := w.holders[h := HolderAfter(w, st)], tops := Asked(w, key, limit))
      case _ => w.(holders := w.holders[st.h := HolderAfter(w, st)], rows := RowsAfter(w, st))
  }

  function Run(w: World, steps: seq<Step>): World
    decreases |steps|
  {
    if steps == [] then w else Run(Next(w, steps[0]), steps[1..])
  }

  /** The count a holder keeps is what names it: running statements, grants out, releases queued or being sent. */
  ghost predicate Tallied(d: Holder) {
    && d.local.known == |d.running| + |d.grants| + |d.queued| + |d.sent|
    && (forall id | id in d.running :: id < d.drawn)
  }

  /** A holder marked deleting is retired and unnamed; a retired one is not current; a shut one runs nothing. */
  ghost predicate Flagged(d: Holder) {
    && (d.local.deleting ==> d.local.retired && d.local.known == 0)
    && (d.local.retired ==> !d.local.current)
    && (d.local.gone && !d.shut ==> d.local.retired)
    && (d.shut ==> d.running == map[])
  }

  ghost predicate Counted(d: Holder) { Tallied(d) && Flagged(d) }

  lemma HolderTallies(w: World, st: Step)
    requires Enabled(w, st) && !st.Register? && !st.BeginNew? && !st.Tick?
    requires Tallied(w.holders[st.h])
    ensures Tallied(HolderAfter(w, st))
  {
  }

  lemma HolderCounts(w: World, st: Step)
    requires Enabled(w, st) && !st.Register? && !st.BeginNew? && !st.Tick?
    requires Counted(w.holders[st.h])
    ensures Counted(HolderAfter(w, st))
  {
    HolderTallies(w, st);
  }

  function LandedOf(running: map<nat, Stmt>, key: string, id: nat): nat {
    if id in running && running[id].key == key && running[id].outcome.Granted? then running[id].outcome.slots else 0
  }

  /** The slots granted for a key by statements whose reply was not read yet. */
  function Landed(running: map<nat, Stmt>, key: string, n: nat): nat {
    if n == 0 then 0 else Landed(running, key, n - 1) + LandedOf(running, key, n - 1)
  }

  /** Changing one statement changes the sum by what it lands. */
  lemma {:induction false} LandedChange(a: map<nat, Stmt>, b: map<nat, Stmt>, key: string, id: nat, n: nat)
    requires a - {id} == b - {id}
    ensures Landed(b, key, n) == Landed(a, key, n) + if id < n then LandedOf(b, key, id) - LandedOf(a, key, id) else 0
  {
    if n > 0 {
      LandedChange(a, b, key, id, n - 1);
      assert n - 1 != id ==> (n - 1 in a <==> n - 1 in a - {id}) && (n - 1 in b <==> n - 1 in b - {id});
      assert n - 1 != id && n - 1 in a ==> a[n - 1] == (a - {id})[n - 1] == (b - {id})[n - 1] == b[n - 1];
    }
  }

  /** The slots of a key the database must count for a holder: granted, and not yet given back there. */
  function Owed(d: Holder, key: string): nat {
    d.grants[key] + d.queued[key] + (if d.freed then 0 else d.sent[key]) + Landed(d.running, key, d.drawn)
  }

  /** While a holder's lease runs, its row counts every slot still in use. */
  ghost predicate Backed(r: Row, d: Holder, now: int, key: string) {
    Live(r, now) ==> Used(r, key) >= Owed(d, key)
  }

  lemma BeginOwes(w: World, st: Step, key: string)
    requires Enabled(w, st) && st.Begin? && Counted(w.holders[st.h])
    ensures Owed(HolderAfter(w, st), key) == Owed(w.holders[st.h], key)
  {
    var d, d' := w.holders[st.h], HolderAfter(w, st);
    assert d.running - {d.drawn} == d'.running - {d.drawn};
    LandedChange(d.running, d'.running, key, d.drawn, d'.drawn);
  }

  lemma ExecuteOwes(w: World, st: Step, key: string)
    requires Enabled(w, st) && st.Execute? && Counted(w.holders[st.h])
    ensures var q := w.holders[st.h].running[st.id];
      Owed(HolderAfter(w, st), key) == Owed(w.holders[st.h], key) +
        if q.key == key then Used(RowsAfter(w, st)[st.h], key) - Used(w.rows[st.h], key) else 0
    ensures |RowsAfter(w, st)| == |w.rows|
  {
    var d, d' := w.holders[st.h], HolderAfter(w, st);
    assert d.running - {st.id} == d'.running - {st.id};
    LandedChange(d.running, d'.running, key, st.id, d.drawn);
  }

  lemma ReturnOwes(w: World, st: Step, key: string)
    requires Enabled(w, st) && (st.Return? || st.Fail? || st.SettleFailed?) && Counted(w.holders[st.h])
    ensures Owed(HolderAfter(w, st), key) <= Owed(w.holders[st.h], key)
    ensures st.Return? ==> Owed(HolderAfter(w, st), key) == Owed(w.holders[st.h], key)
  {
    var d, d' := w.holders[st.h], HolderAfter(w, st);
    assert d.running - {st.id} == d'.running - {st.id};
    LandedChange(d.running, d'.running, key, st.id, d.drawn);
  }

  lemma StaysBacked(w: World, st: Step, key: string)
    requires Enabled(w, st) && !st.Register? && !st.BeginNew? && !st.Tick?
    requires Counted(w.holders[st.h]) && Backed(w.rows[st.h], w.holders[st.h], w.now, key)
    ensures |RowsAfter(w, st)| == |w.rows|
    ensures Backed(RowsAfter(w, st)[st.h], HolderAfter(w, st), w.now, key)
  {
    match st
    case Begin(_, _, _, _) => BeginOwes(w, st, key);
    case Execute(_, _) => ExecuteOwes(w, st, key);
    case Return(_, _) => ReturnOwes(w, st, key);
    case Fail(_, _) => ReturnOwes(w, st, key);
    case SettleFailed(_, _) => ReturnOwes(w, st, key);
    case _ =>
  }

  function Counts(r: Row, now: int, key: string): nat { if Live(r, now) then Used(r, key) else 0 }

  /** Changing one row changes the sum by what it counts. */
  lemma {:induction false} LiveUsedChange(a: seq<Row>, b: seq<Row>, now: int, key: string, h: nat, n: nat)
    requires n <= |a| == |b| && h < |a| && b == a[h := b[h]]
    ensures LiveUsed(b, now, key, n) ==
            LiveUsed(a, now, key, n) + if h < n then Counts(b[h], now, key) - Counts(a[h], now, key) else 0
  {
    if n > 0 { LiveUsedChange(a, b, now, key, h, n - 1); }
  }

  /**
   An acquire statement of a live holder counts exactly what it grants, and stops short of what was
   asked only at the limit.
   */
  lemma GrantsAllItCan(rows: seq<Row>, now: int, h: nat, key: string, n: nat, limit: int)
    requires h < |rows|
    ensures var (rows', outcome) := Acquire(rows, now, h, key, n, limit);
      && |rows'| == |rows| && (outcome == Lapsed <==> !Live(rows[h], now))
      && (outcome == Lapsed ==> rows' == rows)
      && (outcome.Granted? ==>
            && LiveUsed(rows', now, key, |rows|) == LiveUsed(rows, now, key, |rows|) + outcome.slots
                && outcome.slots <= n
            && (outcome.slots < n ==> LiveUsed(rows', now, key, |rows|) >= limit))
  {
    LiveUsedChange(rows, Acquire(rows, now, h, key, n, limit).0, now, key, h, |rows|);
  }

  /** Time and new holders add nothing. */
  lemma {:induction false} LiveUsedLater(a: seq<Row>, b: seq<Row>, now: int, later: int, key: string, n: nat)
    requires n <= |a| <= |b| && a == b[..|a|] && now <= later
    ensures LiveUsed(b, later, key, n) <= LiveUsed(a, now, key, n)
  {
    if n > 0 {
      LiveUsedLater(a, b, now, later, key, n - 1);
      assert a[n - 1] == b[n - 1];
    }
  }

  ghost predicate Within(w: World, key: string) { LiveUsed(w.rows, w.now, key, |w.rows|) <= Top(w, key) }

  /** Statements ask for no more than the highest limit seen. */
  ghost predicate Bounded(w: World, h: nat)
    requires h < |w.holders|
  {
    forall id | id in w.holders[h].running :: w.holders[h].running[id].limit <= Top(w, w.holders[h].running[id].key)
  }

  /** A row deleted before its lease ran out belongs to a holder that nothing names and nothing will. */
  ghost predicate Abandoned(r: Row, d: Holder, now: int) {
    !r.present && r.expires > now ==> d.local.known == 0 && (d.local.deleting || d.shut)
  }

  ghost predicate HolderInv(w: World, h: nat)
    requires h < |w.holders| == |w.rows|
  {
    && Counted(w.holders[h]) && Bounded(w, h) && Abandoned(w.rows[h], w.holders[h], w.now)
    && forall key :: Backed(w.rows[h], w.holders[h], w.now, key)
  }

  ghost predicate Inv(w: World) {
    && |w.holders| == |w.rows|
    && (forall h | 0 <= h < |w.holders| :: HolderInv(w, h))
    && forall key :: Within(w, key)
  }

  lemma ExecuteLimits(w: World, st: Step, key: string)
    requires Inv(w) && Enabled(w, st) && st.Execute?
    ensures Within(Next(w, st), key)
  {
    assert Within(w, key) && HolderInv(w, st.h);
    LiveUsedChange(w.rows, Next(w, st).rows, w.now, key, st.h, |w.rows|);
  }

  /** No other statement makes a row count more. */
  lemma OwnCounts(w: World, st: Step, key: string)
    requires Enabled(w, st) && !IsNew(st) && !st.Tick? && !st.Execute?
    ensures |RowsAfter(w, st)| == |w.rows|
        && Counts(RowsAfter(w, st)[st.h], w.now, key) <= Counts(w.rows[st.h], w.now, key)
    ensures RowsAfter(w, st) == w.rows[st.h := RowsAfter(w, st)[st.h]]
  {
  }

  lemma NextLimits(w: World, st: Step, key: string)
    requires Inv(w) && Enabled(w, st)
    ensures Within(Next(w, st), key)
  {
    assert Within(w, key);
    NextShape(w, st, 0);
    var w' := Next(w, st);
    if IsNew(st) {
      LiveUsedLater(w.rows, w'.rows, w.now, w.now, key, |w.rows|);
    } else if st.Tick? {
      LiveUsedLater(w.rows, w.rows, w.now, st.now, key, |w.rows|);
    } else if st.Execute? {
      ExecuteLimits(w, st, key);
    } else if !st.Begin? {
      OwnCounts(w, st, key);
      LiveUsedChange(w.rows, w'.rows, w.now, key, st.h, |w.rows|);
    }
  }

  /** A holder keeps its invariant while its own state and row stay and time and limits grow. */
  lemma Later(w: World, w': World, h: nat)
    requires h < |w.holders| == |w.rows| && h < |w'.holders| == |w'.rows| && HolderInv(w, h)
    requires w'.holders[h] == w.holders[h] && w'.rows[h] == w.rows[h] && w.now <= w'.now
    requires forall key :: Top(w, key) <= Top(w', key)
    ensures HolderInv(w', h)
  {
    forall key ensures Backed(w'.rows[h], w'.holders[h], w'.now, key) {
      assert Backed(w.rows[h], w.holders[h], w.now, key);
    }
  }

  predicate IsNew(st: Step) { st.Register? || st.BeginNew? }

  lemma NextShape(w: World, st: Step, h: nat)
    requires Enabled(w, st) && |w.holders| == |w.rows|
    ensures var w' := Next(w, st);
      && |w'.holders| == |w'.rows| == |w.holders| + (if IsNew(st) then 1 else 0) && w.now <= w'.now
      && (forall key :: Top(w, key) <= Top(w', key))
      && (h < |w.holders| && (IsNew(st) || st.Tick? || h != st.h) ==>
            && w'.holders[h] == w.holders[h]
            && w'.rows[h] == w.rows[h])
  {
  }

  lemma RunningAfter(w: World, st: Step, id: nat)
    requires Enabled(w, st) && !IsNew(st) && !st.Tick? && id in HolderAfter(w, st).running
    ensures var d, q := w.holders[st.h], HolderAfter(w, st).running[id];
      || (id in d.running && q.key == d.running[id].key && q.limit == d.running[id].limit)
      || (st.Begin? && q.key == st.key && q.limit == st.limit)
  {
  }

  lemma OwnBounded(w: World, st: Step)
    requires Enabled(w, st) && !IsNew(st) && !st.Tick? && |w.holders| == |w.rows| && Bounded(w, st.h)
    ensures |Next(w, st).holders| == |w.holders| && Bounded(Next(w, st), st.h)
  {
    NextShape(w, st, st.h);
    var w' := Next(w, st);
    assert w'.holders[st.h] == HolderAfter(w, st);
    forall id | id in w'.holders[st.h].running
      ensures w'.holders[st.h].running[id].limit <= Top(w', w'.holders[st.h].running[id].key)
    {
      RunningAfter(w, st, id);
    }
  }

  lemma OwnAbandoned(w: World, st: Step)
    requires Enabled(w, st) && !IsNew(st) && !st.Tick? && Counted(w.holders[st.h])
        && Abandoned(w.rows[st.h], w.holders[st.h], w.now)
    ensures |RowsAfter(w, st)| == |w.rows| && Abandoned(RowsAfter(w, st)[st.h], HolderAfter(w, st), w.now)
  {
  }

  lemma OwnHolder(w: World, st: Step)
    requires Enabled(w, st) && !IsNew(st) && !st.Tick? && |w.holders| == |w.rows| && HolderInv(w, st.h)
    ensures |Next(w, st).holders| == |Next(w, st).rows| == |w.holders| && HolderInv(Next(w, st), st.h)
  {
    NextShape(w, st, st.h);
    HolderCounts(w, st);
    OwnBounded(w, st);
    OwnAbandoned(w, st);
    var w' := Next(w, st);
    forall key ensures Backed(w'.rows[st.h], w'.holders[st.h], w'.now, key) { StaysBacked(w, st, key); }
  }

  lemma NewHolder(w: World, st: Step)
    requires Enabled(w, st) && IsNew(st) && |w.holders| == |w.rows|
    ensures |Next(w, st).holders| == |Next(w, st).rows| == |w.holders| + 1 && HolderInv(Next(w, st), |w.holders|)
  {
    var h := |w.holders|;
    var d := Next(w, st).holders[h];
    forall key ensures Owed(d, key) == 0 {
      assert Landed(d.running, key, 0) == 0 && LandedOf(d.running, key, 0) == 0;
    }
  }

  lemma NextHolder(w: World, st: Step, h: nat)
    requires Inv(w) && Enabled(w, st) && h < |Next(w, st).holders|
    ensures |Next(w, st).holders| == |Next(w, st).rows| && HolderInv(Next(w, st), h)
  {
    NextShape(w, st, h);
    if h == |w.holders| {
      NewHolder(w, st);
    } else {
      assert HolderInv(w, h);
      if IsNew(st) || st.Tick? || h != st.h { Later(w, Next(w, st), h); } else { OwnHolder(w, st); }
    }
  }

  lemma NextKeeps(w: World, st: Step)
    requires Inv(w)
    ensures Inv(Next(w, st))
  {
    if Enabled(w, st) {
      NextShape(w, st, 0);
      forall h | 0 <= h < |Next(w, st).holders| ensures HolderInv(Next(w, st), h) { NextHolder(w, st, h); }
      forall key ensures Within(Next(w, st), key) { NextLimits(w, st, key); }
    }
  }

  lemma {:induction false} RunKeeps(w: World, steps: seq<Step>)
    requires Inv(w)
    ensures Inv(Run(w, steps))
    decreases |steps|
  {
    if steps != [] {
      NextKeeps(w, steps[0]);
      RunKeeps(Next(w, steps[0]), steps[1..]);
    }
  }

  /** In every run a holder's count is exactly what still names it. */
  lemma KnownNamesEverything(steps: seq<Step>, h: nat)
    requires h < |Run(Start, steps).holders|
    ensures var d := Run(Start, steps).holders[h];
      d.local.known == |d.running| + |d.grants| + |d.queued| + |d.sent|
  {
    RunKeeps(Start, steps);
    assert HolderInv(Run(Start, steps), h);
  }

  predicate Unnamed(d: Holder) {
    d.local.known == 0 && d.running == map[] && d.grants == d.queued == d.sent == multiset{}
  }

  lemma DeletingStays(w: World, st: Step, h: nat)
    requires Inv(w) && h < |w.holders| && w.holders[h].local.deleting
    ensures h < |Next(w, st).holders| && Next(w, st).holders[h].local.deleting
  {
    if Enabled(w, st) { NextShape(w, st, h); }
  }

  /** Once a holder is marked deleting, nothing names it then or at any time later. */
  lemma {:induction false} DeletingForever(w: World, steps: seq<Step>, h: nat)
    requires Inv(w) && h < |w.holders| && w.holders[h].local.deleting
    ensures h < |Run(w, steps).holders| && Run(w, steps).holders[h].local.deleting && Unnamed(Run(w, steps).holders[h])
    decreases |steps|
  {
    assert HolderInv(w, h);
    if steps != [] {
      NextKeeps(w, steps[0]);
      DeletingStays(w, steps[0], h);
      DeletingForever(Next(w, steps[0]), steps[1..], h);
    }
  }

  /** Deleting a holder's row, in any run, frees no slot in use: nothing names the holder. */
  lemma DeletionFreesNothing(steps: seq<Step>, h: nat)
    requires Enabled(Run(Start, steps), Delete(h))
    ensures Unnamed(Run(Start, steps).holders[h])
  {
    RunKeeps(Start, steps);
    assert HolderInv(Run(Start, steps), h);
  }

  /** The slots of a key in use by the first `n` holders: all of them, and those whose lease ran out. */
  function InUse(w: World, key: string, n: nat): nat
    requires n <= |w.holders|
  {
    if n == 0 then 0 else InUse(w, key, n - 1) + Owed(w.holders[n - 1], key)
  }

  function LapsedUse(w: World, key: string, n: nat): nat
    requires n <= |w.holders| == |w.rows|
  {
    if n == 0 then 0
    else LapsedUse(w, key, n - 1) + if w.rows[n - 1].expires <= w.now then Owed(w.holders[n - 1], key) else 0
  }

  lemma {:induction false} NothingLands(running: map<nat, Stmt>, key: string, n: nat)
    requires running == map[]
    ensures Landed(running, key, n) == 0
  {
    if n > 0 { NothingLands(running, key, n - 1); }
  }

  lemma {:induction false} UseIsCounted(w: World, key: string, n: nat)
    requires Inv(w) && n <= |w.holders|
    ensures InUse(w, key, n) <= LiveUsed(w.rows, w.now, key, n) + LapsedUse(w, key, n)
  {
    if n > 0 {
      UseIsCounted(w, key, n - 1);
      assert HolderInv(w, n - 1) && Backed(w.rows[n - 1], w.holders[n - 1], w.now, key);
      if !w.rows[n - 1].present && w.rows[n - 1].expires > w.now {
        NothingLands(w.holders[n - 1].running, key, w.holders[n - 1].drawn);
      }
    }
  }

  /**
   In every run the slots of a key in use, over all dispatchers, never exceed the highest limit
   asked for it plus those of holders whose lease ran out; with no such holder, the limit holds.
   */
  lemma LimitHolds(steps: seq<Step>, key: string)
    ensures var w := Run(Start, steps);
      |w.holders| == |w.rows| && InUse(w, key, |w.holders|) <= Top(w, key) + LapsedUse(w, key, |w.holders|)
  {
    RunKeeps(Start, steps);
    var w := Run(Start, steps);
    UseIsCounted(w, key, |w.holders|);
    assert Within(w, key);
  }

  /** One holder with one statement for one slot. */
  function OneStatement(key: string, outcome: Outcome, used: map<string, nat>): World {
    World([Row(true, 1, used)],
          [Nobody.(local := Unknown.(known := 1, current := true), drawn := 1,
                   running := map[0 := Stmt(key, 1, 1, outcome, false)])], 0, map[key := 1])
  }

  /** Its grant was taken under a lease that then ran out. */
  function LapsedHolder(key: string, now: int): World {
    World([Row(true, 1, map[key := 1])],
          [Nobody.(local := Unknown.(known := 1, current := true), drawn := 1, grants := multiset{key})], now,
              map[key := 1])
  }

  lemma OneExecutes(key: string)
    ensures Next(OneStatement(key, Waiting, map[]), Execute(0, 0)) == OneStatement(key, Granted(1), map[key := 1])
  {
    var w, w' := OneStatement(key, Waiting, map[]), OneStatement(key, Granted(1), map[key := 1]);
    assert LiveUsed(w.rows, 0, key, 1) == LiveUsed(w.rows, 0, key, 0);
    assert RowsAfter(w, Execute(0, 0)) == w'.rows;
    assert HolderAfter(w, Execute(0, 0)).running == w'.holders[0].running;
    assert Next(w, Execute(0, 0)).holders == w'.holders;
  }

  lemma OneReturns(key: string)
    ensures Next(OneStatement(key, Granted(1), map[key := 1]), Return(0, 0)) == LapsedHolder(key, 0)
  {
    var w := OneStatement(key, Granted(1), map[key := 1]);
    assert HolderAfter(w, Return(0, 0)).grants == multiset{key};
    assert HolderAfter(w, Return(0, 0)).running == map[];
    assert Next(w, Return(0, 0)).holders == LapsedHolder(key, 0).holders;
  }

  lemma LapsedHolderIsReached(key: string)
    ensures Run(Start, [BeginNew(1, key, 1, 1), Execute(0, 0), Return(0, 0), Tick(1)]) == LapsedHolder(key, 1)
  {
    var w1, w2, w3 := OneStatement(key, Waiting, map[]), OneStatement(key, Granted(1), map[key := 1]),
        LapsedHolder(key, 0);
    assert Next(Start, BeginNew(1, key, 1, 1)) == w1;
    OneExecutes(key);
    OneReturns(key);
    assert Run(w3, [Tick(1)]) == Next(w3, Tick(1));
    assert Run(w2, [Return(0, 0), Tick(1)]) == Run(w3, [Tick(1)]);
    assert Run(w1, [Execute(0, 0), Return(0, 0), Tick(1)]) == Run(w2, [Return(0, 0), Tick(1)]);
  }

  /** The lapse term is needed: from there a second grant passes a limit of one. */
  lemma LapseExceedsLimit(key: string)
    ensures var w := Run(LapsedHolder(key, 1), [BeginNew(1, key, 1, 1), Execute(1, 0)]);
      Top(w, key) == 1 && InUse(w, key, |w.holders|) == 2
  {
    var w := LapsedHolder(key, 1);
    var w1 := Next(w, BeginNew(1, key, 1, 1));
    assert LiveUsed(w1.rows, 1, key, 2) == LiveUsed(w1.rows, 1, key, 1) == LiveUsed(w1.rows, 1, key, 0);
    assert Acquire(w1.rows, 1, 1, key, 1, 1).1 == Granted(1);
    var w2 := Next(w1, Execute(1, 0));
    assert Run(w1, [Execute(1, 0)]) == w2;
    var d := w2.holders[1];
    assert d.running[0].outcome == Granted(1);
    assert Landed(d.running, key, 1) == Landed(d.running, key, 0) + 1;
    assert Landed(w2.holders[0].running, key, 1) == Landed(w2.holders[0].running, key, 0);
    assert InUse(w2, key, 2) == InUse(w2, key, 1) + Owed(d, key) ==
        InUse(w2, key, 0) + Owed(w2.holders[0], key) + Owed(d, key);
  }

  /** Retired and sure to be deleted, now or once nothing names it. */
  predicate Leaving(l: Local) { l.retired && (l.known > 0 || l.deleting || l.gone) }

  lemma LeavingStays(w: World, st: Step, h: nat)
    requires Inv(w) && h < |w.holders| && Leaving(w.holders[h].local)
    ensures h < |Next(w, st).holders| && Leaving(Next(w, st).holders[h].local)
  {
    assert HolderInv(w, h);
    if Enabled(w, st) { NextShape(w, st, h); NextHolder(w, st, h); }
  }

  lemma LingersStays(w: World, st: Step, h: nat)
    requires Inv(w) && h < |w.holders| && w.holders[h].local.retired && w.holders[h].local.known == 0
        && !w.holders[h].local.deleting
    ensures h < |Next(w, st).holders|
    ensures var l := Next(w, st).holders[h].local; l.retired && l.known == 0 && !l.deleting
  {
    assert HolderInv(w, h);
    if Enabled(w, st) { NextShape(w, st, h); }
  }

  lemma {:induction false} LeavingForever(w: World, steps: seq<Step>, h: nat)
    requires Inv(w) && h < |w.holders| && Leaving(w.holders[h].local)
    ensures h < |Run(w, steps).holders| && Leaving(Run(w, steps).holders[h].local)
    decreases |steps|
  {
    if steps != [] {
      NextKeeps(w, steps[0]);
      LeavingStays(w, steps[0], h);
      LeavingForever(Next(w, steps[0]), steps[1..], h);
    }
  }

  lemma {:induction false} LingersForever(w: World, steps: seq<Step>, h: nat)
    requires Inv(w) && h < |w.holders| && w.holders[h].local.retired && w.holders[h].local.known == 0
        && !w.holders[h].local.deleting
    ensures h < |Run(w, steps).holders| && !Run(w, steps).holders[h].local.deleting
    decreases |steps|
  {
    if steps != [] {
      NextKeeps(w, steps[0]);
      LingersStays(w, steps[0], h);
      LingersForever(Next(w, steps[0]), steps[1..], h);
    }
  }

  /**
   A retired holder that nothing names any more is marked for deletion exactly when something
   named it when it was retired; one retired while idle, which only a failed renewal does, is
   renewed on by the heartbeat until a renewal finds its lease run out, or the store shuts down.
   */
  lemma RetiredIsDeletedIffNamed(w: World, steps: seq<Step>, h: nat)
    requires Inv(w) && h < |w.holders|
    requires var l := w.holders[h].local; l.retired && !l.deleting && !l.gone
    ensures h < |Run(w, steps).holders|
    ensures var l := Run(w, steps).holders[h].local;
      l.known == 0 && !l.gone ==> (l.deleting <==> w.holders[h].local.known > 0)
  {
    assert HolderInv(w, h);
    if w.holders[h].local.known > 0 { LeavingForever(w, steps, h); } else { LingersForever(w, steps, h); }
  }

  /** One holder whose statement asks for nothing, and the holder it leaves. */
  function AskingNothing(key: string, outcome: Outcome): World {
    World([Row(true, 1, map[])],
          [Nobody.(local := Unknown.(known := 1, current := true), drawn := 1,
                   running := map[0 := Stmt(key, 0, 1, outcome, false)])],
          0, map[key := 1])
  }

  function IdleHolder(key: string, retired: bool): World {
    World([Row(true, 1, map[])], [Nobody.(local := Unknown.(retired := retired, current := !retired), drawn := 1)], 0,
          map[key := 1])
  }

  lemma NothingExecutes(key: string)
    ensures Next(AskingNothing(key, Waiting), Execute(0, 0)) == AskingNothing(key, Granted(0))
  {
    var w, w' := AskingNothing(key, Waiting), AskingNothing(key, Granted(0));
    assert HolderAfter(w, Execute(0, 0)).running == w'.holders[0].running;
    assert Next(w, Execute(0, 0)).holders == w'.holders;
  }

  lemma NothingReturns(key: string)
    ensures Next(AskingNothing(key, Granted(0)), Return(0, 0)) == IdleHolder(key, false)
  {
    var w := AskingNothing(key, Granted(0));
    assert HolderAfter(w, Return(0, 0)).grants == multiset{};
    assert HolderAfter(w, Return(0, 0)).running == map[];
    assert Next(w, Return(0, 0)).holders == IdleHolder(key, false).holders;
  }

  /** A holder retired while nothing names it is reached: its renewals failed. */
  lemma RetiredIdleIsReached(key: string)
    ensures Run(Start, [BeginNew(1, key, 0, 1), Execute(0, 0), Return(0, 0), GiveUpRenewing(0)]) ==
        IdleHolder(key, true)
  {
    var w1, w2, w3 := AskingNothing(key, Waiting), AskingNothing(key, Granted(0)), IdleHolder(key, false);
    assert Next(Start, BeginNew(1, key, 0, 1)) == w1;
    NothingExecutes(key);
    NothingReturns(key);
    assert Run(w3, [GiveUpRenewing(0)]) == Next(w3, GiveUpRenewing(0));
    assert Run(w2, [Return(0, 0), GiveUpRenewing(0)]) == Run(w3, [GiveUpRenewing(0)]);
    assert Run(w1, [Execute(0, 0), Return(0, 0), GiveUpRenewing(0)]) == Run(w2, [Return(0, 0), GiveUpRenewing(0)]);
  }

  /** From there no run marks it for deletion, though nothing names it. */
  lemma RetiredIdleLingers(key: string, steps: seq<Step>)
    ensures 0 < |Run(IdleHolder(key, true), steps).holders|
    ensures !Run(IdleHolder(key, true), steps).holders[0].local.deleting
  {
    RunKeeps(Start, [BeginNew(1, key, 0, 1), Execute(0, 0), Return(0, 0), GiveUpRenewing(0)]);
    RetiredIdleIsReached(key);
    LingersForever(IdleHolder(key, true), steps, 0);
  }

  /** The heartbeat's renewals of a holder, one a tick. */
  function RenewSteps(h: nat, ttl: nat, now: int, n: nat): seq<Step>
    decreases n
  {
    if n == 0 then [] else [RenewRow(h, ttl), Tick(now + 1)] + RenewSteps(h, ttl, now + 1, n - 1)
  }

  lemma RenewOnce(w: World, h: nat, ttl: nat, later: int)
    requires h < |w.holders| == |w.rows| && Live(w.rows[h], w.now) && ttl > 1 && later == w.now + 1
    ensures var w' := Next(Next(w, RenewRow(h, ttl)), Tick(later));
      && w'.holders == w.holders && |w'.rows| == |w.rows| && w'.now == later
      && Live(w'.rows[h], later)
  {
  }

  /** Renewals keep a live row live for good, whatever its holder's count and flags. */
  lemma {:induction false} RenewedOn(w: World, h: nat, ttl: nat, n: nat)
    requires h < |w.holders| == |w.rows| && Live(w.rows[h], w.now) && ttl > 1
    ensures var w' := Run(w, RenewSteps(h, ttl, w.now, n));
      w'.holders == w.holders && |w'.rows| == |w.rows| && w'.now == w.now + n && Live(w'.rows[h], w'.now)
    decreases n
  {
    if n > 0 {
      var steps, later := RenewSteps(h, ttl, w.now, n), w.now + 1;
      RenewOnce(w, h, ttl, later);
      var w1 := Next(w, RenewRow(h, ttl));
      var w2 := Next(w1, Tick(later));
      assert steps[1..][1..] == RenewSteps(h, ttl, later, n - 1);
      assert Run(w, steps) == Run(w1, steps[1..]) == Run(w2, steps[1..][1..]);
      RenewedOn(w2, h, ttl, n - 1);
    }
  }

  /** So a holder retired while idle keeps its row for as long as the heartbeat renews it. */
  lemma RetiredIdleIsRenewed(key: string, ttl: nat, n: nat)
    requires ttl > 1
    ensures var w := Run(IdleHolder(key, true), RenewSteps(0, ttl, 0, n));
      && w.now == n && |w.rows| == |w.holders| == 1 && Live(w.rows[0], n)
      && w.holders[0].local == Unknown.(retired := true)
  {
    RenewedOn(IdleHolder(key, true), 0, ttl, n);
  }

  /** What ends it: the holder is gone, or its row is, only after a shutdown or once the lease ran out. */
  ghost predicate EndsRightly(w: World, h: nat)
    requires h < |w.holders| == |w.rows|
  {
    var l := w.holders[h].local;
    && l.retired && l.known == 0 && !l.deleting
    && (l.gone || !w.rows[h].present ==> w.holders[h].shut || w.rows[h].expires <= w.now)
  }

  lemma NextEnds(w: World, st: Step, h: nat)
    requires Inv(w) && h < |w.holders| && EndsRightly(w, h)
    ensures h < |Next(w, st).holders| == |Next(w, st).rows| && EndsRightly(Next(w, st), h)
  {
    LingersStays(w, st, h);
    if Enabled(w, st) {
      assert HolderInv(w, h);
      EnabledEnds(w, st, h);
    }
  }

  lemma EnabledEnds(w: World, st: Step, h: nat)
    requires Enabled(w, st) && h < |w.holders| == |w.rows| && Counted(w.holders[h]) && EndsRightly(w, h)
    ensures var w' := Next(w, st);
      && h < |w'.holders| == |w'.rows|
      && (w'.holders[h].local.gone || !w'.rows[h].present ==> w'.holders[h].shut || w'.rows[h].expires <= w'.now)
  {
    NextShape(w, st, h);
    if !IsNew(st) && !st.Tick? && st.h == h { OwnEnds(w, st); }
  }

  lemma OwnEnds(w: World, st: Step)
    requires Enabled(w, st) && !IsNew(st) && !st.Tick? && |w.holders| == |w.rows| && EndsRightly(w, st.h)
    requires Counted(w.holders[st.h])
    ensures var d, rows := HolderAfter(w, st), RowsAfter(w, st);
      && |rows| == |w.rows|
      && (d.local.gone || !rows[st.h].present ==> d.shut || rows[st.h].expires <= w.now)
  {
  }

  /** Over any run: a holder retired while idle goes only with its store, or when its lease ran out. */
  lemma {:induction false} RetiredIdleEnds(w: World, steps: seq<Step>, h: nat)
    requires Inv(w) && h < |w.holders| && EndsRightly(w, h)
    ensures var w' := Run(w, steps); h < |w'.holders| == |w'.rows| && EndsRightly(w', h)
    decreases |steps|
  {
    if steps != [] {
      NextKeeps(w, steps[0]);
      NextEnds(w, steps[0], h);
      RetiredIdleEnds(Next(w, steps[0]), steps[1..], h);
    }
  }
}
