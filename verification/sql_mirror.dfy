/**
 Dispatchers over the shared tables. Every step is one statement or one section under
 a dispatcher's mutex; steps of different dispatchers, and a dispatcher's workers and
 its poll or rebalance cycle, interleave freely. Only the cycle lock orders a
 dispatcher's own cycle steps, through `pc`. A call may lose its reply after its
 statement committed.
 */
module SqlMirror {
  import opened Calls
  import opened SqlTables
  import opened SqlFencing
  import opened SqlAck
  import opened SqlLocal

  /** Where the goroutine holding the cycle lock stands, with what it read so far. */
  datatype Pc =
    | Idle
    | Booking(rows: map<Key, Tracked>)
    | Orphans(stamps: set<Stamp>)
    | OrphansSent(stamps: set<Stamp>)
    | Queried(stamps: set<Stamp>)
    | Leftover(stamps: set<Stamp>)
    | LeftoverSent
    | Beaten(held: map<nat, Held>)
    | Taken(acquired: map<nat, nat>)
    | Flagged(parts: set<nat>, draining: bool)
    | Given(parts: set<nat>)
    | Gone

  /**
   `written` holds the stamps whose outcome call succeeded and whose bookkeeping has not
   run yet; `lost` remembers that an acquisition committed without its reply arriving.
   */
  datatype Node = Node(local: Local, pc: Pc, written: set<Stamp>, lost: bool)

  datatype System = System(h: History, nodes: map<string, Node>)

  datatype Act =
    | Poll(now: int, draws: map<Key, nat>, last: nat, fault: Fault)
    | BookRow(key: Key)
    | BookDone
    | TakeOrphans
    | SendOrphans(fault: Fault)
    | ForgetOrphans
    | Query
    | Diff
    | SendLeftover(fault: Fault)
    | Clear
    | Beat(expires: int, fault: Fault)
    | SyncLeases(now: int)
    | Take(now: int, expires: int, picked: set<nat>, fault: Fault)
    | AdoptLeases(now: int)
    | Reset(scope: Scope, locked: set<Key>)
    | Flag(parts: set<nat>, draining: bool, fault: Fault)
    | MarkLeases(now: int)
    | Give(parts: set<nat>, fault: Fault)
    | ForgetLeases
    | Quit(fault: Fault)
    | ForgetAll
    | AckCall(cs: seq<Completion>, fault: Fault)
    | RetryCall(stamp: Stamp, notBefore: int, envelope: string, fault: Fault)
    | ReturnCall(stamps: set<Stamp>, notBefore: int, fault: Fault)
    | DoneRow(stamp: Stamp)
    | AbandonRow(stamp: Stamp)

  datatype Step =
    | Outside(st: Stmt)
    | Open(owner: string)
    | Crash(owner: string)
    | Do(owner: string, act: Act)

  const NewNode := Node(SqlLocal.Fresh, Idle, {}, false)

  datatype Option<T> = None | Some(value: T)

  /** The statement an act sends, if any. */
  function Sends(o: string, n: Node, act: Act): Option<Stmt> {
    match act
    case Poll(now, draws, last, _) => Some(Dispatch(o, now, draws, last))
    case SendOrphans(_) => if n.pc.Orphans? then Some(Undispatch(o, n.pc.stamps, 0)) else None
    case SendLeftover(_) => if n.pc.Leftover? then Some(Undispatch(o, n.pc.stamps, 0)) else None
    case Beat(expires, _) => Some(RenewLeases(o, expires))
    case Take(now, expires, picked, _) => Some(Acquire(o, now, expires, picked))
    case Reset(scope, locked) => Some(ResetStale(o, scope, locked))
    case Flag(parts, draining, _) => Some(SetDraining(o, parts, draining))
    case Give(parts, _) => Some(Release(o, parts))
    case Quit(_) => Some(Leave(o))
    case AckCall(cs, _) => Some(Ack(o, Deduped(cs)))
    case RetryCall(stamp, notBefore, envelope, _) => Some(Retry(o, stamp, notBefore, envelope))
    case ReturnCall(stamps, notBefore, _) => Some(Undispatch(o, stamps, notBefore))
    case _ => None
  }

  function FaultOf(act: Act): Fault {
    match act
    case Poll(_, _, _, f) => f
    case SendOrphans(f) => f
    case SendLeftover(f) => f
    case Beat(_, f) => f
    case Take(_, _, _, f) => f
    case Flag(_, _, f) => f
    case Give(_, f) => f
    case Quit(f) => f
    case AckCall(_, f) => f
    case RetryCall(_, _, _, f) => f
    case ReturnCall(_, _, f) => f
    case _ => Ok
  }

  function Stamps(cs: seq<Completion>): set<Stamp> { set c | c in cs :: Stamp(c.key, c.attempt) }

  /** Which acts a dispatcher can take: the cycle lock orders the cycle, workers name dispatches they were handed. */
  ghost predicate Enabled(h: History, o: string, n: Node, act: Act) {
    && (Sends(o, n, act).Some? ==> Legal(h.db, Sends(o, n, act).value))
    && match act
       case Poll(_, _, _, _) | TakeOrphans | Query | Beat(_, _) | Take(_, _, _, _) | Reset(_, _)
          | Flag(_, _, _) | Give(_, _) | Quit(_) =>
         n.pc.Idle? && (act.Query? ==> n.local.reconcile)
       case BookRow(k) => n.pc.Booking? && k in n.pc.rows
       case BookDone => n.pc.Booking? && n.pc.rows == map[]
       case SendOrphans(_) => n.pc.Orphans?
       case ForgetOrphans => n.pc.OrphansSent?
       case Diff => n.pc.Queried?
       case SendLeftover(_) => n.pc.Leftover?
       case Clear => n.pc.LeftoverSent?
       case SyncLeases(_) => n.pc.Beaten?
       case AdoptLeases(_) => n.pc.Taken?
       case MarkLeases(_) => n.pc.Flagged?
       case ForgetLeases => n.pc.Given?
       case ForgetAll => n.pc.Gone?
       case AckCall(cs, _) => forall c | c in cs :: WasIssued(h.log, c.key, c.attempt)
       case RetryCall(st, _, _, _) => WasIssued(h.log, st.key, st.attempt)
       case ReturnCall(sts, _, _) => forall st | st in sts :: WasIssued(h.log, st.key, st.attempt)
       case DoneRow(st) => st in n.written
       case AbandonRow(_) => true
  }

  function Replied(db: Db, draws: map<Key, nat>): map<Key, Tracked> {
    map k | k in draws && k in db.rows :: Tracked(db.rows[k].part, db.rows[k].epoch, db.rows[k].attempt)
  }

  function InFlight(db: Db, o: string): set<Stamp> {
    set k | k in db.rows && Current(db, o, k) :: Stamp(k, db.rows[k].attempt)
  }

  function Holds(db: Db, o: string): map<nat, Held> {
    map p | p in db.parts && db.parts[p].owner == o :: Held(db.parts[p].epoch, db.parts[p].draining)
  }

  function EpochsOf(db: Db, picked: set<nat>): map<nat, nat> {
    map p | p in picked && p in db.parts :: db.parts[p].epoch
  }

  /** The dispatcher after an act, given the tables the act left behind. */
  function After(db: Db, o: string, n: Node, act: Act): Node {
    var l := n.local;
    if FaultOf(act) != Ok then
      match act
      case Poll(_, _, _, _) => n.(local := l.(reconcile := true))
      case SendOrphans(_) | SendLeftover(_) => n.(pc := Idle)
      case Take(_, _, _, f) => n.(lost := n.lost || f == Lost)
      case _ => n
    else
      match act
      case Poll(_, draws, _, _) => n.(pc := Booking(Replied(db, draws)))
      case BookRow(k) =>
        if n.pc.Booking? && k in n.pc.rows
        then n.(local := Book(l, k, n.pc.rows[k]), pc := Booking(n.pc.rows - {k}))
        else n
      case TakeOrphans => n.(pc := Orphans(OrphanStamps(l)))
      case SendOrphans(_) => if n.pc.Orphans? then n.(pc := OrphansSent(n.pc.stamps)) else n
      case ForgetOrphans => if n.pc.OrphansSent? then n.(local := DropOrphans(l, n.pc.stamps), pc := Idle) else n
      case Query => n.(pc := Queried(InFlight(db, o)))
      case Diff => if n.pc.Queried? then n.(pc := Leftover(Untracked(l, n.pc.stamps))) else n
      case SendLeftover(_) => n.(pc := LeftoverSent)
      case Clear => n.(local := l.(reconcile := false), pc := Idle)
      case Beat(_, _) => n.(pc := Beaten(Holds(db, o)))
      case SyncLeases(now) => if n.pc.Beaten? then n.(local := Sync(l, n.pc.held, now), pc := Idle) else n
      case Take(_, _, picked, _) => n.(pc := Taken(EpochsOf(db, picked)))
      case AdoptLeases(now) => if n.pc.Taken? then n.(local := Adopt(l, n.pc.acquired, now), pc := Idle) else n
      case Flag(parts, draining, _) => n.(pc := Flagged(parts, draining))
      case MarkLeases(now) =>
        if n.pc.Flagged? then n.(local := Mark(l, n.pc.parts, n.pc.draining, now), pc := Idle) else n
      case Give(parts, _) => n.(pc := Given(parts))
      case ForgetLeases => if n.pc.Given? then n.(local := Forget(l, n.pc.parts), pc := Idle) else n
      case Quit(_) => n.(pc := Gone)
      case ForgetAll => n.(local := l.(leases := map[]), pc := Idle)
      case AckCall(cs, _) => n.(written := n.written + Stamps(cs))
      case RetryCall(st, _, _, _) => n.(written := n.written + {st})
      case ReturnCall(sts, _, _) => n.(written := n.written + sts)
      case DoneRow(st) => n.(local := Settle(l, st), written := n.written - {st})
      case AbandonRow(st) => n.(local := Abandon(l, st))
      case BookDone => n.(pc := Idle)
      case Reset(_, _) => n
  }

  function TablesAfter(h: History, o: string, n: Node, act: Act): History {
    var st := Sends(o, n, act);
    if st.Some? && FaultOf(act) != Failed then SqlFencing.Next(h, st.value) else h
  }

  /** Statements of producers and of membership; dispatchers send the rest. */
  predicate FromOutside(st: Stmt) {
    st.Enqueue? || st.DropResults? || st.EnsurePartitions? || st.Join? || st.Resign? || st.ExpireMembers?
  }

  /** A step that cannot be taken changes nothing. A dispatcher opens under a name never used before. */
  ghost function Next(s: System, step: Step): System {
    match step
    case Outside(st) => if FromOutside(st) then s.(h := SqlFencing.Next(s.h, st)) else s
    case Open(o) =>
      if o != "" && o !in s.nodes && forall g | g in s.h.log.grants :: g.owner != o
      then s.(nodes := s.nodes[o := NewNode]) else s
    case Crash(o) => s.(nodes := s.nodes - {o})
    case Do(o, act) =>
      if o in s.nodes && Enabled(s.h, o, s.nodes[o], act) then
        var h := TablesAfter(s.h, o, s.nodes[o], act);
        System(h, s.nodes[o := After(h.db, o, s.nodes[o], act)])
      else s
  }

  ghost function Run(s: System, steps: seq<Step>): System
    decreases |steps|
  {
    if steps == [] then s else Run(Next(s, steps[0]), steps[1..])
  }

  const Boot := System(SqlFencing.Start, map[])

  /** The row's attempt is booked, kept for the next rebalance, or about to be. */
  predicate Covers(n: Node, st: Stamp) {
    || Tracks(n.local, st)
    || (st.key in n.local.orphans && n.local.orphans[st.key] == st.attempt)
    || (n.pc.Booking? && st.key in n.pc.rows && n.pc.rows[st.key].attempt == st.attempt)
    || (n.local.reconcile && match n.pc
          case Queried(stamps) => st in stamps
          case Leftover(stamps) => st in stamps
          case LeftoverSent => false
          case _ => true)
  }

  /** Every row stamped with the current epoch of a partition the dispatcher owns is accounted for. */
  ghost predicate Mirrored(db: Db, o: string, n: Node) {
    forall k | Current(db, o, k) :: Covers(n, Stamp(k, db.rows[k].attempt))
  }

  /** The attempt was drawn, and no longer stands in a partition the dispatcher owns. */
  ghost predicate Settled(db: Db, o: string, st: Stamp) {
    st.attempt <= db.attempts && !(Current(db, o, st.key) && db.rows[st.key].attempt == st.attempt)
  }

  /** What the bookkeeping in progress still has to be true about the tables. */
  ghost predicate Pending(db: Db, o: string, n: Node) {
    && (forall st | st in n.written :: Settled(db, o, st))
    && (n.pc.OrphansSent? ==> forall st | st in n.pc.stamps :: Settled(db, o, st))
    && (n.pc.Orphans? ==> forall st | st in n.pc.stamps :: st.attempt <= db.attempts)
    && (n.pc.Booking? ==> forall k | k in n.pc.rows && Current(db, o, k) :: db.rows[k].attempt == n.pc.rows[k].attempt)
    && (forall k | k in n.local.orphans :: n.local.orphans[k] <= db.attempts)
    && (forall k | k in n.local.inflight :: n.local.inflight[k].attempt <= db.attempts)
    && (n.pc.Booking? ==> forall k | k in n.pc.rows :: n.pc.rows[k].attempt <= db.attempts)
    && n.local.inflight.Keys !! n.local.orphans.Keys
  }

  predicate Reached(db: Db, t: Tracked) {
    t.part in db.parts && t.epoch <= db.parts[t.part].epoch
  }

  /** The leases against the partitions table. */
  ghost predicate Synced(db: Db, o: string, n: Node) {
    && (forall k | k in n.local.inflight :: Reached(db, n.local.inflight[k]))
    && (n.pc.Booking? ==> forall k | k in n.pc.rows :: Reached(db, n.pc.rows[k]))
    && (forall p | Owns(db, o, p) && !n.lost ::
          || Leases(n.local, p, db.parts[p].epoch)
          || (n.pc.Taken? && p in n.pc.acquired && n.pc.acquired[p] == db.parts[p].epoch))
    && (n.pc.Beaten? && !n.lost ==> forall p | p in n.pc.held :: Leases(n.local, p, n.pc.held[p].epoch))
    && (n.pc.Beaten? ==> forall p | Owns(db, o, p) :: p in n.pc.held && n.pc.held[p].epoch == db.parts[p].epoch)
    && (n.pc.Taken? ==> forall k | k in n.local.inflight ::
          n.local.inflight[k].part in n.pc.acquired ==>
            n.local.inflight[k].epoch < n.pc.acquired[n.local.inflight[k].part])
    && (n.pc.Taken? ==> forall p | p in n.pc.acquired && Owns(db, o, p) :: n.pc.acquired[p] == db.parts[p].epoch)
    && (n.pc.Given? ==> forall p | p in n.pc.parts :: !Owns(db, o, p))
    && (n.pc.Gone? ==> forall p :: !Owns(db, o, p))
  }

  ghost predicate NodeInv(db: Db, o: string, n: Node) {
    o != "" && Mirrored(db, o, n) && Pending(db, o, n) && Synced(db, o, n) && Counted(n.local, !n.lost)
  }

  ghost predicate SystemInv(s: System) {
    Inv(s.h) && forall o | o in s.nodes :: NodeInv(s.h.db, o, s.nodes[o])
  }

  /** Nothing new is current for `o`, and nothing new is leased to it. */
  ghost predicate Stays(db: Db, db': Db, o: string) {
    && db.attempts <= db'.attempts
    && (forall p | p in db.parts :: p in db'.parts && db.parts[p].epoch <= db'.parts[p].epoch)
    && (forall k | Current(db', o, k) :: Current(db, o, k) && db'.rows[k].attempt == db.rows[k].attempt)
    && (forall p | Owns(db', o, p) :: Owns(db, o, p) && db'.parts[p].epoch == db.parts[p].epoch)
  }

  lemma FadingStays(db: Db, db': Db, o: string)
    requires o != "" && Fades(db, db') && Yields(db, db')
    ensures Stays(db, db', o)
  {
  }

  lemma OthersDispatchStays(db: Db, st: Stmt, o: string)
    requires Legal(db, st) && st.Dispatch? && st.owner != o
    ensures Stays(db, Exec(db, st), o)
  {
  }

  lemma OthersAcquireStays(db: Db, st: Stmt, o: string)
    requires Legal(db, st) && st.Acquire? && st.owner != o
    ensures Stays(db, Exec(db, st), o)
  {
  }

  /** Only a dispatcher's own dispatches and acquisitions give it rows or partitions. */
  lemma StatementStays(h: History, st: Stmt, o: string)
    requires o != "" && ((st.Dispatch? || st.Acquire?) ==> st.owner != o)
    ensures Stays(h.db, SqlFencing.Next(h, st).db, o)
  {
    if Legal(h.db, st) {
      if st.Dispatch? {
        OthersDispatchStays(h.db, st, o);
      } else if st.Acquire? {
        OthersAcquireStays(h.db, st, o);
      } else {
        OnlyDispatchStamps(h.db, st);
        OnlyAcquireTakes(h.db, st);
        FadingStays(h.db, Exec(h.db, st), o);
      }
    }
  }

  lemma StayingNode(db: Db, db': Db, o: string, n: Node)
    requires NodeInv(db, o, n) && Stays(db, db', o)
    ensures NodeInv(db', o, n)
  {
    assert Mirrored(db', o, n);
    assert Pending(db', o, n);
    assert Synced(db', o, n);
  }

  lemma BookedNode(db: Db, o: string, n: Node, n': Node, k: Key)
    requires NodeInv(db, o, n) && n.pc.Booking? && k in n.pc.rows
    requires n' == n.(local := n'.local, pc := Booking(n.pc.rows - {k}))
    requires SameEpochs(n.local, n'.local) && n'.local.reconcile == n.local.reconcile && Counted(n'.local, !n.lost)
    requires n'.local.inflight == n.local.inflight[k := n.pc.rows[k]] && n'.local.orphans == n.local.orphans - {k}
    ensures NodeInv(db, o, n')
  {
    assert Mirrored(db, o, n');
    assert Pending(db, o, n');
    assert Synced(db, o, n');
  }

  lemma BookRowKeeps(db: Db, o: string, n: Node, k: Key)
    requires NodeInv(db, o, n) && n.pc.Booking? && k in n.pc.rows
    ensures NodeInv(db, o, After(db, o, n, BookRow(k)))
  {
    BookCounts(n.local, k, n.pc.rows[k], !n.lost);
    BookEffect(n.local, k, n.pc.rows[k]);
    BookedNode(db, o, n, After(db, o, n, BookRow(k)), k);
  }

  lemma SyncedFewer(db: Db, o: string, n: Node, n': Node)
    requires Synced(db, o, n) && n'.pc == n.pc && n'.lost == n.lost && SameEpochs(n.local, n'.local)
    requires forall k | k in n'.local.inflight :: k in n.local.inflight && n'.local.inflight[k] == n.local.inflight[k]
    ensures Synced(db, o, n')
  {
  }

  lemma PendingMoved(db: Db, o: string, n: Node, n': Node, st: Stamp)
    requires Pending(db, o, n) && Tracks(n.local, st) && n'.pc == n.pc && n'.written <= n.written
    requires n'.local.inflight == n.local.inflight - {st.key}
    requires n'.local.orphans == n.local.orphans || n'.local.orphans == n.local.orphans[st.key := st.attempt]
    ensures Pending(db, o, n')
  {
  }

  /** An attempt may be forgotten once it is settled, or moved to the orphans. */
  lemma UntrackedNode(db: Db, o: string, n: Node, n': Node, st: Stamp)
    requires NodeInv(db, o, n) && Tracks(n.local, st)
    requires n' == n.(local := n'.local, written := n'.written) && n'.written <= n.written
    requires SameEpochs(n.local, n'.local) && n'.local.reconcile == n.local.reconcile && Counted(n'.local, !n.lost)
    requires n'.local.inflight == n.local.inflight - {st.key}
    requires n'.local.orphans == if Settled(db, o, st) then n'.local.orphans else n.local.orphans[st.key := st.attempt]
    requires n'.local.orphans == n.local.orphans || n'.local.orphans == n.local.orphans[st.key := st.attempt]
    ensures NodeInv(db, o, n')
  {
    SyncedFewer(db, o, n, n');
    PendingMoved(db, o, n, n', st);
    assert Mirrored(db, o, n') by {
      forall k | Current(db, o, k) ensures Covers(n', Stamp(k, db.rows[k].attempt)) {
        assert Covers(n, Stamp(k, db.rows[k].attempt));
      }
    }
  }

  lemma DoneRowKeeps(db: Db, o: string, n: Node, st: Stamp)
    requires NodeInv(db, o, n) && st in n.written
    ensures NodeInv(db, o, After(db, o, n, DoneRow(st)))
  {
    if Tracks(n.local, st) {
      UntrackCounts(n.local, st.key, !n.lost);
      UntrackEffect(n.local, st.key);
      UntrackedNode(db, o, n, After(db, o, n, DoneRow(st)), st);
    }
  }

  lemma AbandonRowKeeps(db: Db, o: string, n: Node, st: Stamp)
    requires NodeInv(db, o, n)
    ensures NodeInv(db, o, After(db, o, n, AbandonRow(st)))
  {
    if Tracks(n.local, st) {
      AbandonCounts(n.local, st, !n.lost);
      UntrackEffect(n.local.(orphans := n.local.orphans[st.key := st.attempt]), st.key);
      UntrackedNode(db, o, n, After(db, o, n, AbandonRow(st)), st);
    }
  }

  lemma UndispatchSettles(db: Db, o: string, stamps: set<Stamp>, notBefore: int, st: Stamp)
    requires st in stamps && st.attempt <= db.attempts
    ensures Settled(Exec(db, Undispatch(o, stamps, notBefore)), o, st)
  {
  }

  lemma RetrySettles(db: Db, o: string, st: Stamp, notBefore: int, envelope: string)
    requires st.attempt <= db.attempts
    ensures Settled(Exec(db, Retry(o, st, notBefore, envelope)), o, st)
  {
  }

  lemma NewestIsKept(h: History, o: string, cs: seq<Completion>, i: nat)
    requires Stamped(h) && i < |cs| && forall c | c in cs :: WasIssued(h.log, c.key, c.attempt)
    requires Ackable(h.db, o, cs[i])
    ensures cs[i].key in Acked(h.db, o, Deduped(cs))
  {
    var k := cs[i].key;
    var b := BestOf(cs)[k];
    assert IsBest(cs, |cs|, k, b) && cs[b] in cs;
    assert cs[b].attempt <= h.db.rows[k].attempt;
  }

  lemma AckDeletes(db: Db, o: string, u: map<Key, Completion>, st: Stamp)
    requires Legal(db, Ack(o, u)) && st.attempt <= db.attempts
    requires Current(db, o, st.key) && db.rows[st.key].attempt == st.attempt ==> st.key in Acked(db, o, u)
    ensures Settled(Exec(db, Ack(o, u)), o, st)
  {
  }

  /** A batch settles every completion given to it, also those its dedupe left out of the statement. */
  lemma AckSettles(h: History, o: string, cs: seq<Completion>, i: nat)
    requires Inv(h) && o != "" && i < |cs| && forall c | c in cs :: WasIssued(h.log, c.key, c.attempt)
    ensures Settled(Exec(h.db, Ack(o, Deduped(cs))), o, Stamp(cs[i].key, cs[i].attempt))
  {
    assert WasIssued(h.log, cs[i].key, cs[i].attempt);
    if Ackable(h.db, o, cs[i]) {
      NewestIsKept(h, o, cs, i);
    }
    AckDeletes(h.db, o, Deduped(cs), Stamp(cs[i].key, cs[i].attempt));
  }

  /** Stamps join `written` only once they are settled. */
  lemma WrittenNode(db: Db, o: string, n: Node, sts: set<Stamp>)
    requires NodeInv(db, o, n) && forall st | st in sts :: Settled(db, o, st)
    ensures NodeInv(db, o, n.(written := n.written + sts))
  {
    var n' := n.(written := n.written + sts);
    assert Mirrored(db, o, n') && Pending(db, o, n') && Synced(db, o, n');
  }

  lemma OrphanActsKeep(db: Db, o: string, n: Node)
    requires NodeInv(db, o, n)
    ensures n.pc.Idle? ==> NodeInv(db, o, n.(pc := Orphans(OrphanStamps(n.local))))
    ensures n.pc.Orphans? && (forall st | st in n.pc.stamps :: Settled(db, o, st)) ==>
      NodeInv(db, o, n.(pc := OrphansSent(n.pc.stamps)))
    ensures n.pc.Orphans? || n.pc.Leftover? ==> NodeInv(db, o, n.(pc := Idle))
  {
    if n.pc.Idle? {
      var n' := n.(pc := Orphans(OrphanStamps(n.local)));
      assert Mirrored(db, o, n') && Pending(db, o, n') && Synced(db, o, n');
    }
    if n.pc.Orphans? {
      var n' := n.(pc := OrphansSent(n.pc.stamps));
      assert Mirrored(db, o, n') && Synced(db, o, n');
    }
    if n.pc.Orphans? || n.pc.Leftover? {
      var n' := n.(pc := Idle);
      assert Mirrored(db, o, n') && Pending(db, o, n') && Synced(db, o, n');
    }
  }

  lemma ForgetOrphansKeeps(db: Db, o: string, n: Node)
    requires NodeInv(db, o, n) && n.pc.OrphansSent?
    ensures NodeInv(db, o, After(db, o, n, ForgetOrphans))
  {
    var n' := After(db, o, n, ForgetOrphans);
    LeasesCount(n.local, n'.local, !n.lost);
    assert Mirrored(db, o, n') && Pending(db, o, n') && Synced(db, o, n');
  }

  lemma QueryKeeps(db: Db, o: string, n: Node)
    requires NodeInv(db, o, n) && n.pc.Idle? && n.local.reconcile
    ensures NodeInv(db, o, After(db, o, n, Query))
  {
    var n' := After(db, o, n, Query);
    assert Mirrored(db, o, n') && Pending(db, o, n') && Synced(db, o, n');
  }

  lemma DiffKeeps(db: Db, o: string, n: Node)
    requires NodeInv(db, o, n) && n.pc.Queried?
    ensures NodeInv(db, o, After(db, o, n, Diff))
  {
    var n' := After(db, o, n, Diff);
    assert Mirrored(db, o, n') && Pending(db, o, n') && Synced(db, o, n');
  }

  /** Once the leftover stamps are undispatched, what is still current is booked or orphaned. */
  lemma SendLeftoverKeeps(db: Db, o: string, n: Node, notBefore: int)
    requires NodeInv(db, o, n) && n.pc.Leftover?
    requires Stays(db, Exec(db, Undispatch(o, n.pc.stamps, notBefore)), o)
    ensures NodeInv(Exec(db, Undispatch(o, n.pc.stamps, notBefore)), o, n.(pc := LeftoverSent))
  {
    var db' := Exec(db, Undispatch(o, n.pc.stamps, notBefore));
    var n' := n.(pc := LeftoverSent);
    StayingNode(db, db', o, n);
    forall k | Current(db', o, k) ensures Covers(n', Stamp(k, db'.rows[k].attempt)) {
      assert Covers(n, Stamp(k, db.rows[k].attempt));
    }
    assert Pending(db', o, n') && Synced(db', o, n');
  }

  lemma ClearKeeps(db: Db, o: string, n: Node)
    requires NodeInv(db, o, n) && n.pc.LeftoverSent?
    ensures NodeInv(db, o, After(db, o, n, Clear))
  {
    var n' := After(db, o, n, Clear);
    LeasesCount(n.local, n'.local, !n.lost);
    assert Mirrored(db, o, n') && Pending(db, o, n') && Synced(db, o, n');
  }

  lemma BeatKeeps(db: Db, o: string, n: Node)
    requires NodeInv(db, o, n) && n.pc.Idle?
    ensures NodeInv(db, o, n.(pc := Beaten(Holds(db, o))))
  {
    var n' := n.(pc := Beaten(Holds(db, o)));
    assert Mirrored(db, o, n') && Pending(db, o, n') && Synced(db, o, n');
  }

  /** Leases may be replaced as long as the new ones match what is owned. */
  lemma ReleasedNode(db: Db, o: string, n: Node, n': Node)
    requires NodeInv(db, o, n) && n' == n.(local := n.local.(leases := n'.local.leases), pc := Idle)
    requires n.pc.Beaten? || n.pc.Taken? || n.pc.Flagged? || n.pc.Given? || n.pc.Gone?
    requires !n.lost ==> forall p | Owns(db, o, p) :: Leases(n'.local, p, db.parts[p].epoch)
    requires Counted(n'.local, !n.lost)
    ensures NodeInv(db, o, n')
  {
    assert Mirrored(db, o, n') && Pending(db, o, n') && Synced(db, o, n');
  }

  lemma SyncLeasesKeeps(db: Db, o: string, n: Node, now: int)
    requires NodeInv(db, o, n) && n.pc.Beaten?
    ensures NodeInv(db, o, After(db, o, n, SyncLeases(now)))
  {
    SyncCounts(n.local, n.pc.held, now, !n.lost);
    ReleasedNode(db, o, n, After(db, o, n, SyncLeases(now)));
  }

  lemma AdoptLeasesKeeps(db: Db, o: string, n: Node, now: int)
    requires NodeInv(db, o, n) && n.pc.Taken?
    ensures NodeInv(db, o, After(db, o, n, AdoptLeases(now)))
  {
    AdoptCounts(n.local, n.pc.acquired, now, !n.lost);
    ReleasedNode(db, o, n, After(db, o, n, AdoptLeases(now)));
  }

  lemma MarkLeasesKeeps(db: Db, o: string, n: Node, now: int)
    requires NodeInv(db, o, n) && n.pc.Flagged?
    ensures NodeInv(db, o, After(db, o, n, MarkLeases(now)))
  {
    var n' := After(db, o, n, MarkLeases(now));
    LeasesCount(n.local, n'.local, !n.lost);
    ReleasedNode(db, o, n, n');
  }

  lemma ForgetLeasesKeeps(db: Db, o: string, n: Node)
    requires NodeInv(db, o, n) && (n.pc.Given? || n.pc.Gone?)
    ensures n.pc.Given? ==> NodeInv(db, o, After(db, o, n, ForgetLeases))
    ensures n.pc.Gone? ==> NodeInv(db, o, After(db, o, n, ForgetAll))
  {
    var n' := if n.pc.Given? then After(db, o, n, ForgetLeases) else After(db, o, n, ForgetAll);
    LeasesCount(n.local, n'.local, !n.lost);
    ReleasedNode(db, o, n, n');
  }

  lemma LeaseActsKeep(db: Db, o: string, n: Node, pc: Pc)
    requires NodeInv(db, o, n) && n.pc.Idle?
    requires pc.Flagged? || (pc.Given? && forall p | p in pc.parts :: !Owns(db, o, p))
        || (pc.Gone? && forall p :: !Owns(db, o, p))
    ensures NodeInv(db, o, n.(pc := pc))
  {
    var n' := n.(pc := pc);
    assert Mirrored(db, o, n') && Pending(db, o, n') && Synced(db, o, n');
  }

  /** The dispatcher's own dispatch: the drawn rows are newly current, all else stays. */
  ghost predicate Draws(db: Db, db': Db, o: string, draws: map<Key, nat>) {
    && db.attempts <= db'.attempts
    && db'.parts == db.parts
    && (forall k | k in draws :: k in db'.rows && db'.rows[k].attempt == draws[k] <= db'.attempts)
    && (forall k | k in draws :: db'.rows[k].part in db.parts && db'.rows[k].epoch == db.parts[db'.rows[k].part].epoch)
    && (forall k | Current(db', o, k) && k !in draws :: Current(db, o, k) && db'.rows[k].attempt == db.rows[k].attempt)
  }

  lemma DispatchDraws(db: Db, o: string, now: int, draws: map<Key, nat>, last: nat)
    requires Legal(db, Dispatch(o, now, draws, last))
    ensures Draws(db, Exec(db, Dispatch(o, now, draws, last)), o, draws)
    ensures forall st: Stamp | st.attempt <= db.attempts && Settled(db, o, st) ::
      Settled(Exec(db, Dispatch(o, now, draws, last)), o, st)
  {
  }

  /** A dispatch whose reply arrived: the new stamps are in the reply. */
  lemma PollKeeps(db: Db, db': Db, o: string, n: Node, draws: map<Key, nat>)
    requires NodeInv(db, o, n) && n.pc.Idle? && Draws(db, db', o, draws)
    requires forall st: Stamp | st.attempt <= db.attempts && Settled(db, o, st) :: Settled(db', o, st)
    ensures NodeInv(db', o, n.(pc := Booking(Replied(db', draws))))
  {
    var n' := n.(pc := Booking(Replied(db', draws)));
    assert Mirrored(db', o, n') by {
      forall k | Current(db', o, k) ensures Covers(n', Stamp(k, db'.rows[k].attempt)) {
      }
    }
    assert Pending(db', o, n');
    assert Synced(db', o, n');
  }

  /** A dispatch whose reply was lost: the dispatcher will reconcile. */
  lemma PollLostKeeps(db: Db, db': Db, o: string, n: Node, draws: map<Key, nat>)
    requires NodeInv(db, o, n) && n.pc.Idle? && Draws(db, db', o, draws)
    requires forall st: Stamp | st.attempt <= db.attempts && Settled(db, o, st) :: Settled(db', o, st)
    ensures NodeInv(db', o, n.(local := n.local.(reconcile := true)))
  {
    var n' := n.(local := n.local.(reconcile := true));
    LeasesCount(n.local, n'.local, !n.lost);
    assert Mirrored(db', o, n');
    assert Pending(db', o, n');
    assert Synced(db', o, n');
  }

  lemma PollFailedKeeps(db: Db, o: string, n: Node)
    requires NodeInv(db, o, n) && n.pc.Idle?
    ensures NodeInv(db, o, n.(local := n.local.(reconcile := true)))
  {
    var n' := n.(local := n.local.(reconcile := true));
    LeasesCount(n.local, n'.local, !n.lost);
    assert Mirrored(db, o, n') && Pending(db, o, n') && Synced(db, o, n');
  }

  /** The dispatcher's own acquisition: new epochs for what it picked, and no row is newly current. */
  ghost predicate Takes(db: Db, db': Db, o: string, picked: set<nat>) {
    && db'.attempts == db.attempts
    && (forall p | p in db.parts :: p in db'.parts && db.parts[p].epoch <= db'.parts[p].epoch)
    && (forall p | p in picked :: p in db.parts && db'.parts[p].epoch == db.parts[p].epoch + 1)
    && (forall p | Owns(db', o, p) && p !in picked :: Owns(db, o, p) && db'.parts[p].epoch == db.parts[p].epoch)
    && (forall k | Current(db', o, k) :: Current(db, o, k) && db'.rows[k].attempt == db.rows[k].attempt)
  }

  lemma AcquireTakes(h: History, o: string, now: int, expires: int, picked: set<nat>)
    requires Stamped(h) && Legal(h.db, Acquire(o, now, expires, picked))
    ensures Takes(h.db, Exec(h.db, Acquire(o, now, expires, picked)), o, picked)
  {
  }

  lemma TakeKeeps(db: Db, db': Db, o: string, n: Node, picked: set<nat>)
    requires NodeInv(db, o, n) && n.pc.Idle? && Takes(db, db', o, picked)
    ensures NodeInv(db', o, n.(pc := Taken(EpochsOf(db', picked))))
  {
    var n' := n.(pc := Taken(EpochsOf(db', picked)));
    assert Mirrored(db', o, n');
    assert Pending(db', o, n');
    assert Synced(db', o, n');
  }

  lemma TakeLostKeeps(db: Db, db': Db, o: string, n: Node, picked: set<nat>)
    requires NodeInv(db, o, n) && n.pc.Idle? && Takes(db, db', o, picked)
    ensures NodeInv(db', o, n.(lost := true))
  {
    var n' := n.(lost := true);
    forall p | p in n.local.leases ensures CountedAt(n.local, p, false) {
      assert CountedAt(n.local, p, !n.lost);
    }
    assert Mirrored(db', o, n');
    assert Pending(db', o, n');
    assert Synced(db', o, n');
  }

  lemma OwnStatementStays(h: History, o: string, n: Node, act: Act)
    requires o != "" && !act.Poll? && !act.Take?
    ensures Stays(h.db, TablesAfter(h, o, n, act).db, o)
  {
    if Sends(o, n, act).Some? {
      StatementStays(h, Sends(o, n, act).value, o);
    }
  }

  lemma PollActKeeps(h: History, o: string, n: Node, act: Act)
    requires Inv(h) && NodeInv(h.db, o, n) && Enabled(h, o, n, act) && act.Poll?
    ensures var db' := TablesAfter(h, o, n, act).db; NodeInv(db', o, After(db', o, n, act))
  {
    var db' := TablesAfter(h, o, n, act).db;
    if act.fault == Failed {
      PollFailedKeeps(h.db, o, n);
    } else {
      DispatchDraws(h.db, o, act.now, act.draws, act.last);
      if act.fault == Ok {
        PollKeeps(h.db, db', o, n, act.draws);
      } else {
        PollLostKeeps(h.db, db', o, n, act.draws);
      }
    }
  }

  lemma TakeActKeeps(h: History, o: string, n: Node, act: Act)
    requires Inv(h) && NodeInv(h.db, o, n) && Enabled(h, o, n, act) && act.Take?
    ensures var db' := TablesAfter(h, o, n, act).db; NodeInv(db', o, After(db', o, n, act))
  {
    var db' := TablesAfter(h, o, n, act).db;
    if act.fault != Failed {
      AcquireTakes(h, o, act.now, act.expires, act.picked);
      if act.fault == Ok {
        TakeKeeps(h.db, db', o, n, act.picked);
      } else {
        TakeLostKeeps(h.db, db', o, n, act.picked);
      }
    }
  }

  lemma AckCallSettles(h: History, o: string, n: Node, act: Act, st: Stamp)
    requires Inv(h) && o != "" && Enabled(h, o, n, act) && act.AckCall? && act.fault == Ok && st in Stamps(act.cs)
    ensures Settled(TablesAfter(h, o, n, act).db, o, st)
  {
    var i :| 0 <= i < |act.cs| && st == Stamp(act.cs[i].key, act.cs[i].attempt);
    AckSettles(h, o, act.cs, i);
  }

  lemma CallSettles(h: History, o: string, n: Node, act: Act, st: Stamp)
    requires Inv(h) && Enabled(h, o, n, act) && (act.RetryCall? || act.ReturnCall?) && act.fault == Ok
    requires if act.RetryCall? then st == act.stamp else st in act.stamps
    ensures Settled(TablesAfter(h, o, n, act).db, o, st)
  {
    assert WasIssued(h.log, st.key, st.attempt);
    if act.RetryCall? {
      RetrySettles(h.db, o, st, act.notBefore, act.envelope);
    } else {
      UndispatchSettles(h.db, o, act.stamps, act.notBefore, st);
    }
  }

  predicate IsCall(act: Act) { act.AckCall? || act.RetryCall? || act.ReturnCall? }

  function Handed(act: Act): set<Stamp>
    requires IsCall(act)
  {
    match act
    case AckCall(cs, _) => Stamps(cs)
    case RetryCall(st, _, _, _) => {st}
    case ReturnCall(sts, _, _) => sts
  }

  lemma CallEffect(db: Db, db': Db, o: string, n: Node, act: Act)
    requires NodeInv(db, o, n) && Stays(db, db', o) && IsCall(act)
    requires act.fault == Ok ==> forall st | st in Handed(act) :: Settled(db', o, st)
    ensures NodeInv(db', o, After(db', o, n, act))
  {
    StayingNode(db, db', o, n);
    if act.fault == Ok {
      WrittenNode(db', o, n, Handed(act));
    }
  }

  lemma CallKeeps(h: History, o: string, n: Node, act: Act)
    requires Inv(h) && NodeInv(h.db, o, n) && Enabled(h, o, n, act) && IsCall(act)
    ensures var db' := TablesAfter(h, o, n, act).db; NodeInv(db', o, After(db', o, n, act))
  {
    var db' := TablesAfter(h, o, n, act).db;
    OwnStatementStays(h, o, n, act);
    if act.fault == Ok {
      forall st | st in Handed(act) ensures Settled(db', o, st) {
        if act.AckCall? {
          AckCallSettles(h, o, n, act, st);
        } else {
          CallSettles(h, o, n, act, st);
        }
      }
    }
    CallEffect(h.db, db', o, n, act);
  }

  lemma OrphanActKeeps(h: History, o: string, n: Node, act: Act)
    requires Inv(h) && NodeInv(h.db, o, n) && Enabled(h, o, n, act)
    requires act.TakeOrphans? || act.SendOrphans? || act.ForgetOrphans?
    ensures var db' := TablesAfter(h, o, n, act).db; NodeInv(db', o, After(db', o, n, act))
  {
    var db' := TablesAfter(h, o, n, act).db;
    OwnStatementStays(h, o, n, act);
    StayingNode(h.db, db', o, n);
    OrphanActsKeep(db', o, n);
    if act.ForgetOrphans? {
      ForgetOrphansKeeps(db', o, n);
    } else if act.SendOrphans? && act.fault == Ok {
      forall st | st in n.pc.stamps ensures Settled(db', o, st) {
        UndispatchSettles(h.db, o, n.pc.stamps, 0, st);
      }
    }
  }

  lemma ReconcileActKeeps(h: History, o: string, n: Node, act: Act)
    requires Inv(h) && NodeInv(h.db, o, n) && Enabled(h, o, n, act)
    requires act.Query? || act.Diff? || act.SendLeftover? || act.Clear?
    ensures var db' := TablesAfter(h, o, n, act).db; NodeInv(db', o, After(db', o, n, act))
  {
    var db' := TablesAfter(h, o, n, act).db;
    OwnStatementStays(h, o, n, act);
    match act
    case Query => QueryKeeps(h.db, o, n);
    case Diff => DiffKeeps(h.db, o, n);
    case Clear => ClearKeeps(h.db, o, n);
    case SendLeftover(fault) =>
      if fault == Ok {
        SendLeftoverKeeps(h.db, o, n, 0);
      } else {
        StayingNode(h.db, db', o, n);
        OrphanActsKeep(db', o, n);
      }
  }

  lemma GivenUp(db: Db, o: string, act: Act)
    requires act.Give? || act.Quit?
    requires o != ""
    ensures act.Give? ==> forall p | p in act.parts :: !Owns(Exec(db, Release(o, act.parts)), o, p)
    ensures act.Quit? ==> forall p :: !Owns(Exec(db, Leave(o)), o, p)
  {
  }

  lemma LeaseActKeeps(h: History, o: string, n: Node, act: Act)
    requires Inv(h) && NodeInv(h.db, o, n) && Enabled(h, o, n, act)
    requires act.Flag? || act.Give? || act.Quit?
    ensures var db' := TablesAfter(h, o, n, act).db; NodeInv(db', o, After(db', o, n, act))
  {
    var db' := TablesAfter(h, o, n, act).db;
    assert Stays(h.db, db', o) by {
      OwnStatementStays(h, o, n, act);
    }
    StayingNode(h.db, db', o, n);
    if act.fault == Ok {
      if act.Flag? {
        LeaseActsKeep(db', o, n, Flagged(act.parts, act.draining));
      } else {
        GivenUp(h.db, o, act);
        LeaseActsKeep(db', o, n, if act.Give? then Given(act.parts) else Gone);
      }
    }
  }

  lemma BeatEffect(db: Db, db': Db, o: string, n: Node, act: Act)
    requires NodeInv(db, o, n) && Stays(db, db', o) && n.pc.Idle? && (act.Beat? || act.Reset?)
    ensures NodeInv(db', o, After(db', o, n, act))
  {
    StayingNode(db, db', o, n);
    BeatKeeps(db', o, n);
  }

  lemma BeatActKeeps(h: History, o: string, n: Node, act: Act)
    requires Inv(h) && NodeInv(h.db, o, n) && Enabled(h, o, n, act) && (act.Beat? || act.Reset?)
    ensures var db' := TablesAfter(h, o, n, act).db; NodeInv(db', o, After(db', o, n, act))
  {
    OwnStatementStays(h, o, n, act);
    BeatEffect(h.db, TablesAfter(h, o, n, act).db, o, n, act);
  }

  lemma BookActKeeps(h: History, o: string, n: Node, act: Act)
    requires NodeInv(h.db, o, n) && Enabled(h, o, n, act) && Sends(o, n, act).None?
    requires !act.TakeOrphans? && !act.ForgetOrphans? && !act.Query? && !act.Diff? && !act.Clear? && !act.SendOrphans?
        && !act.SendLeftover?
    ensures NodeInv(h.db, o, After(h.db, o, n, act))
  {
    match act
    case BookRow(k) => BookRowKeeps(h.db, o, n, k);
    case BookDone =>
      var n' := n.(pc := Idle);
      assert Mirrored(h.db, o, n') && Pending(h.db, o, n') && Synced(h.db, o, n');
    case DoneRow(st) => DoneRowKeeps(h.db, o, n, st);
    case AbandonRow(st) => AbandonRowKeeps(h.db, o, n, st);
    case SyncLeases(now) => SyncLeasesKeeps(h.db, o, n, now);
    case AdoptLeases(now) => AdoptLeasesKeeps(h.db, o, n, now);
    case MarkLeases(now) => MarkLeasesKeeps(h.db, o, n, now);
    case ForgetLeases => ForgetLeasesKeeps(h.db, o, n);
    case ForgetAll => ForgetLeasesKeeps(h.db, o, n);
  }

  lemma ActKeeps(h: History, o: string, n: Node, act: Act)
    requires Inv(h) && NodeInv(h.db, o, n) && Enabled(h, o, n, act)
    ensures var db' := TablesAfter(h, o, n, act).db; NodeInv(db', o, After(db', o, n, act))
  {
    if act.Poll? {
      PollActKeeps(h, o, n, act);
    } else if act.Take? {
      TakeActKeeps(h, o, n, act);
    } else if IsCall(act) {
      CallKeeps(h, o, n, act);
    } else if act.TakeOrphans? || act.SendOrphans? || act.ForgetOrphans? {
      OrphanActKeeps(h, o, n, act);
    } else if act.Query? || act.Diff? || act.SendLeftover? || act.Clear? {
      ReconcileActKeeps(h, o, n, act);
    } else if act.Flag? || act.Give? || act.Quit? {
      LeaseActKeeps(h, o, n, act);
    } else if act.Beat? || act.Reset? {
      BeatActKeeps(h, o, n, act);
    } else {
      BookActKeeps(h, o, n, act);
    }
  }

  lemma OthersKeep(h: History, o: string, n: Node, act: Act, o': string, n': Node)
    requires NodeInv(h.db, o', n') && o' != o
    ensures NodeInv(TablesAfter(h, o, n, act).db, o', n')
  {
    if Sends(o, n, act).Some? {
      StatementStays(h, Sends(o, n, act).value, o');
    }
    StayingNode(h.db, TablesAfter(h, o, n, act).db, o', n');
  }

  lemma HistoryKeeps(h: History, o: string, n: Node, act: Act)
    requires Inv(h)
    ensures Inv(TablesAfter(h, o, n, act))
  {
    if Sends(o, n, act).Some? {
      NextKeeps(h, Sends(o, n, act).value);
    }
  }

  lemma OpenKeeps(h: History, o: string)
    requires Inv(h) && o != "" && forall g | g in h.log.grants :: g.owner != o
    ensures NodeInv(h.db, o, NewNode)
  {
    forall p | p in h.db.parts ensures h.db.parts[p].owner != o {
      assert h.db.parts[p].owner != "" ==> Grant(p, h.db.parts[p].epoch, h.db.parts[p].owner) in h.log.grants;
    }
  }

  lemma Assembled(h: History, nodes: map<string, Node>, o: string, n: Node)
    requires Inv(h) && NodeInv(h.db, o, n) && forall o' | o' in nodes && o' != o :: NodeInv(h.db, o', nodes[o'])
    ensures SystemInv(System(h, nodes[o := n]))
  {
  }

  lemma DoKeeps(s: System, o: string, act: Act)
    requires SystemInv(s) && o in s.nodes && Enabled(s.h, o, s.nodes[o], act)
    ensures var h := TablesAfter(s.h, o, s.nodes[o], act);
      SystemInv(System(h, s.nodes[o := After(h.db, o, s.nodes[o], act)]))
  {
    var h := TablesAfter(s.h, o, s.nodes[o], act);
    HistoryKeeps(s.h, o, s.nodes[o], act);
    ActKeeps(s.h, o, s.nodes[o], act);
    forall o' | o' in s.nodes && o' != o ensures NodeInv(h.db, o', s.nodes[o']) {
      OthersKeep(s.h, o, s.nodes[o], act, o', s.nodes[o']);
    }
    Assembled(h, s.nodes, o, After(h.db, o, s.nodes[o], act));
  }

  lemma OutsideKeeps(s: System, st: Stmt)
    requires SystemInv(s) && FromOutside(st)
    ensures SystemInv(Next(s, Outside(st)))
  {
    NextKeeps(s.h, st);
    forall o | o in s.nodes ensures NodeInv(SqlFencing.Next(s.h, st).db, o, s.nodes[o]) {
      StatementStays(s.h, st, o);
      StayingNode(s.h.db, SqlFencing.Next(s.h, st).db, o, s.nodes[o]);
    }
  }

  lemma StepKeeps(s: System, step: Step)
    requires SystemInv(s)
    ensures SystemInv(Next(s, step))
  {
    match step
    case Outside(st) =>
      if FromOutside(st) {
        OutsideKeeps(s, st);
      }
    case Open(o) =>
      if o != "" && forall g | g in s.h.log.grants :: g.owner != o {
        OpenKeeps(s.h, o);
      }
    case Crash(o) =>
    case Do(o, act) =>
      if o in s.nodes && Enabled(s.h, o, s.nodes[o], act) {
        DoKeeps(s, o, act);
      }
  }

  lemma {:induction false} RunKeepsSystem(s: System, steps: seq<Step>)
    requires SystemInv(s)
    ensures SystemInv(Run(s, steps))
    decreases |steps|
  {
    if steps != [] {
      StepKeeps(s, steps[0]);
      RunKeepsSystem(Next(s, steps[0]), steps[1..]);
    }
  }

  /**
   In every reachable state a row stamped with the current epoch of a partition a live
   dispatcher owns is tracked with that attempt, kept as an orphan with that attempt, in
   the reply the dispatcher is booking, or covered by a reconciliation that is still due.
   */
  lemma NothingStranded(steps: seq<Step>, o: string, k: Key)
    requires var s := Run(Boot, steps); o in s.nodes && Current(s.h.db, o, k)
    ensures var s := Run(Boot, steps);
      var n, a := s.nodes[o], s.h.db.rows[k].attempt;
      || (k in n.local.inflight && n.local.inflight[k].attempt == a)
      || (k in n.local.orphans && n.local.orphans[k] == a)
      || (n.pc.Booking? && k in n.pc.rows && n.pc.rows[k].attempt == a)
      || n.local.reconcile
  {
    RunKeepsSystem(Boot, steps);
    var s := Run(Boot, steps);
    assert Covers(s.nodes[o], Stamp(k, s.h.db.rows[k].attempt));
  }

  /**
   A lease's in-flight count never exceeds the requests tracked under that partition and
   epoch, and equals it as long as no acquisition lost its reply.
   */
  lemma CountsTrackedRequests(steps: seq<Step>, o: string, p: nat)
    requires var s := Run(Boot, steps); o in s.nodes && p in s.nodes[o].local.leases
    ensures var n := Run(Boot, steps).nodes[o];
      var count, tracked := n.local.leases[p].inflight, |TrackedAt(n.local, p, n.local.leases[p].epoch)|;
      count <= tracked && (!n.lost ==> count == tracked)
  {
    RunKeepsSystem(Boot, steps);
    assert CountedAt(Run(Boot, steps).nodes[o].local, p, !Run(Boot, steps).nodes[o].lost);
  }

  /** Conservation over every run of dispatchers with crashes, takeovers, drains and lost replies. */
  lemma EveryRunConserves(steps: seq<Step>, k: Key)
    ensures OnceEach(Run(Boot, steps).h, k)
  {
    RunKeepsSystem(Boot, steps);
    OnceEachHolds(Run(Boot, steps).h, k);
  }

  lemma ReturnedRow(db: Db, o: string, n: Node, k: Key)
    requires Mirrored(db, o, n) && n.pc.LeftoverSent? && Current(db, o, k)
    ensures var a := db.rows[k].attempt;
      Tracks(n.local, Stamp(k, a)) || (k in n.local.orphans && n.local.orphans[k] == a)
  {
    assert Covers(n, Stamp(k, db.rows[k].attempt));
  }

  /**
   However a reconciliation interleaves with workers and other dispatchers, once its leftovers were
   returned every row of the dispatcher is tracked or an orphan, so clearing the flag strands nothing.
   */
  lemma ReconcileLeavesNothing(steps: seq<Step>, o: string, k: Key)
    requires var s := Run(Boot, steps); o in s.nodes && s.nodes[o].pc.LeftoverSent? && Current(s.h.db, o, k)
    ensures var s := Run(Boot, steps);
      var n, a := s.nodes[o], s.h.db.rows[k].attempt;
      Tracks(n.local, Stamp(k, a)) || (k in n.local.orphans && n.local.orphans[k] == a)
  {
    RunKeepsSystem(Boot, steps);
    var s := Run(Boot, steps);
    assert NodeInv(s.h.db, o, s.nodes[o]);
    ReturnedRow(s.h.db, o, s.nodes[o], k);
  }

  lemma QueryStep(s: System, o: string)
    requires o in s.nodes && s.nodes[o].pc.Idle? && s.nodes[o].local.reconcile
    ensures Next(s, Do(o, Query)) == s.(nodes := s.nodes[o := s.nodes[o].(pc := Queried(InFlight(s.h.db, o)))])
  {
  }

  lemma DiffStep(s: System, o: string)
    requires o in s.nodes && s.nodes[o].pc.Queried?
    ensures Next(s, Do(o, Diff)) ==
        s.(nodes := s.nodes[o := s.nodes[o].(pc := Leftover(Untracked(s.nodes[o].local, s.nodes[o].pc.stamps)))])
  {
  }

  lemma SendStep(s: System, o: string)
    requires o in s.nodes && s.nodes[o].pc.Leftover?
    ensures Next(s, Do(o, SendLeftover(Ok))) ==
      System(SqlFencing.Next(s.h, Undispatch(o, s.nodes[o].pc.stamps, 0)),
             s.nodes[o := s.nodes[o].(pc := LeftoverSent)])
  {
  }

  lemma ClearStep(s: System, o: string)
    requires o in s.nodes && s.nodes[o].pc.LeftoverSent?
    ensures Next(s, Do(o, Clear)) ==
        s.(nodes := s.nodes[o := s.nodes[o].(local := s.nodes[o].local.(reconcile := false), pc := Idle)])
  {
  }

  ghost function Reconcile(s: System, o: string): System {
    Next(Next(Next(Next(s, Do(o, Query)), Do(o, Diff)), Do(o, SendLeftover(Ok))), Do(o, Clear))
  }

  lemma ReconcileUndispatches(s: System, o: string)
    requires o in s.nodes && s.nodes[o].pc.Idle? && s.nodes[o].local.reconcile
    ensures var n := s.nodes[o];
      Reconcile(s, o) ==
        System(SqlFencing.Next(s.h, Undispatch(o, Untracked(n.local, InFlight(s.h.db, o)), 0)),
               s.nodes[o := n.(local := n.local.(reconcile := false), pc := Idle)])
  {
    QueryStep(s, o);
    var s1 := Next(s, Do(o, Query));
    DiffStep(s1, o);
    var s2 := Next(s1, Do(o, Diff));
    SendStep(s2, o);
    ClearStep(Next(s2, Do(o, SendLeftover(Ok))), o);
  }

  /** An undisturbed reconciliation returns to pending exactly the current rows the dispatcher does not track. */
  lemma ReconcileRecovers(s: System, o: string, k: Key)
    requires o in s.nodes && s.nodes[o].pc.Idle? && s.nodes[o].local.reconcile && Current(s.h.db, o, k)
    ensures var s' := Reconcile(s, o);
      && k in s'.h.db.rows && o in s'.nodes && !s'.nodes[o].local.reconcile
      && (s'.h.db.rows[k].epoch == 0 <==> !Tracks(s.nodes[o].local, Stamp(k, s.h.db.rows[k].attempt)))
      && (s'.h.db.rows[k].epoch != 0 ==> s'.h.db.rows[k] == s.h.db.rows[k])
  {
    ReconcileUndispatches(s, o);
  }
}
