/**
 The tables of the sql transport for one queue, and every statement that changes
 them as a function from tables to tables. A statement's free choices (which rows
 a skipped lock hides, which attempt numbers the sequence hands out) are arguments
 of the statement, and `Legal` says which choices the database can make.
 */
module SqlTables {
  const PARTITIONS: nat := 64

  datatype Key = Key(id: string, token: string)

  /** One dispatch of a request. */
  datatype Stamp = Stamp(key: Key, attempt: nat)

  /** A request is pending while `epoch` is 0. */
  datatype Row = Row(part: nat, deadline: int, createdAt: int, notBefore: int,
                     epoch: nat, attempt: nat, envelope: string)

  /** `owner` is "" while nobody leases the partition. */
  datatype Part = Part(owner: string, epoch: nat, draining: bool, expiresMs: int)

  datatype Completion = Completion(key: Key, attempt: nat, route: string, payload: string, expiresAt: int)

  datatype Db = Db(rows: map<Key, Row>, parts: map<nat, Part>, members: map<string, int>,
                   results: multiset<Completion>, attempts: nat)

  datatype Scope = Everything | Only(parts: set<nat>)

  datatype Stmt =
    | Enqueue(reqs: map<Key, Row>)
    | Dispatch(owner: string, now: int, draws: map<Key, nat>, last: nat)
    | ResetStale(owner: string, scope: Scope, locked: set<Key>)
    | Undispatch(owner: string, stamps: set<Stamp>, notBefore: int)
    | Retry(owner: string, stamp: Stamp, notBefore: int, envelope: string)
    | Ack(owner: string, input: map<Key, Completion>)
    | DropResults(gone: multiset<Completion>)
    | EnsurePartitions
    | Join(owner: string, expires: int)
    | Resign(owner: string)
    | ExpireMembers(now: int)
    | RenewLeases(owner: string, expires: int)
    | Acquire(owner: string, now: int, expires: int, picked: set<nat>)
    | SetDraining(owner: string, parts: set<nat>, draining: bool)
    | Release(owner: string, parts: set<nat>)
    | Leave(owner: string)

  const EmptyDb := Db(map[], map[], map[], multiset{}, 0)

  predicate Owns(db: Db, owner: string, p: nat) {
    p in db.parts && db.parts[p].owner == owner
  }

  /** The row carries the current epoch of a partition `owner` leases. */
  predicate Current(db: Db, owner: string, k: Key) {
    && k in db.rows
    && db.rows[k].epoch > 0
    && Owns(db, owner, db.rows[k].part)
    && db.parts[db.rows[k].part].epoch == db.rows[k].epoch
  }

  predicate Dispatchable(db: Db, owner: string, now: int, k: Key) {
    && k in db.rows
    && db.rows[k].epoch == 0
    && db.rows[k].notBefore <= now
    && Owns(db, owner, db.rows[k].part)
    && !db.parts[db.rows[k].part].draining
  }

  predicate Takeable(db: Db, now: int, p: nat) {
    p in db.parts && (db.parts[p].owner == "" || db.parts[p].expiresMs < now)
  }

  predicate InScope(scope: Scope, p: nat) {
    scope.Everything? || p in scope.parts
  }

  predicate Stale(db: Db, owner: string, scope: Scope, locked: set<Key>, k: Key) {
    && k in db.rows
    && k !in locked
    && db.rows[k].epoch > 0
    && Owns(db, owner, db.rows[k].part)
    && db.rows[k].epoch < db.parts[db.rows[k].part].epoch
    && InScope(scope, db.rows[k].part)
  }

  predicate Undispatchable(db: Db, owner: string, stamps: set<Stamp>, k: Key) {
    && k in db.rows
    && db.rows[k].epoch > 0
    && Stamp(k, db.rows[k].attempt) in stamps
    && Owns(db, owner, db.rows[k].part)
  }

  predicate Ackable(db: Db, owner: string, c: Completion) {
    Current(db, owner, c.key) && db.rows[c.key].attempt == c.attempt
  }

  /** The keys an Ack statement deletes. */
  function Acked(db: Db, owner: string, input: map<Key, Completion>): set<Key> {
    set k | k in input && input[k].key == k && Ackable(db, owner, input[k])
  }

  function Picked(input: map<Key, Completion>, done: set<Key>): set<Completion>
    requires done <= input.Keys
  {
    set k | k in done :: input[k]
  }

  /** The result rows an Ack statement inserts for the keys it deleted. */
  function Rows(input: map<Key, Completion>, done: set<Key>): multiset<Completion>
    requires done <= input.Keys
  {
    multiset(Picked(input, done))
  }

  function Max(a: int, b: int): int { if a < b then b else a }

  predicate Legal(db: Db, st: Stmt) {
    match st
    case Enqueue(reqs) =>
      reqs.Keys !! db.rows.Keys && forall k | k in reqs :: reqs[k].epoch == 0 && reqs[k].attempt == 0
    case Dispatch(owner, now, draws, last) =>
      && owner != ""
      && db.attempts <= last
      && (forall k | k in draws :: Dispatchable(db, owner, now, k) && db.attempts < draws[k] <= last)
      && (forall k, j | k in draws && j in draws && k != j :: draws[k] != draws[j])
    case Ack(owner, input) => owner != "" && forall k | k in input :: input[k].key == k
    case DropResults(gone) => gone <= db.results
    case Acquire(owner, now, _, picked) => owner != "" && forall p | p in picked :: Takeable(db, now, p)
    case _ => true
  }

  /** The tables after a legal statement. */
  function Exec(db: Db, st: Stmt): Db
    requires Legal(db, st)
  {
    match st
    case Enqueue(reqs) => db.(rows := db.rows + reqs)
    case Dispatch(owner, now, draws, last) =>
      db.(rows := map k | k in db.rows ::
        if k in draws then db.rows[k].(epoch := db.parts[db.rows[k].part].epoch, attempt := draws[k])
        else db.rows[k],
        attempts := last)
    case ResetStale(owner, scope, locked) =>
      db.(rows := map k | k in db.rows ::
        if Stale(db, owner, scope, locked, k) then db.rows[k].(epoch := 0) else db.rows[k])
    case Undispatch(owner, stamps, notBefore) =>
      db.(rows := map k | k in db.rows ::
        if Undispatchable(db, owner, stamps, k)
        then db.rows[k].(epoch := 0, notBefore := Max(db.rows[k].notBefore, notBefore))
        else db.rows[k])
    case Retry(owner, stamp, notBefore, envelope) =>
      if Undispatchable(db, owner, {stamp}, stamp.key)
      then
        var r := db.rows[stamp.key];
        db.(rows := db.rows[stamp.key := r.(epoch := 0, notBefore := notBefore, envelope := envelope)])
      else db
    case Ack(owner, input) =>
      var done := Acked(db, owner, input);
      db.(rows := db.rows - done, results := db.results + Rows(input, done))
    case DropResults(gone) => db.(results := db.results - gone)
    case EnsurePartitions =>
      db.(parts := (map p: nat | p < PARTITIONS :: Unleased(p)) + db.parts)
    case Join(owner, expires) => db.(members := db.members[owner := expires])
    case Resign(owner) => db.(members := db.members - {owner})
    case ExpireMembers(now) => db.(members := map o | o in db.members && db.members[o] >= now :: db.members[o])
    case RenewLeases(owner, expires) =>
      db.(parts := map p | p in db.parts ::
        if db.parts[p].owner == owner then db.parts[p].(expiresMs := expires) else db.parts[p])
    case Acquire(owner, now, expires, picked) =>
      db.(parts := map p | p in db.parts ::
        if p in picked then Part(owner, db.parts[p].epoch + 1, false, expires) else db.parts[p])
    case SetDraining(owner, ps, draining) =>
      db.(parts := map p | p in db.parts ::
        if p in ps && db.parts[p].owner == owner then db.parts[p].(draining := draining) else db.parts[p])
    case Release(owner, ps) =>
      db.(parts := map p | p in db.parts ::
        if p in ps && db.parts[p].owner == owner then Vacant(db.parts[p]) else db.parts[p])
    case Leave(owner) =>
      db.(parts := map p | p in db.parts ::
        if db.parts[p].owner == owner then Vacant(db.parts[p]) else db.parts[p],
        members := db.members - {owner})
  }

  function Unleased(p: nat): Part { Part("", 0, false, 0) }

  /** A released lease: the epoch survives, so the next owner's is higher. */
  function Vacant(p: Part): Part { p.(owner := "", draining := false, expiresMs := 0) }

  /** Epochs and attempts only grow, and every stamp was there before. */
  ghost predicate Fades(db: Db, db': Db) {
    && db.attempts <= db'.attempts
    && (forall p | p in db.parts :: p in db'.parts && db.parts[p].epoch <= db'.parts[p].epoch)
    && (forall k | k in db'.rows && db'.rows[k].epoch > 0 ::
          && k in db.rows
          && db'.rows[k].part == db.rows[k].part
          && db'.rows[k].epoch == db.rows[k].epoch
          && db'.rows[k].attempt == db.rows[k].attempt)
  }

  lemma OnlyDispatchStamps(db: Db, st: Stmt)
    requires Legal(db, st) && !st.Dispatch?
    ensures Fades(db, Exec(db, st))
  {
  }

  /** A partition keeps its epoch, and its owner unless it became vacant. */
  ghost predicate Yields(db: Db, db': Db) {
    && (forall p | p in db.parts :: p in db'.parts)
    && (forall p | p in db'.parts ::
          if p in db.parts
          then db'.parts[p].epoch == db.parts[p].epoch && db'.parts[p].owner in {db.parts[p].owner, ""}
          else db'.parts[p].owner == "")
  }

  lemma OnlyAcquireTakes(db: Db, st: Stmt)
    requires Legal(db, st) && !st.Acquire?
    ensures Yields(db, Exec(db, st))
  {
  }
}
