/**
 What the tables keep under every sequence of statements, whoever sends them:
 requests are conserved, epochs fence, and a result is recorded only from the
 latest dispatch of its row.
 */
module SqlFencing {
  import opened SqlTables

  /** Who drew an attempt, for which request, under which lease. */
  datatype Issue = Issue(attempt: nat, key: Key, owner: string, part: nat, epoch: nat)
  datatype Grant = Grant(part: nat, epoch: nat, owner: string)

  /**
   Everything that ever happened: submissions, requests recorded with the result rows
   written for them, result rows handed out or expired, attempts and leases.
   */
  datatype Log = Log(enqueued: multiset<Key>, recorded: multiset<Key>,
                     inserted: multiset<Completion>, dropped: multiset<Completion>,
                     issued: set<Issue>, grants: set<Grant>)

  datatype History = History(db: Db, log: Log)

  const Start := History(EmptyDb, Log(multiset{}, multiset{}, multiset{}, multiset{}, {}, {}))

  function Write(db: Db, log: Log, st: Stmt): Log
    requires Legal(db, st)
  {
    match st
    case Enqueue(reqs) => log.(enqueued := log.enqueued + multiset(reqs.Keys))
    case Dispatch(owner, _, draws, _) =>
      log.(issued := log.issued + set k | k in draws ::
        Issue(draws[k], k, owner, db.rows[k].part, db.parts[db.rows[k].part].epoch))
    case Ack(owner, input) =>
      log.(recorded := log.recorded + multiset(Acked(db, owner, input)),
           inserted := log.inserted + Rows(input, Acked(db, owner, input)))
    case DropResults(gone) => log.(dropped := log.dropped + gone)
    case Acquire(owner, _, _, picked) =>
      log.(grants := log.grants + set p | p in picked :: Grant(p, db.parts[p].epoch + 1, owner))
    case _ => log
  }

  function Next(h: History, st: Stmt): History {
    if Legal(h.db, st) then History(Exec(h.db, st), Write(h.db, h.log, st)) else h
  }

  function Run(h: History, sts: seq<Stmt>): History
    decreases |sts|
  {
    if sts == [] then h else Run(Next(h, sts[0]), sts[1..])
  }

  /** Every submission is one row still, or one recorded result; result rows leave only by being dropped. */
  ghost predicate Conserved(h: History) {
    && (forall k: Key :: h.log.enqueued[k] == (if k in h.db.rows then 1 else 0) + h.log.recorded[k])
    && h.db.results + h.log.dropped == h.log.inserted
  }

  /** How many result rows are for a request. */
  ghost function ResultRows(rows: multiset<Completion>, k: Key): nat
    decreases |rows|
  {
    if rows == multiset{} then 0
    else
      var c :| c in rows;
      ResultRows(rows - multiset{c}, k) + if c.key == k then 1 else 0
  }

  /** The result rows ever written for a request are as many as it was recorded. */
  ghost predicate Written(h: History) {
    forall k: Key :: ResultRows(h.log.inserted, k) == h.log.recorded[k]
  }

  /** A stamped row carries its own newest attempt, drawn under an epoch the partition reached. */
  ghost predicate Stamped(h: History) {
    forall k | k in h.db.rows && h.db.rows[k].epoch > 0 ::
      var r := h.db.rows[k];
      && r.part in h.db.parts
      && r.epoch <= h.db.parts[r.part].epoch
      && (exists i ::
            && i in h.log.issued && i.key == k && i.attempt == r.attempt && i.part == r.part
            && i.epoch == r.epoch)
      && (forall i | i in h.log.issued && i.key == k :: i.attempt <= r.attempt)
  }

  /** Attempts are drawn once, each under a lease its owner was granted. */
  ghost predicate Drawn(h: History) {
    && (forall i | i in h.log.issued :: i.attempt <= h.db.attempts && Grant(i.part, i.epoch, i.owner) in h.log.grants)
    && (forall i, j | i in h.log.issued && j in h.log.issued && i.attempt == j.attempt :: i == j)
  }

  /** One owner per epoch of a partition, and a lease in force was granted. */
  ghost predicate Leased(h: History) {
    && (forall g | g in h.log.grants :: g.part in h.db.parts && 0 < g.epoch <= h.db.parts[g.part].epoch)
    && (forall g, f | g in h.log.grants && f in h.log.grants && g.part == f.part && g.epoch == f.epoch :: g == f)
    && (forall p | p in h.db.parts && h.db.parts[p].owner != "" ::
          Grant(p, h.db.parts[p].epoch, h.db.parts[p].owner) in h.log.grants)
  }

  ghost predicate Inv(h: History) {
    Conserved(h) && Written(h) && Stamped(h) && Drawn(h) && Leased(h)
  }

  lemma {:induction false} RowsWithout(rows: multiset<Completion>, k: Key, c: Completion)
    requires c in rows
    ensures ResultRows(rows, k) == ResultRows(rows - multiset{c}, k) + if c.key == k then 1 else 0
    decreases |rows|
  {
    var d :| d in rows && ResultRows(rows, k) == ResultRows(rows - multiset{d}, k) + if d.key == k then 1 else 0;
    if c != d {
      RowsWithout(rows - multiset{d}, k, c);
      RowsWithout(rows - multiset{c}, k, d);
      assert rows - multiset{d} - multiset{c} == rows - multiset{c} - multiset{d};
    }
  }

  lemma {:induction false} RowsAdd(a: multiset<Completion>, b: multiset<Completion>, k: Key)
    ensures ResultRows(a + b, k) == ResultRows(a, k) + ResultRows(b, k)
    decreases |b|
  {
    if b == multiset{} {
      assert a + b == a;
    } else {
      var c :| c in b;
      RowsWithout(b, k, c);
      RowsWithout(a + b, k, c);
      assert a + b - multiset{c} == a + (b - multiset{c});
      RowsAdd(a, b - multiset{c}, k);
    }
  }

  /** An acknowledgement writes one row for each request it records, and no other. */
  lemma {:induction false} OneRowEach(input: map<Key, Completion>, done: set<Key>, k: Key)
    requires done <= input.Keys && forall j | j in input :: input[j].key == j
    ensures ResultRows(Rows(input, done), k) == if k in done then 1 else 0
    decreases done
  {
    if done == {} {
      assert Picked(input, done) == {};
    } else {
      var d :| d in done;
      var rest := done - {d};
      OneRowEach(input, rest, k);
      assert Picked(input, done) == Picked(input, rest) + {input[d]};
      assert input[d] !in Picked(input, rest);
      RowsWithout(Rows(input, done), k, input[d]);
      assert Rows(input, done) - multiset{input[d]} == Rows(input, rest);
    }
  }

  lemma NextWrites(h: History, st: Stmt)
    requires Written(h)
    ensures Written(Next(h, st))
  {
    if Legal(h.db, st) && st.Ack? {
      var done := Acked(h.db, st.owner, st.input);
      forall k: Key ensures ResultRows(Next(h, st).log.inserted, k) == Next(h, st).log.recorded[k] {
        OneRowEach(st.input, done, k);
        RowsAdd(h.log.inserted, Rows(st.input, done), k);
      }
    }
  }

  lemma NextConserves(h: History, st: Stmt)
    requires Conserved(h)
    ensures Conserved(Next(h, st))
  {
  }

  lemma AcquireLeases(h: History, st: Stmt)
    requires Leased(h) && Legal(h.db, st) && st.Acquire?
    ensures Leased(Next(h, st))
  {
    var h' := Next(h, st);
    forall g | g in h'.log.grants
      ensures g.part in h'.db.parts && 0 < g.epoch <= h'.db.parts[g.part].epoch
      ensures g !in h.log.grants ==>
        && g.part in st.picked && g.epoch == h.db.parts[g.part].epoch + 1
        && g.owner == st.owner
    {
    }
  }

  lemma YieldingLeases(h: History, h': History)
    requires Leased(h) && Yields(h.db, h'.db) && h'.log.grants == h.log.grants
    ensures Leased(h')
  {
  }

  lemma NextLeases(h: History, st: Stmt)
    requires Leased(h)
    ensures Leased(Next(h, st))
  {
    if Legal(h.db, st) {
      if st.Acquire? {
        AcquireLeases(h, st);
      } else {
        OnlyAcquireTakes(h.db, st);
        YieldingLeases(h, Next(h, st));
      }
    }
  }

  lemma NextDraws(h: History, st: Stmt)
    requires Leased(h) && Drawn(h)
    ensures Drawn(Next(h, st))
  {
  }

  lemma DispatchStamps(h: History, st: Stmt)
    requires Stamped(h) && Drawn(h) && Legal(h.db, st) && st.Dispatch?
    ensures Stamped(Next(h, st))
  {
    var h' := Next(h, st);
    forall k | k in st.draws
      ensures Issue(st.draws[k], k, st.owner, h.db.rows[k].part, h.db.parts[h.db.rows[k].part].epoch) in h'.log.issued
    {
    }
  }

  lemma FadingStamps(h: History, h': History)
    requires Stamped(h) && Fades(h.db, h'.db) && h'.log.issued == h.log.issued
    ensures Stamped(h')
  {
  }

  lemma NextStamps(h: History, st: Stmt)
    requires Stamped(h) && Drawn(h)
    ensures Stamped(Next(h, st))
  {
    if Legal(h.db, st) {
      if st.Dispatch? {
        DispatchStamps(h, st);
      } else {
        OnlyDispatchStamps(h.db, st);
        FadingStamps(h, Next(h, st));
      }
    }
  }

  lemma NextKeeps(h: History, st: Stmt)
    requires Inv(h)
    ensures Inv(Next(h, st))
  {
    NextConserves(h, st);
    NextWrites(h, st);
    NextLeases(h, st);
    NextDraws(h, st);
    NextStamps(h, st);
  }

  lemma {:induction false} RunKeeps(h: History, sts: seq<Stmt>)
    requires Inv(h)
    ensures Inv(Run(h, sts))
    decreases |sts|
  {
    if sts != [] {
      NextKeeps(h, sts[0]);
      RunKeeps(Next(h, sts[0]), sts[1..]);
    }
  }

  /**
   Whatever statements ran, each submission of a request is a row still or was recorded, never
   both or neither, and there is one result row, kept or since handed out, for each record.
   */
  ghost predicate OnceEach(h: History, k: Key) {
    && h.log.recorded[k] <= h.log.enqueued[k] <= h.log.recorded[k] + 1
    && (k in h.db.rows <==> h.log.enqueued[k] == h.log.recorded[k] + 1)
    && ResultRows(h.db.results, k) + ResultRows(h.log.dropped, k) == h.log.recorded[k]
  }

  lemma OnceEachHolds(h: History, k: Key)
    requires Inv(h)
    ensures OnceEach(h, k)
  {
    RowsAdd(h.db.results, h.log.dropped, k);
  }

  lemma SubmittedOnceRecordedOnce(sts: seq<Stmt>, k: Key)
    ensures OnceEach(Run(Start, sts), k)
  {
    RunKeeps(Start, sts);
    OnceEachHolds(Run(Start, sts), k);
  }

  /** No epoch of a partition ever had two owners, and no stamp is ahead of its partition. */
  lemma OneOwnerPerEpoch(sts: seq<Stmt>)
    ensures var h := Run(Start, sts);
      && (forall g, f | g in h.log.grants && f in h.log.grants && g.part == f.part && g.epoch == f.epoch ::
            g.owner == f.owner)
      && (forall k | k in h.db.rows && h.db.rows[k].epoch > 0 ::
            h.db.rows[k].part in h.db.parts && h.db.rows[k].epoch <= h.db.parts[h.db.rows[k].part].epoch)
  {
    RunKeeps(Start, sts);
  }

  /**
   An Ack records a result only from the row's latest dispatch, made by the acking owner in the epoch
   still in force.
   */
  lemma RecordedFromLatestDispatch(sts: seq<Stmt>, owner: string, input: map<Key, Completion>, k: Key)
    returns (i: Issue)
    requires owner != "" && k in Acked(Run(Start, sts).db, owner, input)
    ensures var h := Run(Start, sts);
      && i in h.log.issued && i.key == k && i.attempt == input[k].attempt
      && i.part in h.db.parts && i.owner == owner == h.db.parts[i.part].owner
      && i.epoch == h.db.parts[i.part].epoch
      && (forall j | j in h.log.issued && j.key == k :: j.attempt <= i.attempt)
  {
    RunKeeps(Start, sts);
    var h := Run(Start, sts);
    var r := h.db.rows[k];
    i :| i in h.log.issued && i.key == k && i.attempt == r.attempt && i.part == r.part && i.epoch == r.epoch;
    assert Grant(i.part, i.epoch, i.owner) in h.log.grants;
    assert Grant(r.part, r.epoch, owner) in h.log.grants;
  }
}
