/**
 One dispatcher's quota store: its holder objects, updated in place under the store's lock, and its
 statements on the rows.
 */
module QuotaStores {
  import opened Calls
  import opened Quotas

  class QuotaHolder {
    const name: nat
    var known: int
    var retired: bool
    var deleting: bool
    var gone: bool
    var renewed: int

    constructor (name: nat, started: int)
      ensures this.name == name && known == 1 && !retired && !deleting && !gone && renewed == started
    {
      this.name := name;
      known, retired, deleting, gone, renewed := 1, false, false, false, started;
    }
  }

  /**
   A holder and its row after a settlement: a holder marked deleting by it has its row deleted,
   unless that call failed.
   */
  function SettledRow(l: Local, n: int, r: Row, delete: Fault): (Local, Row) {
    var l' := Settled(l, n);
    if l'.deleting && !l.deleting then
      (l'.(gone := l'.gone || delete.Ok?), if delete.Failed? then r else Deleted(r))
    else (l', r)
  }

  /** A holder and its row after its queued releases were sent. */
  function Flushed(l: Local, r: Row, counts: multiset<string>, call: Fault, delete: Fault): (Local, Row) {
    SettledRow(if call.Ok? then l else Retired(l), |counts|, if call.Failed? then r else Free(r, counts), delete)
  }

  class QuotaStore {
    var rows: seq<Row>
    var now: int
    var current: QuotaHolder?
    var holders: set<QuotaHolder>
    var pending: map<QuotaHolder, multiset<string>>
    ghost var all: set<QuotaHolder>

    ghost predicate Valid()
      reads this, all
    {
      && holders <= all && pending.Keys <= all
      && (current != null ==> current in all && !current.retired)
      && (forall h | h in all :: h.name < |rows|)
      && (forall g, h | g in all && h in all && g.name == h.name :: g == h)
    }

    constructor (rows: seq<Row>, now: int)
      ensures Valid() && all == {} && current == null && pending == map[] && this.rows == rows && this.now == now
    {
      this.rows, this.now, current, holders, pending, all := rows, now, null, {}, map[], {};
    }

    function View(h: QuotaHolder): Local
      reads this, h
    {
      Local(h.known, h.retired, h.deleting, h.gone, current == h)
    }

    /** Counts a statement against the current holder, if there is one. */
    method CountCurrent() returns (h: QuotaHolder?)
      requires Valid()
      modifies current
      ensures Valid() && h == current
      ensures h != null ==> View(h) == old(View(current)).(known := old(View(current)).known + 1)
    {
      h := current;
      if h != null {
        h.known := h.known + 1;
      }
    }

    method Retire(h: QuotaHolder)
      requires Valid() && h in all
      modifies this`current, h
      ensures Valid() && View(h) == Retired(old(View(h)))
      ensures current == if old(current) == h then null else old(current)
    {
      h.retired := true;
      if current == h {
        current := null;
      }
    }

    /** Deletes a holder's row and forgets the holder; a failed call leaves it to the heartbeat. */
    method DeleteHolder(h: QuotaHolder, call: Fault)
      requires Valid() && h in all
      modifies this`rows, this`holders, h
      ensures Valid()
      ensures rows == if call.Failed? then old(rows) else old(rows)[h.name := Deleted(old(rows)[h.name])]
      ensures View(h) == old(View(h)).(gone := old(h.gone) || call.Ok?)
      ensures holders == if call.Ok? then old(holders) - {h} else old(holders)
    {
      if !call.Failed? {
        rows := rows[h.name := Deleted(rows[h.name])];
      }
      if call.Ok? {
        h.gone := true;
        holders := holders - {h};
      }
    }

    /** Takes `n` off a holder's count, and deletes the holder once it is retired and nothing names it. */
    method Settle(h: QuotaHolder, n: int, delete: Fault)
      requires Valid() && h in all
      modifies this`rows, this`holders, h
      ensures Valid() && |rows| == |old(rows)|
      ensures (View(h), rows[h.name]) == SettledRow(old(View(h)), n, old(rows)[h.name], delete)
      ensures rows == old(rows)[h.name := rows[h.name]] && old(holders) - {h} <= holders <= old(holders)
    {
      h.known := h.known - n;
      var drop := h.retired && !h.gone && !h.deleting && h.known == 0;
      if drop {
        h.deleting := true;
        DeleteHolder(h, delete);
      }
    }

    /** A holder's row after the shutdown: deleted if nothing named the holder, unless the call failed. */
    ghost predicate Shut(h: QuotaHolder, was: Local, row: Row, todo: bool, call: Fault)
      requires h.name < |rows|
      reads this, h
    {
      if todo then View(h) == was && rows[h.name] == row
      else
        && View(h) == was.(gone := was.gone || call.Ok?)
        && rows[h.name] == (if call.Failed? then row else Deleted(row))
    }

    /** On shutdown: deletes the holders nothing names, the current one among them. */
    method Close(calls: map<QuotaHolder, Fault>)
      requires Valid() && all <= calls.Keys
      modifies this`rows, this`holders, holders
      ensures Valid() && |rows| == |old(rows)|
      ensures forall h | h in all ::
        Shut(h, old(View(h)), old(rows)[h.name], !(h in old(holders) && old(h.known) == 0 && !old(h.gone)), calls[h])
    {
      var idle := set h | h in holders && h.known == 0 && !h.gone;
      var todo := idle;
      ghost var was, before := Views(), rows;
      while todo != {}
        invariant todo <= idle && idle <= all && Valid() && |rows| == |before|
        invariant forall h | h in all :: Shut(h, was[h], before[h.name], h in todo || h !in idle, calls[h])
        decreases todo
      {
        var h :| h in todo;
        CloseOne(h, calls[h], was, before, calls, idle, todo);
        todo := todo - {h};
      }
    }

    method CloseOne(h: QuotaHolder, call: Fault, ghost was: map<QuotaHolder, Local>, ghost before: seq<Row>,
                    ghost calls: map<QuotaHolder, Fault>, ghost idle: set<QuotaHolder>, ghost todo: set<QuotaHolder>)
      requires Valid() && h in todo && todo <= idle <= all && was.Keys == all <= calls.Keys
      requires calls[h] == call && |rows| == |before|
      requires forall g | g in all :: Shut(g, was[g], before[g.name], g in todo || g !in idle, calls[g])
      modifies this`rows, this`holders, h
      ensures Valid() && |rows| == |before|
      ensures forall g | g in all :: Shut(g, was[g], before[g.name], g in todo - {h} || g !in idle, calls[g])
    {
      assert Shut(h, was[h], before[h.name], true, call);
      DeleteHolder(h, call);
      forall g | g in all ensures Shut(g, was[g], before[g.name], g in todo - {h} || g !in idle, calls[g]) {
        if g != h { assert old(Shut(g, was[g], before[g.name], g in todo || g !in idle, calls[g])); }
      }
    }

    /**
     Extends the lease of a holder. Retires it when the lease is found lapsed, or when the call failed
     and by the local clock a lease's time has passed since the last renewal began.
     */
    method Renew(h: QuotaHolder, ttl: nat, call: Fault, started: int, ended: int)
      requires Valid() && h in all
      modifies this`rows, this`holders, this`current, h
      ensures Valid()
      ensures rows == if call.Failed? then old(rows) else old(rows)[h.name := Renewed(old(rows)[h.name], now, ttl)]
      ensures View(h) == if call.Ok? && !Live(old(rows)[h.name], now) then Retired(old(View(h))).(gone := true)
                         else if !call.Ok? && ended - old(h.renewed) >= ttl then Retired(old(View(h)))
                         else old(View(h))
      ensures h.renewed == if call.Ok? && Live(old(rows)[h.name], now) then started else old(h.renewed)
      ensures current == if h.retired && old(current) == h then null else old(current)
      ensures holders == if call.Ok? && !Live(old(rows)[h.name], now) then old(holders) - {h} else old(holders)
    {
      var live := Live(rows[h.name], now);
      if !call.Failed? {
        rows := rows[h.name := Renewed(rows[h.name], now, ttl)];
      }
      if call.Ok? && live {
        h.renewed := started;
      } else if call.Ok? {
        h.retired, h.gone := true, true;
        holders := holders - {h};
        if current == h {
          current := null;
        }
      } else if ended - h.renewed >= ttl {
        h.retired := true;
        if current == h {
          current := null;
        }
      }
    }

    /** Queues a release; it is sent by the flush. */
    method ReleaseSlot(h: QuotaHolder, key: string)
      requires Valid() && h in all
      modifies this`pending
      ensures Valid()
      ensures pending == old(pending)[h := (if h in old(pending) then old(pending)[h] else multiset{}) + multiset{key}]
    {
      var byKey := if h in pending then pending[h] else multiset{};
      pending := pending[h := byKey + multiset{key}];
    }

    /** Sends one holder's releases; a failed call retires the holder. */
    method SendReleases(h: QuotaHolder, counts: multiset<string>, call: Fault, delete: Fault)
      requires Valid() && h in all
      modifies this`rows, this`holders, this`current, h
      ensures Valid() && |rows| == |old(rows)| && holders <= old(holders)
      ensures (View(h), rows[h.name]) == Flushed(old(View(h)), old(rows)[h.name], counts, call, delete)
      ensures forall g | g in all && g != h :: View(g) == old(View(g)) && rows[g.name] == old(rows[g.name])
    {
      if !call.Failed? {
        rows := rows[h.name := Free(rows[h.name], counts)];
      }
      if !call.Ok? {
        Retire(h);
      }
      Settle(h, |counts|, delete);
    }

    /** The holder to count a statement against: the current one, or one registered for it; none when that fails. */
    method Begin(register: Fault, ttl: nat, started: int) returns (h: QuotaHolder?)
      requires Valid()
      modifies this`rows, this`current, this`holders, this`all, current
      ensures Valid() && pending == old(pending)
      ensures rows == if old(current) != null || register.Failed? then old(rows)
          else old(rows) + [Row(true, now + ttl, map[])]
      ensures h == null ==> !register.Ok? && current == old(current) == null && all == old(all)
      ensures h != null ==> current == h && h in all && all == old(all) + {h}
      ensures h != null && h in old(all) ==> h == old(current) && h.known == old(h.known) + 1
      ensures h != null && h !in old(all) ==> fresh(h) && h.known == 1 && old(current) == null && h.name == |old(rows)|
    {
      h := CountCurrent();
      if h != null {
        return;
      }
      if !register.Failed? {
        rows := rows + [Row(true, now + ttl, map[])];
      }
      if register.Ok? {
        h := new QuotaHolder(|rows| - 1, started);
        current := h;
        holders := holders + {h};
        all := all + {h};
      }
    }

    /** One acquire statement; an error retires the holder instead of being retried under it. */
    method Attempt(h: QuotaHolder, key: string, n: nat, limit: int, call: Fault, delete: Fault)
      returns (outcome: Outcome)
      requires Valid() && h in all && current == h
      modifies this`rows, this`holders, this`current, h
      ensures Valid() && all == old(all) && pending == old(pending) && |rows| == |old(rows)|
      ensures outcome == if call.Ok? then Acquire(old(rows), now, h.name, key, n, limit).1 else Waiting
      ensures outcome.Granted? ==>
        && h.known == old(h.known) - 1 + outcome.slots && current == h
        && rows == Acquire(old(rows), now, h.name, key, n, limit).0
      ensures outcome == Lapsed ==>
        !Live(old(rows)[h.name], now) && rows == old(rows)[h.name := rows[h.name]] && !Live(rows[h.name], now)
      ensures !outcome.Granted? ==> h.known == old(h.known) - 1 && h.retired && current == null
    {
      var (rows', took) := Acquire(rows, now, h.name, key, n, limit);
      if !call.Failed? {
        rows := rows';
      }
      outcome := if call.Ok? then took else Waiting;
      if !outcome.Granted? {
        Retire(h);
        Settle(h, 1, delete);
      } else {
        Settle(h, 1 - outcome.slots, delete);
      }
    }

    /** The slots of a key that count in some rows, and in the rows as they are. */
    ghost function UseIn(rs: seq<Row>, key: string): nat
      reads this`now
    {
      LiveUsed(rs, now, key, |rs|)
    }

    ghost function Use(key: string): nat
      reads this
    {
      UseIn(rows, key)
    }

    /** One round: a holder to count against, and its statement; the slots that count change only by what it grants. */
    method Round(key: string, n: nat, limit: int, ttl: nat, started: int, register: Fault, call: Fault, delete: Fault)
      returns (outcome: Outcome, h: QuotaHolder?)
      requires Valid()
      modifies this`rows, this`current, this`holders, this`all, current
      ensures Valid() && old(all) <= all && pending == old(pending)
      ensures h == null ==> outcome == Waiting
      ensures h != null && h in old(all) ==> h == old(current)
      ensures outcome.Granted? ==>
        && outcome.slots == Grantable(n, limit, old(Use(key))) && Use(key) == old(Use(key)) + outcome.slots
        && h in all && h == current && h.known == outcome.slots + if h in old(all) then old(h.known) else 0
      ensures outcome == Lapsed ==> Use(key) == old(Use(key)) && current == null
      ensures forall g | g in old(all) && (g != h || !outcome.Granted?) :: g.known == old(g.known)
    {
      h := Begin(register, ttl, started);
      if old(current) == null && !register.Failed? {
        EmptyRowAddsNothing(old(rows), Row(true, now + ttl, map[]), now, key);
      }
      if h == null {
        return Waiting, null;
      }
      ghost var met := rows;
      outcome := Attempt(h, key, n, limit, call, delete);
      GrantsAllItCan(met, now, h.name, key, n, limit);
      if outcome == Lapsed {
        LiveUsedChange(met, rows, now, key, h.name, |met|);
      }
    }

    /**
     Acquires slots in one statement, once more under a new holder if the first was found lapsed;
     `meanwhile` is what others do to the rows before that. It grants as many as are free of the limit
     in the rows it is called with, or then finds. The holder it returns counts exactly those on top of
     what it counted; no other holder's count changes, and on an error none.
     */
    method AcquireSlots(key: string, n: nat, limit: int, ttl: nat, started: int, registers: seq<Fault>,
                        calls: seq<Fault>, deletes: seq<Fault>, meanwhile: seq<Row> -> seq<Row>)
      returns (granted: nat, h: QuotaHolder?, ghost again: bool, ghost found: seq<Row>)
      requires Valid() && |registers| == |calls| == |deletes| == 2
      requires forall rs :: |meanwhile(rs)| >= |rs|
      modifies this`rows, this`current, this`holders, this`all, current
      ensures Valid() && old(all) <= all && pending == old(pending)
      ensures if again then exists rs :: found == meanwhile(rs) && UseIn(rs, key) == old(Use(key))
              else found == old(rows)
      ensures h == null ==> granted == 0
      ensures h != null ==>
        && granted == Grantable(n, limit, UseIn(found, key)) && Use(key) == UseIn(found, key) + granted
        && h in all && h == current && h.known == granted + if h in old(all) then old(h.known) else 0
      ensures forall g | g in old(all) && g != h :: g.known == old(g.known)
    {
      granted, h, again, found := 0, null, false, rows;
      for i := 0 to 2
        invariant Valid() && old(all) <= all && pending == old(pending) && now == old(now) && granted == 0 && h == null
        invariant i == 0 ==> rows == old(rows) && current == old(current) && all == old(all)
        invariant i > 0 ==> current == null
        invariant i < 2 ==> Use(key) == old(Use(key)) && !again && found == old(rows)
        invariant i == 2 ==> again && exists rs :: found == meanwhile(rs) && UseIn(rs, key) == old(Use(key))
        invariant forall g | g in old(all) :: g.known == old(g.known)
      {
        if i > 0 {
          assert UseIn(rows, key) == old(Use(key));
          rows := meanwhile(rows);
          again, found := true, rows;
        }
        var outcome, holder := Round(key, n, limit, ttl, started, registers[i], calls[i], deletes[i]);
        if outcome.Granted? {
          granted, h := outcome.slots, holder;
          return;
        }
        if outcome != Lapsed {
          return;
        }
      }
    }

    /** Where a holder stands: untouched, or with its batch of releases settled. */
    ghost predicate Stands(h: QuotaHolder, done: bool, was: Local, row: Row, counts: multiset<string>, call: Fault,
                           delete: Fault)
      requires h.name < |rows|
      reads this, h
    {
      (View(h), rows[h.name]) == if done then Flushed(was, row, counts, call, delete) else (was, row)
    }

    /** The holders of a batch whose releases are still to be sent are untouched, the others settled. */
    ghost predicate Progress(job: Job, todo: set<QuotaHolder>)
      reads this, all
    {
      && job.Covers(all) && |rows| == |job.before| && Valid()
      && (forall h | h in job.batch ::
          Stands(h, h !in todo, job.was[h], job.before[h.name], job.batch[h], job.calls[h], job.deletes[h]))
      && (forall h | h in all && h !in job.batch :: rows[h.name] == job.before[h.name])
    }

    method SendNext(h: QuotaHolder, ghost job: Job, counts: multiset<string>, call: Fault, delete: Fault,
                    ghost todo: set<QuotaHolder>)
      requires Progress(job, todo) && h in todo && h in job.batch && job.batch[h] == counts && job.calls[h] == call
          && job.deletes[h] == delete
      modifies this`rows, this`holders, this`current, h
      ensures Progress(job, todo - {h})
    {
      assert Stands(h, false, job.was[h], job.before[h.name], counts, call, delete);
      SendReleases(h, counts, call, delete);
      forall g | g in job.batch
        ensures Stands(g, g !in todo - {h}, job.was[g], job.before[g.name], job.batch[g], job.calls[g], job.deletes[g])
      {
        if g != h {
          assert old(Stands(g, g !in todo, job.was[g], job.before[g.name], job.batch[g], job.calls[g], job.deletes[g]));
        }
      }
    }

    method SendBatch(batch: map<QuotaHolder, multiset<string>>, calls: map<QuotaHolder, Fault>,
                     deletes: map<QuotaHolder, Fault>, ghost job: Job)
      requires job.batch == batch && job.calls == calls && job.deletes == deletes && Progress(job, batch.Keys)
      modifies this`rows, this`holders, this`current, batch.Keys
      ensures Progress(job, {})
    {
      var todo := batch.Keys;
      while todo != {}
        invariant todo <= batch.Keys && Progress(job, todo)
        decreases todo
      {
        var h :| h in todo;
        SendNext(h, job, batch[h], calls[h], deletes[h], todo);
        todo := todo - {h};
      }
    }

    /**
     Sends every queued release once, holder by holder; each holder's count drops by exactly the
     releases sent for it.
     */
    method SendPending(calls: map<QuotaHolder, Fault>, deletes: map<QuotaHolder, Fault>)
      requires Valid() && pending.Keys <= calls.Keys && pending.Keys <= deletes.Keys
      modifies this`pending, this`rows, this`holders, this`current, pending.Keys
      ensures Valid() && pending == map[] && |rows| == |old(rows)|
      ensures forall h | h in old(pending) ::
                (View(h), rows[h.name]) ==
                    Flushed(old(View(h)), old(rows)[h.name], old(pending)[h], calls[h], deletes[h])
      ensures forall h | h in all && h !in old(pending) :: rows[h.name] == old(rows)[h.name]
    {
      var batch := pending;
      pending := map[];
      ghost var job := Job(batch, calls, deletes, Views(), rows);
      SendBatch(batch, calls, deletes, job);
      Finished(job);
    }

    /** Every holder's count dropped by exactly what was sent for it in the first `n` rounds. */
    ghost predicate Paid(was: map<QuotaHolder, int>, first: map<QuotaHolder, multiset<string>>, rounds: seq<Batch>,
                         n: nat)
      requires n <= |rounds|
      reads this, all
    {
      forall h | h in all :: h in was && h.known == was[h] - SentFor(first, rounds, h, n)
    }

    ghost predicate Playable(rounds: seq<Batch>)
      reads this
    {
      forall i | 0 <= i < |rounds| ::
        all <= rounds[i].calls.Keys && all <= rounds[i].deletes.Keys && rounds[i].queued.Keys <= all
    }

    /** After `n` rounds: the next batch is queued, and the counts dropped by what was sent. */
    ghost predicate After(was: map<QuotaHolder, int>, first: map<QuotaHolder, multiset<string>>, rounds: seq<Batch>,
                          n: nat)
      reads this, all
    {
      && Valid() && Playable(rounds) && n <= |rounds| && was.Keys == all
      && pending == BatchAt(first, rounds, n) && Paid(was, first, rounds, n)
    }

    method FlushRound(rounds: seq<Batch>, n: nat, ghost was: map<QuotaHolder, int>,
                      ghost first: map<QuotaHolder, multiset<string>>)
      returns (next: nat)
      requires After(was, first, rounds, n) && n < |rounds|
      modifies this`pending, this`rows, this`holders, this`current, all
      ensures next == n + 1 && After(was, first, rounds, next)
    {
      SendOne(rounds[n]);
      next := n + 1;
    }

    /**
     Sends batch after batch until none is queued; `rounds` tells how each batch's calls end and what
     is queued while it is sent. Each holder's count drops by exactly what was sent for it in all.
     */
    method FlushReleases(rounds: seq<Batch>) returns (sent: nat)
      requires Valid() && Playable(rounds) && rounds != [] && rounds[|rounds| - 1].queued == map[]
      modifies this`pending, this`rows, this`holders, this`current, all
      ensures Valid() && pending == map[] && all == old(all) && sent <= |rounds|
      ensures forall h | h in all :: h.known == old(h.known) - SentFor(old(pending), rounds, h, sent)
    {
      sent := 0;
      ghost var was, first := map h | h in all :: h.known, pending;
      while pending != map[]
        invariant all == old(all) && After(was, first, rounds, sent)
        decreases |rounds| - sent
      {
        sent := FlushRound(rounds, sent, was, first);
      }
    }

    /** One round of the loop. */
    method SendOne(r: Batch)
      requires Valid() && all <= r.calls.Keys && all <= r.deletes.Keys && r.queued.Keys <= all
      modifies this`pending, this`rows, this`holders, this`current, pending.Keys
      ensures Valid() && pending == r.queued
      ensures forall h | h in all :: h.known == old(h.known) - if h in old(pending) then |old(pending)[h]| else 0
    {
      SendPending(r.calls, r.deletes);
      pending := r.queued;
      forall h | h in all ensures h.known == old(h.known) - if h in old(pending) then |old(pending)[h]| else 0 {
        if h in old(pending) { assert View(h).known == old(View(h)).known - |old(pending)[h]|; }
      }
    }

    ghost function Views(): map<QuotaHolder, Local>
      reads this, all
    {
      map h | h in all :: View(h)
    }

    lemma Finished(job: Job)
      requires Progress(job, {})
      ensures forall h | h in job.batch ::
        (View(h), rows[h.name]) == Flushed(job.was[h], job.before[h.name], job.batch[h], job.calls[h], job.deletes[h])
    {
      forall h | h in job.batch
        ensures (View(h), rows[h.name]) ==
            Flushed(job.was[h], job.before[h.name], job.batch[h], job.calls[h], job.deletes[h])
      {
        assert Stands(h, true, job.was[h], job.before[h.name], job.batch[h], job.calls[h], job.deletes[h]);
      }
    }
  }

  /** What becomes of one batch: how its calls end, and what is queued while it is sent. */
  datatype Batch = Batch(calls: map<QuotaHolder, Fault>, deletes: map<QuotaHolder, Fault>,
                         queued: map<QuotaHolder, multiset<string>>)

  /** The batch sent in a round. */
  function BatchAt(first: map<QuotaHolder, multiset<string>>, rounds: seq<Batch>, i: nat)
    : map<QuotaHolder, multiset<string>>
    requires i <= |rounds|
  {
    if i == 0 then first else rounds[i - 1].queued
  }

  /** The releases sent for a holder in the first `n` rounds. */
  function SentFor(first: map<QuotaHolder, multiset<string>>, rounds: seq<Batch>, h: QuotaHolder, n: nat): nat
    requires n <= |rounds|
  {
    if n == 0 then 0
    else
      var batch := BatchAt(first, rounds, n - 1);
      SentFor(first, rounds, h, n - 1) + if h in batch then |batch[h]| else 0
  }

  /** What a statement can grant of a limit. */
  function Grantable(n: nat, limit: int, used: nat): nat {
    Min(n, if limit - used > 0 then limit - used else 0)
  }

  lemma EmptyRowAddsNothing(rows: seq<Row>, r: Row, now: int, key: string)
    requires r.used == map[]
    ensures LiveUsed(rows + [r], now, key, |rows| + 1) == LiveUsed(rows, now, key, |rows|)
  {
    PrefixUse(rows, r, now, key, |rows|);
  }

  lemma {:induction false} PrefixUse(rows: seq<Row>, r: Row, now: int, key: string, n: nat)
    requires n <= |rows|
    ensures LiveUsed(rows + [r], now, key, n) == LiveUsed(rows, now, key, n)
  {
    if n > 0 { PrefixUse(rows, r, now, key, n - 1); }
  }

  /** A batch of releases, how its calls end, and what was there before it. */
  datatype Job = Job(batch: map<QuotaHolder, multiset<string>>, calls: map<QuotaHolder, Fault>,
                     deletes: map<QuotaHolder, Fault>,
                     was: map<QuotaHolder, Local>, before: seq<Row>)
  {
    ghost predicate Covers(all: set<QuotaHolder>) {
      && batch.Keys <= all == was.Keys && batch.Keys <= calls.Keys && batch.Keys <= deletes.Keys
      && forall h | h in all :: h.name < |before|
    }
  }

  lemma {:induction false} RunJoins(w: World, a: seq<Step>, b: seq<Step>)
    ensures Run(w, a + b) == Run(Run(w, a), b)
    decreases |a|
  {
    if a == [] {
      assert a + b == b;
    } else {
      assert (a + b)[0] == a[0] && (a + b)[1..] == a[1..] + b;
      RunJoins(Next(w, a[0]), a[1..], b);
    }
  }

  function SendSteps(h: nat, call: Fault): seq<Step> {
    [Send(h)] + (if call.Failed? then [] else [FreeSent(h)])
    + (if call.Ok? then [] else [FailSent(h)]) + [SettleSent(h)]
  }

  function DeleteSteps(h: nat, delete: Fault): seq<Step> {
    match delete
    case Failed => []
    case Lost => [Delete(h)]
    case Ok => [Delete(h), MarkGone(h)]
  }

  /** A holder that may send a batch of releases. */
  predicate HasQueued(w: World, h: nat) {
    h < |w.holders| == |w.rows| && w.holders[h].sent == multiset{} && w.holders[h].queued != multiset{}
  }

  /** The world after one holder's releases were sent and settled. */
  function Sent(w: World, h: nat, call: Fault): World
    requires HasQueued(w, h)
  {
    var d := w.holders[h];
    var l := Settled(if call.Ok? then d.local else Retired(d.local), |d.queued|);
    w.(holders := w.holders[h := d.(queued := multiset{}, freed := false, broken := false, local := l)],
       rows := w.rows[h := if call.Failed? then w.rows[h] else Free(w.rows[h], d.queued)])
  }

  lemma RunMaybe(w: World, st: Step, yes: bool)
    ensures Run(w, if yes then [st] else []) == if yes then Next(w, st) else w
  {
    assert [st][1..] == [];
  }

  lemma SendIsRun(w: World, h: nat, call: Fault)
    requires HasQueued(w, h)
    ensures Run(w, SendSteps(h, call)) == Sent(w, h, call)
  {
    var free, fail := if !call.Failed? then [FreeSent(h)] else [], if !call.Ok? then [FailSent(h)] else [];
    assert SendSteps(h, call) == [Send(h)] + free + fail + [SettleSent(h)];
    RunJoins(w, [Send(h)] + free + fail, [SettleSent(h)]);
    RunJoins(w, [Send(h)] + free, fail);
    RunJoins(w, [Send(h)], free);
    RunMaybe(w, Send(h), true);
    var w1 := Next(w, Send(h));
    RunMaybe(w1, FreeSent(h), !call.Failed?);
    var w2 := if call.Failed? then w1 else Next(w1, FreeSent(h));
    RunMaybe(w2, FailSent(h), !call.Ok?);
    RunMaybe(if call.Ok? then w2 else Next(w2, FailSent(h)), SettleSent(h), true);
    SentIn(w, h, call);
  }

  /** The holder and the row while its batch is being sent. */
  lemma Sending(w: World, h: nat, call: Fault)
    requires HasQueued(w, h)
    ensures var d := w.holders[h];
      var d1 := d.(sent := d.queued, queued := multiset{}, freed := !call.Failed?, broken := false);
      var w1 := Next(w, Send(h));
      (if call.Failed? then w1 else Next(w1, FreeSent(h))) ==
      w.(holders := w.holders[h := d1],
         rows := w.rows[h := if call.Failed? then w.rows[h] else Free(w.rows[h], d.queued)])
  {
    var d := w.holders[h];
    assert Next(w, Send(h)).holders ==
        w.holders[h := d.(sent := d.queued, queued := multiset{}, freed := false, broken := false)];
  }

  lemma SentIn(w: World, h: nat, call: Fault)
    requires HasQueued(w, h)
    ensures var w1 := Next(w, Send(h));
      var w2 := if call.Failed? then w1 else Next(w1, FreeSent(h));
      var w3 := if call.Ok? then w2 else Next(w2, FailSent(h));
      Next(w3, SettleSent(h)) == Sent(w, h, call)
  {
    Sending(w, h, call);
    var w1 := Next(w, Send(h));
    SettleSending(w, if call.Failed? then w1 else Next(w1, FreeSent(h)), h, call);
  }

  lemma SettleSending(w: World, w2: World, h: nat, call: Fault)
    requires HasQueued(w, h)
    requires var d := w.holders[h];
      var d1 := d.(sent := d.queued, queued := multiset{}, freed := !call.Failed?, broken := false);
      w2 == w.(holders := w.holders[h := d1],
               rows := w.rows[h := if call.Failed? then w.rows[h] else Free(w.rows[h], d.queued)])
    ensures Next(if call.Ok? then w2 else Next(w2, FailSent(h)), SettleSent(h)) == Sent(w, h, call)
  {
  }

  lemma DeleteIsRun(w: World, h: nat, delete: Fault)
    requires h < |w.holders| == |w.rows| && w.holders[h].local.deleting
    ensures var w', l := Run(w, DeleteSteps(h, delete)), w.holders[h].local;
      && |w'.rows| == |w'.holders| == |w.rows|
      && w'.holders[h].local == l.(gone := l.gone || delete.Ok?)
      && w'.rows[h] == if delete.Failed? then w.rows[h] else Deleted(w.rows[h])
  {
    var w1 := Next(w, Delete(h));
    if delete.Lost? { assert Run(w, [Delete(h)]) == w1; }
    if delete.Ok? { assert Run(w1, [MarkGone(h)]) == Next(w1, MarkGone(h)); }
  }

  /** What a flush does to a holder and its row, whatever fails, is a run of the protocol. */
  lemma FlushIsRun(w: World, h: nat, call: Fault, delete: Fault)
    requires HasQueued(w, h)
    ensures var d := w.holders[h];
      var marked := Sent(w, h, call).holders[h].local.deleting && !d.local.deleting;
      var w' := Run(w, SendSteps(h, call) + if marked then DeleteSteps(h, delete) else []);
      && |w'.rows| == |w'.holders| == |w.rows|
      && (w'.holders[h].local, w'.rows[h]) == Flushed(d.local, w.rows[h], d.queued, call, delete)
  {
    var marked := Sent(w, h, call).holders[h].local.deleting && !w.holders[h].local.deleting;
    RunJoins(w, SendSteps(h, call), if marked then DeleteSteps(h, delete) else []);
    SendIsRun(w, h, call);
    if marked { DeleteIsRun(Sent(w, h, call), h, delete); }
  }
}
