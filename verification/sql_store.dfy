/** The store: the statements a dispatcher or a producer runs, with the work done around them. */
module SqlStore {
  import opened SqlTables
  import opened SqlAck
  import F = SqlFencing
  import opened Ordering

  const ENQUEUE_CHUNK: nat := 1000

  datatype Request = Request(key: Key, part: nat, deadline: int, envelope: string)

  function RowOf(r: Request, createdAt: int): Row { Row(r.part, r.deadline, createdAt, 0, 0, 0, r.envelope) }

  function KeysOf(reqs: seq<Request>, n: nat): set<Key>
    requires n <= |reqs|
  {
    set i | 0 <= i < n :: reqs[i].key
  }

  /** The rows of the first `n` requests, created one tick after another. */
  function RowsOf(reqs: seq<Request>, createdAt: int, n: nat): (m: map<Key, Row>)
    requires n <= |reqs|
  {
    if n == 0 then map[]
    else RowsOf(reqs, createdAt, n - 1)[reqs[n - 1].key := RowOf(reqs[n - 1], createdAt + n - 1)]
  }

  lemma {:induction false} RowsOfKeys(reqs: seq<Request>, createdAt: int, n: nat)
    requires n <= |reqs|
    ensures RowsOf(reqs, createdAt, n).Keys == KeysOf(reqs, n)
    ensures forall k | k in KeysOf(reqs, n) ::
      && RowsOf(reqs, createdAt, n)[k].epoch == 0
      && RowsOf(reqs, createdAt, n)[k].attempt == 0
  {
    if n > 0 {
      RowsOfKeys(reqs, createdAt, n - 1);
      assert KeysOf(reqs, n) == KeysOf(reqs, n - 1) + {reqs[n - 1].key};
    }
  }

  /** The primary key admits all of the first `n` requests. */
  ghost predicate Insertable(db: Db, reqs: seq<Request>, n: nat)
    requires n <= |reqs|
  {
    && KeysOf(reqs, n) !! db.rows.Keys
    && (forall i | 0 <= i < n :: reqs[i].key !in KeysOf(reqs, i))
  }

  /** Requests of one submission keep their order: each row is created after the ones before it. */
  lemma {:induction false} CreatedInOrder(db: Db, reqs: seq<Request>, createdAt: int, n: nat, i: nat)
    requires i < n <= |reqs| && Insertable(db, reqs, n)
    ensures reqs[i].key in RowsOf(reqs, createdAt, n)
    ensures RowsOf(reqs, createdAt, n)[reqs[i].key] == RowOf(reqs[i], createdAt + i)
  {
    if i < n - 1 {
      assert KeysOf(reqs, n - 1) <= KeysOf(reqs, n);
      CreatedInOrder(db, reqs, createdAt, n - 1, i);
      assert reqs[i].key in KeysOf(reqs, n - 1);
    }
  }

  predicate AtMost(a: (int, int), b: (int, int)) {
    a.0 < b.0 || (a.0 == b.0 && a.1 <= b.1)
  }

  /** Earliest deadline first, then submission order. */
  function Rank(rows: map<Key, Row>, k: Key): (int, int) {
    if k in rows then (rows[k].deadline, rows[k].createdAt) else (0, 0)
  }

  predicate Before(rows: map<Key, Row>, a: Key, b: Key) { AtMost(Rank(rows, a), Rank(rows, b)) }

  /** Listed by deadline, then by creation. */
  ghost predicate InOrder(rows: map<Key, Row>, out: seq<Key>) {
    forall i, j | 0 <= i < j < |out| :: Before(rows, out[i], out[j])
  }

  /** Recording is the only way out of the table, and it is logged. */
  lemma RecordedGrows(h: F.History, st: Stmt, k: Key)
    ensures var h' := F.Next(h, st);
      && h'.log.recorded[k] >= h.log.recorded[k]
      && (k in h.db.rows && h'.log.recorded[k] == h.log.recorded[k] ==>
            k in h'.db.rows && Rank(h'.db.rows, k) == Rank(h.db.rows, k))
  {
    if Legal(h.db, st) && st.Ack? {
      assert k in Acked(h.db, st.owner, st.input) ==> multiset(Acked(h.db, st.owner, st.input))[k] == 1;
    }
  }

  /** Until it is recorded a row keeps its deadline and creation, whatever statements run. */
  lemma {:induction false} RankStays(h: F.History, sts: seq<Stmt>, k: Key)
    ensures var h' := F.Run(h, sts);
      && h'.log.recorded[k] >= h.log.recorded[k]
      && (k in h.db.rows && h'.log.recorded[k] == h.log.recorded[k] ==>
            k in h'.db.rows && Rank(h'.db.rows, k) == Rank(h.db.rows, k))
    decreases |sts|
  {
    if sts != [] {
      RecordedGrows(h, sts[0], k);
      RankStays(F.Next(h, sts[0]), sts[1..], k);
    }
  }

  /** The history after a submission. */
  function Submitted(h: F.History, reqs: seq<Request>, createdAt: int): F.History {
    F.Next(h, SqlTables.Enqueue(RowsOf(reqs, createdAt, |reqs|)))
  }

  lemma SubmittedRank(h: F.History, reqs: seq<Request>, createdAt: int, i: nat)
    requires i < |reqs| && Insertable(h.db, reqs, |reqs|)
    ensures reqs[i].key in Submitted(h, reqs, createdAt).db.rows
    ensures Rank(Submitted(h, reqs, createdAt).db.rows, reqs[i].key) == (reqs[i].deadline, createdAt + i)
  {
    RowsOfKeys(reqs, createdAt, |reqs|);
    CreatedInOrder(h.db, reqs, createdAt, |reqs|, i);
  }

  /**
   Requests of one submission with equal deadlines come out of a dispatch in the order they were
   given, whatever else the table holds and whatever statements ran since, while neither is recorded.
   */
  lemma SubmissionOrder(h: F.History, reqs: seq<Request>, createdAt: int, sts: seq<Stmt>, out: seq<Key>,
                        i: nat, j: nat)
    requires i < j < |reqs| && reqs[i].deadline == reqs[j].deadline && Insertable(h.db, reqs, |reqs|)
    requires var h1 := Submitted(h, reqs, createdAt);
      var h2 := F.Run(h1, sts);
      && h2.log.recorded[reqs[i].key] == h1.log.recorded[reqs[i].key]
      && h2.log.recorded[reqs[j].key] == h1.log.recorded[reqs[j].key]
      && InOrder(h2.db.rows, out) && reqs[i].key in out && reqs[j].key in out
    ensures exists a, b :: 0 <= a < b < |out| && out[a] == reqs[i].key && out[b] == reqs[j].key
  {
    var h1 := Submitted(h, reqs, createdAt);
    SubmittedRank(h, reqs, createdAt, i);
    SubmittedRank(h, reqs, createdAt, j);
    RankStays(h1, sts, reqs[i].key);
    RankStays(h1, sts, reqs[j].key);
    var a :| 0 <= a < |out| && out[a] == reqs[i].key;
    var b :| 0 <= b < |out| && out[b] == reqs[j].key;
    var rows := F.Run(h1, sts).db.rows;
    assert !Before(rows, reqs[j].key, reqs[i].key);
    assert a < b;
  }

  /** Longest lapsed first, then lowest partition. */
  function LapseRank(parts: map<nat, Part>, p: nat): (int, int) {
    if p in parts then (parts[p].expiresMs, p) else (0, p)
  }

  predicate Sooner(parts: map<nat, Part>, a: nat, b: nat) { AtMost(LapseRank(parts, a), LapseRank(parts, b)) }

  lemma PlusUpdate<K, V>(a: map<K, V>, b: map<K, V>, k: K, v: V)
    ensures a + b[k := v] == (a + b)[k := v]
  {
  }

  lemma InsertableOneMore(db: Db, reqs: seq<Request>, i: nat)
    requires i < |reqs| && Insertable(db, reqs, i)
    ensures Insertable(db, reqs, i + 1) <==> reqs[i].key !in db.rows.Keys + KeysOf(reqs, i)
  {
    assert KeysOf(reqs, i + 1) == KeysOf(reqs, i) + {reqs[i].key};
  }

  lemma StaysUninsertable(db: Db, reqs: seq<Request>, n: nat, m: nat)
    requires n <= m <= |reqs| && !Insertable(db, reqs, n)
    ensures !Insertable(db, reqs, m)
  {
    assert KeysOf(reqs, n) <= KeysOf(reqs, m);
  }

  /** Stages one chunk of rows; a key that exists already, or twice in the list, fails it. */
  method StageChunk(db: Db, reqs: seq<Request>, createdAt: int, start: nat, end: nat, before: map<Key, Row>)
    returns (ok: bool, staged: map<Key, Row>)
    requires start <= end <= |reqs| && Insertable(db, reqs, start) && before == db.rows + RowsOf(reqs, createdAt, start)
    ensures ok <==> Insertable(db, reqs, end)
    ensures ok ==> staged == db.rows + RowsOf(reqs, createdAt, end)
  {
    staged := before;
    for i := start to end
      invariant Insertable(db, reqs, i) && staged == db.rows + RowsOf(reqs, createdAt, i)
    {
      InsertableOneMore(db, reqs, i);
      RowsOfKeys(reqs, createdAt, i);
      PlusUpdate(db.rows, RowsOf(reqs, createdAt, i), reqs[i].key, RowOf(reqs[i], createdAt + i));
      if reqs[i].key in staged {
        StaysUninsertable(db, reqs, i + 1, end);
        return false, staged;
      }
      staged := staged[reqs[i].key := RowOf(reqs[i], createdAt + i)];
    }
    return true, staged;
  }

  /** Stages the rows chunk by chunk in one transaction. */
  method Stage(db: Db, reqs: seq<Request>, createdAt: int) returns (ok: bool, staged: map<Key, Row>)
    ensures ok <==> Insertable(db, reqs, |reqs|)
    ensures ok ==> staged == db.rows + RowsOf(reqs, createdAt, |reqs|)
  {
    staged := db.rows;
    var start := 0;
    while start < |reqs|
      invariant 0 <= start <= |reqs|
      invariant Insertable(db, reqs, start) && staged == db.rows + RowsOf(reqs, createdAt, start)
    {
      var end := if |reqs| <= start + ENQUEUE_CHUNK then |reqs| else start + ENQUEUE_CHUNK;
      ok, staged := StageChunk(db, reqs, createdAt, start, end, staged);
      if !ok {
        StaysUninsertable(db, reqs, end, |reqs|);
        return;
      }
      start := end;
    }
    ok := true;
  }

  /** The first `limit` dispatchable rows no other transaction holds, earliest deadline first. */
  method PickRows(db: Db, owner: string, now: int, limit: nat, locked: set<Key>) returns (out: seq<Key>)
    ensures Distinct(out) && |out| <= limit
    ensures forall k | k in out :: Dispatchable(db, owner, now, k) && k !in locked
    ensures InOrder(db.rows, out)
    ensures forall k | Dispatchable(db, owner, now, k) && k !in locked && k !in out ::
      |out| == limit && forall x | x in out :: Before(db.rows, x, k)
  {
    var le := (a, b) => Before(db.rows, a, b);
    var free := set k | k in db.rows && Dispatchable(db, owner, now, k) && k !in locked;
    out := First(free, le, limit);
    assert forall i, j | 0 <= i < j < |out| :: le(out[i], out[j]);
    assert forall k | k in out :: k in Elements(out);
    assert forall k | Dispatchable(db, owner, now, k) && k !in locked :: k in free;
    assert forall x, k | x in out && k in free && k !in out :: le(x, k) && Before(db.rows, x, k);
  }

  /** Numbers the picked rows from the attempt sequence. */
  method Draw(out: seq<Key>, attempts: nat) returns (draws: map<Key, nat>)
    requires Distinct(out)
    ensures draws.Keys == Elements(out)
    ensures forall i | 0 <= i < |out| :: draws[out[i]] == attempts + i + 1
  {
    draws := map[];
    for i := 0 to |out|
      invariant draws.Keys == Elements(out[..i])
      invariant forall j | 0 <= j < i :: out[j] in draws && draws[out[j]] == attempts + j + 1
    {
      assert out[..i + 1] == out[..i] + [out[i]];
      draws := draws[out[i] := attempts + i + 1];
    }
    assert out[..|out|] == out;
  }

  lemma DrawIsLegal(db: Db, owner: string, now: int, out: seq<Key>, draws: map<Key, nat>)
    requires owner != "" && Distinct(out) && draws.Keys == Elements(out)
    requires forall k | k in out :: Dispatchable(db, owner, now, k)
    requires forall i | 0 <= i < |out| :: draws[out[i]] == db.attempts + i + 1
    ensures Legal(db, Dispatch(owner, now, draws, db.attempts + |out|))
  {
    forall k | k in draws ensures Dispatchable(db, owner, now, k) && db.attempts < draws[k] <= db.attempts + |out| {
      assert k in Elements(out);
    }
    forall k, j | k in draws && j in draws && k != j ensures draws[k] != draws[j] {
      assert k in Elements(out) && j in Elements(out);
    }
  }

  /** `unique` lists one completion per request among the first `n`, found through `position`. */
  ghost predicate Tallied(cs: seq<Completion>, n: nat, first: map<Key, nat>, position: map<Key, nat>,
                          unique: seq<Completion>)
    requires n <= |cs|
  {
    && first == Best(cs, n) && position.Keys == first.Keys
    && (forall k | k in position :: position[k] < |unique| && unique[position[k]] == cs[first[k]])
    && (forall k, j | k in position && j in position && k != j :: position[k] != position[j])
  }

  /** Counts in one more completion: a higher attempt replaces the one kept, and is then the first of its kind. */
  method Tally(cs: seq<Completion>, i: nat, first: map<Key, nat>, position: map<Key, nat>, unique: seq<Completion>)
    returns (first': map<Key, nat>, position': map<Key, nat>, unique': seq<Completion>)
    requires i < |cs| && Tallied(cs, i, first, position, unique)
    ensures Tallied(cs, i + 1, first', position', unique')
  {
    var c := cs[i];
    first', position', unique' := first, position, unique;
    if c.key in position {
      if c.attempt > unique[position[c.key]].attempt {
        unique' := unique[position[c.key] := c];
        first' := first[c.key := i];
      }
    } else {
      first' := first[c.key := i];
      position' := position[c.key := |unique|];
      unique' := unique + [c];
    }
  }

  /** Keeps, of every request, the first completion with the highest attempt. */
  method Dedupe(cs: seq<Completion>) returns (first: map<Key, nat>, input: map<Key, Completion>)
    ensures first == BestOf(cs) && input == Deduped(cs)
  {
    first := map[];
    var position: map<Key, nat> := map[];
    var unique: seq<Completion> := [];
    for i := 0 to |cs|
      invariant Tallied(cs, i, first, position, unique)
    {
      first, position, unique := Tally(cs, i, first, position, unique);
    }
    input := map k | k in position :: unique[position[k]];
  }

  /** One flag per completion: the returned keys mark the completion kept for them. */
  method Flags(cs: seq<Completion>, first: map<Key, nat>, done: set<Key>) returns (acked: seq<bool>)
    requires first == BestOf(cs) && done <= first.Keys
    ensures |acked| == |cs|
    ensures forall i | 0 <= i < |cs| :: acked[i] <==> cs[i].key in done && first[cs[i].key] == i
  {
    acked := seq(|cs|, _ => false);
    var left := done;
    while left != {}
      invariant left <= done && |acked| == |cs|
      invariant forall i | 0 <= i < |cs| :: acked[i] <==> cs[i].key in done - left && first[cs[i].key] == i
      decreases left
    {
      var k :| k in left;
      assert IsBest(cs, |cs|, k, first[k]);
      acked := acked[first[k] := true];
      left := left - {k};
    }
  }

  lemma FlagsAreBatch(db: Db, owner: string, cs: seq<Completion>, acked: seq<bool>)
    requires owner != "" && |acked| == |cs|
    requires forall i | 0 <= i < |cs| ::
      acked[i] <==> cs[i].key in Acked(db, owner, Deduped(cs)) && BestOf(cs)[cs[i].key] == i
    ensures acked == BatchFlags(db, owner, cs)
  {
    forall i | 0 <= i < |cs| ensures acked[i] == BatchFlags(db, owner, cs)[i] {
      if BestOf(cs)[cs[i].key] == i {
        assert Deduped(cs)[cs[i].key] == cs[i];
      }
    }
  }

  /** The first occurrences among the first `n` stamps, in order. */
  function FirstOnes(stamps: seq<Stamp>, n: nat): seq<Stamp>
    requires n <= |stamps|
  {
    if n == 0 then []
    else if stamps[n - 1] in stamps[..n - 1] then FirstOnes(stamps, n - 1)
    else FirstOnes(stamps, n - 1) + [stamps[n - 1]]
  }

  /** The stamps without repetitions, in order of first occurrence. */
  method UniqueStamps(stamps: seq<Stamp>) returns (out: seq<Stamp>)
    ensures Distinct(out) && Elements(out) == Elements(stamps) && out == FirstOnes(stamps, |stamps|)
  {
    var seen: set<Stamp> := {};
    out := [];
    for i := 0 to |stamps|
      invariant seen == Elements(out) == Elements(stamps[..i]) && Distinct(out) && out == FirstOnes(stamps, i)
    {
      assert stamps[..i + 1] == stamps[..i] + [stamps[i]];
      if stamps[i] !in seen {
        assert Elements(out + [stamps[i]]) == Elements(out) + {stamps[i]};
        seen := seen + {stamps[i]};
        out := out + [stamps[i]];
      }
    }
    assert stamps[..|stamps|] == stamps;
  }

  /** The first `limit` unowned or lapsed partitions no other transaction holds, longest lapsed first. */
  method PickPartitions(db: Db, now: int, limit: nat, locked: set<nat>) returns (picked: set<nat>)
    ensures |picked| <= limit && forall p | p in picked :: Takeable(db, now, p) && p !in locked
    ensures forall p | Takeable(db, now, p) && p !in locked && p !in picked ::
      |picked| == limit && forall q | q in picked :: Sooner(db.parts, q, p)
  {
    var le := (a: nat, b: nat) => Sooner(db.parts, a, b);
    var free: set<nat> := set p: nat | p in db.parts && Takeable(db, now, p) && p !in locked;
    var out := First<nat>(free, le, limit);
    picked := Elements(out);
    DistinctCounts(out);
    assert forall p | Takeable(db, now, p) && p !in locked :: p in free;
    assert forall p, q | p in free && p !in picked && q in picked :: le(q, p) && Sooner(db.parts, q, p);
  }

  class Store {
    var db: Db

    constructor ()
      ensures db == EmptyDb
    {
      db := EmptyDb;
    }

    /** Inserts all requests or none of them. */
    method Enqueue(reqs: seq<Request>, createdAt: int) returns (ok: bool)
      modifies this
      ensures ok <==> Insertable(old(db), reqs, |reqs|)
      ensures ok ==> Legal(old(db), SqlTables.Enqueue(RowsOf(reqs, createdAt, |reqs|)))
      ensures db == if ok then Exec(old(db), SqlTables.Enqueue(RowsOf(reqs, createdAt, |reqs|))) else old(db)
    {
      var staged;
      ok, staged := Stage(db, reqs, createdAt);
      if ok {
        RowsOfKeys(reqs, createdAt, |reqs|);
        db := db.(rows := staged);
      }
    }

    /** Stamps up to `limit` pending requests, each with a fresh attempt. */
    method Dispatch(owner: string, now: int, limit: nat, locked: set<Key>) returns (out: seq<Key>, draws: map<Key, nat>)
      requires owner != ""
      modifies this
      ensures draws.Keys == Elements(out) && Distinct(out) && |out| <= limit && InOrder(old(db).rows, out)
      ensures Legal(old(db), SqlTables.Dispatch(owner, now, draws, old(db).attempts + |out|))
      ensures db == Exec(old(db), SqlTables.Dispatch(owner, now, draws, old(db).attempts + |out|))
      ensures forall k | Dispatchable(old(db), owner, now, k) && k !in locked && k !in draws ::
        |out| == limit && forall x | x in out :: Before(old(db).rows, x, k)
    {
      out := PickRows(db, owner, now, limit, locked);
      draws := Draw(out, db.attempts);
      DrawIsLegal(db, owner, now, out, draws);
      assert forall k | k in out :: k in Elements(out);
      db := Exec(db, SqlTables.Dispatch(owner, now, draws, db.attempts + |out|));
    }

    /** Deletes each request and records its result; duplicates of a request keep the highest attempt. */
    method Ack(owner: string, cs: seq<Completion>) returns (acked: seq<bool>)
      requires owner != ""
      modifies this
      ensures db == Batch(old(db), owner, cs).0 && acked == Batch(old(db), owner, cs).1
    {
      var first, input := Dedupe(cs);
      acked := Flags(cs, first, Acked(db, owner, input));
      FlagsAreBatch(db, owner, cs, acked);
      db := Exec(db, SqlTables.Ack(owner, input));
    }

    /** Returns dispatched requests to pending, held back until `notBefore`. */
    method Undispatch(owner: string, stamps: seq<Stamp>, notBefore: int)
      modifies this
      ensures db == Exec(old(db), SqlTables.Undispatch(owner, Elements(stamps), notBefore))
    {
      var unique := UniqueStamps(stamps);
      if |unique| == 0 {
        assert Elements(stamps) == {};
        assert (map k | k in db.rows :: db.rows[k]) == db.rows;
        return;
      }
      db := Exec(db, SqlTables.Undispatch(owner, Elements(unique), notBefore));
    }

    /** Takes unowned or lapsed partitions and bumps their epochs. */
    method AcquirePartitions(owner: string, now: int, expires: int, limit: nat, locked: set<nat>)
      returns (acquired: map<nat, nat>)
      requires owner != ""
      modifies this
      ensures |acquired| <= limit
      ensures Legal(old(db), Acquire(owner, now, expires, acquired.Keys))
      ensures db == Exec(old(db), Acquire(owner, now, expires, acquired.Keys))
      ensures forall p | p in acquired :: acquired[p] == old(db).parts[p].epoch + 1
      ensures forall p | Takeable(old(db), now, p) && p !in locked && p !in acquired ::
        |acquired| == limit && forall q | q in acquired :: Sooner(old(db).parts, q, p)
    {
      var picked := PickPartitions(db, now, limit, locked);
      acquired := map p | p in picked :: db.parts[p].epoch + 1;
      assert acquired.Keys == picked;
      db := Exec(db, Acquire(owner, now, expires, picked));
    }
  }
}
