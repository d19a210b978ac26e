/**
 Batched acknowledgement: one statement for a list of completions, after keeping the
 highest attempt of every request, against acknowledging the list one by one.
 */
module SqlAck {
  import opened SqlTables
  import opened SqlFencing

  /** `i` is the first of the first `n` completions for `k` to carry the highest attempt among them. */
  ghost predicate IsBest(cs: seq<Completion>, n: nat, k: Key, i: nat)
    requires n <= |cs|
  {
    && i < n && cs[i].key == k
    && (forall j | 0 <= j < n && cs[j].key == k :: cs[j].attempt <= cs[i].attempt)
    && (forall j | 0 <= j < i && cs[j].key == k :: cs[j].attempt < cs[i].attempt)
  }

  /** The completion kept for every request among the first `n`. */
  function Best(cs: seq<Completion>, n: nat): (b: map<Key, nat>)
    requires n <= |cs|
    ensures forall k | k in b :: b[k] < n
  {
    if n == 0 then map[]
    else
      var b := Best(cs, n - 1);
      var c := cs[n - 1];
      if c.key in b && c.attempt <= cs[b[c.key]].attempt then b else b[c.key := n - 1]
  }

  lemma {:induction false} BestAt(cs: seq<Completion>, n: nat, k: Key)
    requires n <= |cs| && k in Best(cs, n)
    ensures IsBest(cs, n, k, Best(cs, n)[k])
  {
    if n > 0 {
      if k in Best(cs, n - 1) { BestAt(cs, n - 1, k); } else { BestMisses(cs, n - 1, k); }
    }
  }

  lemma {:induction false} BestMisses(cs: seq<Completion>, n: nat, k: Key)
    requires n <= |cs| && k !in Best(cs, n)
    ensures forall j | 0 <= j < n :: cs[j].key != k
  {
    if n > 0 { BestMisses(cs, n - 1, k); }
  }

  lemma BestIsBest(cs: seq<Completion>, n: nat)
    requires n <= |cs|
    ensures forall k | k in Best(cs, n) :: IsBest(cs, n, k, Best(cs, n)[k])
    ensures forall j | 0 <= j < n :: cs[j].key in Best(cs, n)
  {
    forall k | k in Best(cs, n) ensures IsBest(cs, n, k, Best(cs, n)[k]) { BestAt(cs, n, k); }
    forall j | 0 <= j < n ensures cs[j].key in Best(cs, n) {
      if cs[j].key !in Best(cs, n) { BestMisses(cs, n, cs[j].key); }
    }
  }

  function BestOf(cs: seq<Completion>): (b: map<Key, nat>)
    ensures forall k | k in b :: IsBest(cs, |cs|, k, b[k])
    ensures forall j | 0 <= j < |cs| :: cs[j].key in b
  {
    BestIsBest(cs, |cs|);
    Best(cs, |cs|)
  }

  function Deduped(cs: seq<Completion>): (u: map<Key, Completion>)
    ensures forall k | k in u :: u[k].key == k
  {
    var b := BestOf(cs);
    map k | k in b :: cs[b[k]]
  }

  /** Which completions a batched Ack reports as recorded. */
  function BatchFlags(db: Db, owner: string, cs: seq<Completion>): seq<bool> {
    seq(|cs|, i requires 0 <= i < |cs| => BestOf(cs)[cs[i].key] == i && Ackable(db, owner, cs[i]))
  }

  /** The tables and the flags after one batched Ack. */
  function Batch(db: Db, owner: string, cs: seq<Completion>): (Db, seq<bool>)
    requires owner != ""
  {
    (Exec(db, Ack(owner, Deduped(cs))), BatchFlags(db, owner, cs))
  }

  /** The tables and the flags after acknowledging the first `n` completions one at a time. */
  function OneByOne(db: Db, owner: string, cs: seq<Completion>, n: nat): (r: (Db, seq<bool>))
    requires owner != "" && n <= |cs|
    ensures |r.1| == n
  {
    if n == 0 then (db, [])
    else
      var (d, flags) := OneByOne(db, owner, cs, n - 1);
      (Exec(d, Ack(owner, map[cs[n - 1].key := cs[n - 1]])), flags + [Ackable(d, owner, cs[n - 1])])
  }

  /** No completion is newer than one for the same request that the tables would accept. */
  ghost predicate NoneNewer(db: Db, owner: string, cs: seq<Completion>) {
    forall i, j | 0 <= i < |cs| && 0 <= j < |cs| && cs[i].key == cs[j].key && Ackable(db, owner, cs[i]) ::
      cs[j].attempt <= cs[i].attempt
  }

  /** The first of the first `n` completions for `k` that the tables accept. */
  ghost predicate IsFirst(db: Db, owner: string, cs: seq<Completion>, n: nat, k: Key, i: nat)
    requires n <= |cs|
  {
    && i < n && cs[i].key == k && Ackable(db, owner, cs[i])
    && forall j | 0 <= j < i && cs[j].key == k :: !Ackable(db, owner, cs[j])
  }

  function Firsts(db: Db, owner: string, cs: seq<Completion>, n: nat): (m: map<Key, nat>)
    requires n <= |cs|
    ensures forall k | k in m :: IsFirst(db, owner, cs, n, k, m[k])
    ensures forall j | 0 <= j < n && Ackable(db, owner, cs[j]) :: cs[j].key in m
  {
    if n == 0 then map[]
    else
      var m := Firsts(db, owner, cs, n - 1);
      if Ackable(db, owner, cs[n - 1]) && cs[n - 1].key !in m then m[cs[n - 1].key := n - 1] else m
  }

  function At(cs: seq<Completion>, m: map<Key, nat>): (u: map<Key, Completion>)
    requires forall k | k in m :: m[k] < |cs|
  {
    map k | k in m :: cs[m[k]]
  }

  /** The tables once the requests of `u` are recorded with its completions. */
  function Recorded(db: Db, u: map<Key, Completion>): Db {
    db.(rows := db.rows - u.Keys, results := db.results + Rows(u, u.Keys))
  }

  lemma PickOneMore(u: map<Key, Completion>, c: Completion)
    requires c.key !in u && forall k | k in u :: u[k].key == k
    ensures var v := u[c.key := c];
      Rows(v, v.Keys) == Rows(u, u.Keys) + multiset{c}
  {
    var v := u[c.key := c];
    forall x ensures x in Picked(v, v.Keys) <==> x in Picked(u, u.Keys) + {c} {
      if x in Picked(u, u.Keys) {
        assert v[x.key] == x;
      }
      assert v[c.key] == c;
    }
    assert Picked(v, v.Keys) == Picked(u, u.Keys) + {c};
    assert c !in Picked(u, u.Keys);
  }

  lemma RecordAccepted(db: Db, owner: string, u: map<Key, Completion>, c: Completion)
    requires owner != "" && (forall k | k in u :: u[k].key == k) && Ackable(db, owner, c) && c.key !in u
    ensures Ackable(Recorded(db, u), owner, c)
    ensures Exec(Recorded(db, u), Ack(owner, map[c.key := c])) == Recorded(db, u[c.key := c])
  {
    var d := Recorded(db, u);
    var one := map[c.key := c];
    PickOneMore(u, c);
    assert Acked(d, owner, one) == {c.key};
    assert Picked(one, {c.key}) == {c};
    assert d.rows - {c.key} == db.rows - (u[c.key := c]).Keys;
  }

  lemma RecordRefused(d: Db, owner: string, c: Completion)
    requires owner != "" && !Ackable(d, owner, c)
    ensures Exec(d, Ack(owner, map[c.key := c])) == d
  {
    var one := map[c.key := c];
    assert Acked(d, owner, one) == {};
    assert Picked(one, {}) == {};
    assert d.rows - {} == d.rows;
  }

  lemma RecordOneMore(db: Db, owner: string, u: map<Key, Completion>, c: Completion)
    requires owner != "" && forall k | k in u :: u[k].key == k
    ensures Ackable(Recorded(db, u), owner, c) <==> Ackable(db, owner, c) && c.key !in u
    ensures Exec(Recorded(db, u), Ack(owner, map[c.key := c])) ==
      if Ackable(db, owner, c) && c.key !in u then Recorded(db, u[c.key := c]) else Recorded(db, u)
  {
    if Ackable(db, owner, c) && c.key !in u {
      RecordAccepted(db, owner, u, c);
    } else {
      RecordRefused(Recorded(db, u), owner, c);
    }
  }

  /** The completions recorded among the first `n`. */
  function Kept(db: Db, owner: string, cs: seq<Completion>, n: nat): (u: map<Key, Completion>)
    requires n <= |cs|
    ensures forall k | k in u :: u[k].key == k
  {
    At(cs, Firsts(db, owner, cs, n))
  }

  lemma KeepOneMore(db: Db, owner: string, cs: seq<Completion>, n: nat)
    requires n < |cs|
    ensures var u, c := Kept(db, owner, cs, n), cs[n];
      Kept(db, owner, cs, n + 1) == if Ackable(db, owner, c) && c.key !in u then u[c.key := c] else u
  {
  }

  lemma {:induction false} OneByOneTables(db: Db, owner: string, cs: seq<Completion>, n: nat)
    requires owner != "" && n <= |cs|
    ensures OneByOne(db, owner, cs, n).0 == Recorded(db, Kept(db, owner, cs, n))
  {
    if n == 0 {
      RecordNothing(db);
    } else {
      OneByOneTables(db, owner, cs, n - 1);
      KeepOneMore(db, owner, cs, n - 1);
      RecordOneMore(db, owner, Kept(db, owner, cs, n - 1), cs[n - 1]);
    }
  }

  lemma RecordNothing(db: Db)
    ensures Recorded(db, map[]) == db
  {
    assert db.rows - {} == db.rows;
  }

  lemma {:induction false} OneByOneFlags(db: Db, owner: string, cs: seq<Completion>, n: nat, i: nat)
    requires owner != "" && i < n <= |cs|
    ensures OneByOne(db, owner, cs, n).1[i] <==> IsFirst(db, owner, cs, |cs|, cs[i].key, i)
  {
    if i < n - 1 {
      OneByOneFlags(db, owner, cs, n - 1, i);
    } else {
      OneByOneTables(db, owner, cs, n - 1);
      RecordOneMore(db, owner, Kept(db, owner, cs, n - 1), cs[i]);
    }
  }

  lemma BestIsFirst(db: Db, owner: string, cs: seq<Completion>, i: nat)
    requires NoneNewer(db, owner, cs) && i < |cs| && Ackable(db, owner, cs[i])
    ensures IsFirst(db, owner, cs, |cs|, cs[i].key, BestOf(cs)[cs[i].key])
  {
    var b := BestOf(cs)[cs[i].key];
    assert IsBest(cs, |cs|, cs[i].key, b);
    assert cs[b].attempt == cs[i].attempt;
  }

  lemma FirstIsUnique(db: Db, owner: string, cs: seq<Completion>, k: Key, i: nat, j: nat)
    requires IsFirst(db, owner, cs, |cs|, k, i) && IsFirst(db, owner, cs, |cs|, k, j)
    ensures i == j
  {
  }

  lemma BatchFlagsAreFirsts(db: Db, owner: string, cs: seq<Completion>)
    requires owner != "" && NoneNewer(db, owner, cs)
    ensures Batch(db, owner, cs).1 == OneByOne(db, owner, cs, |cs|).1
  {
    forall i | 0 <= i < |cs|
      ensures Batch(db, owner, cs).1[i] == OneByOne(db, owner, cs, |cs|).1[i]
    {
      OneByOneFlags(db, owner, cs, |cs|, i);
      if Ackable(db, owner, cs[i]) {
        BestIsFirst(db, owner, cs, i);
      }
    }
  }

  lemma KeptIsDeduped(db: Db, owner: string, cs: seq<Completion>, k: Key)
    requires NoneNewer(db, owner, cs) && k in Kept(db, owner, cs, |cs|)
    ensures k in Deduped(cs) && Deduped(cs)[k] == Kept(db, owner, cs, |cs|)[k] && Ackable(db, owner, Deduped(cs)[k])
  {
    var i := Firsts(db, owner, cs, |cs|)[k];
    assert IsFirst(db, owner, cs, |cs|, k, i);
    BestIsFirst(db, owner, cs, i);
    FirstIsUnique(db, owner, cs, k, i, BestOf(cs)[k]);
  }

  lemma BatchRecordsKept(db: Db, owner: string, cs: seq<Completion>)
    requires NoneNewer(db, owner, cs)
    ensures var u, v := Kept(db, owner, cs, |cs|), Deduped(cs);
      Acked(db, owner, v) == u.Keys && Rows(v, u.Keys) == Rows(u, u.Keys)
  {
    var u, v := Kept(db, owner, cs, |cs|), Deduped(cs);
    forall k | k in u ensures k in v && v[k] == u[k] && Ackable(db, owner, v[k]) {
      KeptIsDeduped(db, owner, cs, k);
    }
    forall k | k in Acked(db, owner, v) ensures k in u {
      assert IsBest(cs, |cs|, k, BestOf(cs)[k]);
    }
    assert Picked(v, u.Keys) == Picked(u, u.Keys);
  }

  lemma BatchTables(db: Db, owner: string, cs: seq<Completion>)
    requires owner != "" && NoneNewer(db, owner, cs)
    ensures Batch(db, owner, cs).0 == Recorded(db, Kept(db, owner, cs, |cs|))
  {
    BatchRecordsKept(db, owner, cs);
  }

  lemma NewerIsLost(db: Db, owner: string, cs: seq<Completion>, i: nat, j: nat)
    requires owner != "" && i < |cs| && j < |cs| && cs[i].key == cs[j].key
    requires Ackable(db, owner, cs[i]) && cs[i].attempt < cs[j].attempt
    ensures Batch(db, owner, cs).1 != OneByOne(db, owner, cs, |cs|).1
  {
    var f := Firsts(db, owner, cs, |cs|)[cs[i].key];
    assert IsFirst(db, owner, cs, |cs|, cs[i].key, f);
    OneByOneFlags(db, owner, cs, |cs|, f);
    assert IsBest(cs, |cs|, cs[i].key, BestOf(cs)[cs[i].key]);
    assert !Batch(db, owner, cs).1[f];
  }

  /** One batched statement equals acknowledging in order exactly when no completion is newer than an acceptable one. */
  lemma BatchIsOneByOne(db: Db, owner: string, cs: seq<Completion>)
    requires owner != ""
    ensures Batch(db, owner, cs) == OneByOne(db, owner, cs, |cs|) <==> NoneNewer(db, owner, cs)
  {
    if NoneNewer(db, owner, cs) {
      BatchFlagsAreFirsts(db, owner, cs);
      BatchTables(db, owner, cs);
      OneByOneTables(db, owner, cs, |cs|);
    } else {
      var i, j :| 0 <= i < |cs| && 0 <= j < |cs| && cs[i].key == cs[j].key && Ackable(db, owner, cs[i])
          && cs[i].attempt < cs[j].attempt;
      NewerIsLost(db, owner, cs, i, j);
    }
  }

  /** The completion names a dispatch the tables really made. */
  ghost predicate WasIssued(log: Log, key: Key, attempt: nat) {
    exists i :: i in log.issued && i.key == key && i.attempt == attempt
  }

  /** After any statements at all, completions of real dispatches may be batched freely. */
  lemma IssuedCompletionsBatch(sts: seq<Stmt>, owner: string, cs: seq<Completion>)
    requires owner != ""
    requires forall c | c in cs :: WasIssued(Run(Start, sts).log, c.key, c.attempt)
    ensures Batch(Run(Start, sts).db, owner, cs) == OneByOne(Run(Start, sts).db, owner, cs, |cs|)
  {
    var h := Run(Start, sts);
    RunKeeps(Start, sts);
    assert NoneNewer(h.db, owner, cs);
    BatchIsOneByOne(h.db, owner, cs);
  }
}
