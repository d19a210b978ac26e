/**
 One dispatcher's side of the claim protocol: the scripts run on the queue's keys, and the handles it
 keeps for its claims.
 */
module ClaimFlow {
  import opened Calls
  import opened Claims
  import opened Ordering

  const RECLAIM_BATCH: nat := 100

  datatype Handle = Handle(token: string, deadline: int)

  /** The score a redelivery uses: the one of the stored request, or zero when none is found. */
  function ReadScore(k: Keys, id: string): int {
    if id in k.claimed && k.claimed[id].Member? then k.claimed[id].score else 0
  }

  function Redeliver(k: Keys, ids: seq<string>, n: nat, now: int): Keys
    requires n <= |ids|
  {
    if n == 0 then k
    else
      var k' := Redeliver(k, ids, n - 1, now);
      Reclaim(k', ids[n - 1], ReadScore(k', ids[n - 1]), now).0
  }

  /** Every claim holds a request of its own generation under one owner and one lease. */
  ghost predicate Tidy(k: Keys) {
    && Aligned(k)
    && (forall id | id in k.claimed :: k.claimed[id].Member? && k.claimed[id].gen == id)
  }

  lemma MatchedIsTidy(w: World)
    requires Matched(w)
    ensures Tidy(w.keys)
  {
    forall id | id in w.keys.claimed ensures w.keys.claimed[id].Member? && w.keys.claimed[id].gen == id {
      assert Latest(w.keys, w.made, id);
    }
  }

  ghost predicate Expired(k: Keys, ids: seq<string>, now: int) {
    Distinct(ids) && forall id | id in ids :: id in k.idx && k.idx[id] <= now
  }

  /** Redelivering lapsed claims frees exactly those claims. */
  lemma {:induction false} RedeliverDrops(k: Keys, ids: seq<string>, n: nat, now: int)
    requires n <= |ids| && Aligned(k) && Expired(k, ids, now)
    ensures var k', gone := Redeliver(k, ids, n, now), Elements(ids[..n]);
      k'.claimed == k.claimed - gone && k'.owners == k.owners - gone && k'.idx == k.idx - gone && k'.retry == k.retry
  {
    if n > 0 {
      RedeliverDrops(k, ids, n - 1, now);
      assert Elements(ids[..n]) == Elements(ids[..n - 1]) + {ids[n - 1]};
      StillThere(k, ids, n - 1, now);
    } else {
      assert Elements(ids[..n]) == {};
    }
  }

  /** The claim about to be redelivered is still there, still lapsed. */
  lemma StillThere(k: Keys, ids: seq<string>, i: nat, now: int)
    requires i < |ids| && Aligned(k) && Expired(k, ids, now)
    requires var k', gone := Redeliver(k, ids, i, now), Elements(ids[..i]);
      k'.claimed == k.claimed - gone && k'.idx == k.idx - gone
    ensures var k', id := Redeliver(k, ids, i, now), ids[i];
      id in k.claimed && id in k'.claimed && k'.claimed[id] == k.claimed[id] && id in k'.idx && k'.idx[id] <= now
  {
    assert ids[i] in ids && ids[i] !in Elements(ids[..i]);
    assert ids[i] in k.idx.Keys;
  }

  /** The request of one of these claims. */
  predicate Among(k: Keys, ids: seq<string>, m: Member) {
    m.Member? && m.gen in ids && m.gen in k.claimed && k.claimed[m.gen] == m
  }

  lemma AmongOneMore(k: Keys, ids: seq<string>, n: nat, m: Member)
    requires 0 < n <= |ids| && Tidy(k) && ids[n - 1] in k.claimed
    ensures Among(k, ids[..n], m) <==> Among(k, ids[..n - 1], m) || m == k.claimed[ids[n - 1]]
  {
    assert ids[..n] == ids[..n - 1] + [ids[n - 1]];
  }

  lemma RedeliverOne(k: Keys, ids: seq<string>, n: nat, now: int)
    requires 0 < n <= |ids| && Tidy(k) && Expired(k, ids, now)
    ensures var id := ids[n - 1];
      && id in k.claimed && k.claimed[id].Member?
      && Redeliver(k, ids, n, now).pending ==
          Redeliver(k, ids, n - 1, now).pending[k.claimed[id] := k.claimed[id].score]
  {
    RedeliverDrops(k, ids, n - 1, now);
    StillThere(k, ids, n - 1, now);
  }

  /** Every redelivered request is back in pending at its own score; whatever else is pending was pending before. */
  lemma {:induction false} RedeliverRestores(k: Keys, ids: seq<string>, n: nat, now: int, m: Member)
    requires n <= |ids| && Tidy(k) && Expired(k, ids, now)
    ensures var after := Redeliver(k, ids, n, now).pending;
      if Among(k, ids[..n], m) then m in after && after[m] == m.score
      else (m in after <==> m in k.pending) && (m in after ==> after[m] == k.pending[m])
  {
    if n > 0 {
      RedeliverRestores(k, ids, n - 1, now, m);
      RedeliverOne(k, ids, n, now);
      AmongOneMore(k, ids, n, m);
    }
  }

  /** The redelivery steps of the protocol for the first `n` claims of a batch. */
  function ReclaimSteps(k: Keys, ids: seq<string>, n: nat, now: int): seq<Step>
    requires n <= |ids|
  {
    if n == 0 then []
    else
      ReclaimSteps(k, ids, n - 1, now) +
      [Reclaiming(ids[n - 1], ReadScore(Redeliver(k, ids, n - 1, now), ids[n - 1]), now)]
  }

  /** A redelivery pass is a run of the protocol. */
  lemma {:induction false} RedeliverIsRun(w: World, ids: seq<string>, n: nat, now: int)
    requires n <= |ids|
    ensures Run(w, ReclaimSteps(w.keys, ids, n, now)) == w.(keys := Redeliver(w.keys, ids, n, now))
  {
    if n > 0 {
      RedeliverIsRun(w, ids, n - 1, now);
      var score := ReadScore(Redeliver(w.keys, ids, n - 1, now), ids[n - 1]);
      RunSnoc(w, ReclaimSteps(w.keys, ids, n - 1, now), Reclaiming(ids[n - 1], score, now));
    }
  }

  /**
   After any run, redelivering claims whose lease lapsed frees exactly those, puts each request back
   at its own score, leaves the rest of pending alone, and is itself a run.
   */
  lemma RedeliveredInEveryRun(steps: seq<Step>, ids: seq<string>, now: int, m: Member)
    requires Expired(Run(Start, steps).keys, ids, now)
    ensures var w := Run(Start, steps);
      var k := Redeliver(w.keys, ids, |ids|, now);
      && Run(w, ReclaimSteps(w.keys, ids, |ids|, now)).keys == k
      && k.claimed == w.keys.claimed - Elements(ids) && k.owners == w.keys.owners - Elements(ids)
      && (if Among(w.keys, ids, m) then m in k.pending && k.pending[m] == m.score
          else (m in k.pending <==> m in w.keys.pending) && (m in k.pending ==> k.pending[m] == w.keys.pending[m]))
  {
    RunKeeps(Start, steps);
    var w := Run(Start, steps);
    MatchedIsTidy(w);
    RedeliverIsRun(w, ids, |ids|, now);
    RedeliverDrops(w.keys, ids, |ids|, now);
    RedeliverRestores(w.keys, ids, |ids|, now, m);
    assert ids[..|ids|] == ids;
  }

  /** How the calls of a redelivery pass end, and what others do before its reads and before its scripts. */
  datatype Surround = Surround(list: Fault, fetches: nat -> Fault, scripts: nat -> Fault,
                               beforeRead: (nat, Keys) -> Keys, beforeScript: (nat, Keys) -> Keys)

  /** Where a redelivery pass stands: the keys, the claims it released, and whether a call failed. */
  datatype Pass = Pass(keys: Keys, released: nat, err: bool)

  /** Reads one claim's request for its score, then runs the script; the first call that fails ends the pass. */
  function PassOne(p: Pass, id: string, now: int, i: nat, c: Surround): Pass {
    var read := c.beforeRead(i, p.keys);
    if c.fetches(i) != Ok then Pass(read, p.released, true)
    else
      var k := c.beforeScript(i, read);
      var (done, ok) := Reclaim(k, id, ReadScore(read, id), now);
      if c.scripts(i) == Ok then Pass(done, p.released + if ok then 1 else 0, false)
      else Pass(if c.scripts(i) == Lost then done else k, p.released, true)
  }

  function PassAll(k: Keys, ids: seq<string>, n: nat, now: int, c: Surround): Pass
    requires n <= |ids|
  {
    if n == 0 then Pass(k, 0, false)
    else
      var p := PassAll(k, ids, n - 1, now, c);
      if p.err then p else PassOne(p, ids[n - 1], now, n - 1, c)
  }

  /** A call that failed ended the pass. */
  lemma {:induction false} EndedPass(k: Keys, ids: seq<string>, n: nat, now: int, c: Surround)
    requires n <= |ids| && (n == |ids| || PassAll(k, ids, n, now, c).err)
    ensures PassAll(k, ids, |ids|, now, c) == PassAll(k, ids, n, now, c)
    decreases |ids| - n
  {
    if n < |ids| { EndedPass(k, ids, n + 1, now, c); }
  }

  /** No call of the first `n` claims fails and nobody is in between. */
  ghost predicate Quiet(c: Surround, n: nat) {
    && (forall i: nat | i < n :: c.fetches(i) == c.scripts(i) == Ok)
    && (forall i: nat, k: Keys | i < n :: c.beforeRead(i, k) == k)
    && (forall i: nat, k: Keys | i < n :: c.beforeScript(i, k) == k)
  }

  /** A pass left alone redelivers its whole batch and counts every claim of it. */
  lemma {:induction false} QuietPassRedelivers(k: Keys, ids: seq<string>, n: nat, now: int, c: Surround)
    requires n <= |ids| && Aligned(k) && Expired(k, ids, now) && Quiet(c, n)
    ensures PassAll(k, ids, n, now, c) == Pass(Redeliver(k, ids, n, now), n, false)
  {
    if n > 0 {
      QuietPassRedelivers(k, ids, n - 1, now, c);
      RedeliverDrops(k, ids, n - 1, now);
      StillThere(k, ids, n - 1, now);
    }
  }

  /** One claim's share of a pass in the protocol, with the steps others take before its calls. */
  ghost function PassStep(w: World, id: string, now: int, i: nat, c: Surround, before: nat -> seq<Step>,
                          between: nat -> seq<Step>): World
  {
    var read := Run(w, before(i));
    if c.fetches(i) != Ok then read
    else if c.scripts(i) == Failed then Run(read, between(i))
    else Next(Run(read, between(i)), Reclaiming(id, ReadScore(read.keys, id), now))
  }

  /** What others do around the i-th claim of a pass is what their steps do, and the pass goes on from there. */
  ghost predicate Goes(v: nat -> World, k: Keys, ids: seq<string>, i: nat, now: int, c: Surround,
                       before: nat -> seq<Step>, between: nat -> seq<Step>)
    requires i < |ids|
  {
    && c.beforeRead(i, v(i).keys) == Run(v(i), before(i)).keys
    && c.beforeScript(i, Run(v(i), before(i)).keys) == Run(Run(v(i), before(i)), between(i)).keys
    && v(i + 1) == if PassAll(k, ids, i, now, c).err then v(i) else PassStep(v(i), ids[i], now, i, c, before, between)
  }

  /**
   However its calls end and whatever steps others take in between, a pass leaves the keys of a run
   of the protocol, so it loses nothing.
   */
  lemma {:induction false} PassIsRun(v: nat -> World, ids: seq<string>, n: nat, now: int, c: Surround,
                                     before: nat -> seq<Step>, between: nat -> seq<Step>)
    returns (steps: seq<Step>)
    requires n <= |ids| && forall i: nat | i < n :: Goes(v, v(0).keys, ids, i, now, c, before, between)
    ensures Run(v(0), steps) == v(n) && v(n).keys == PassAll(v(0).keys, ids, n, now, c).keys
  {
    if n == 0 {
      steps := [];
    } else {
      var m: nat := n - 1;
      steps := PassIsRun(v, ids, m, now, c, before, between);
      assert Goes(v, v(0).keys, ids, m, now, c, before, between);
      var p := PassAll(v(0).keys, ids, m, now, c);
      if !p.err {
        var more := PassStepIsRun(v(m), p, ids[m], now, m, c, before, between);
        RunJoins(v(0), steps, more);
        steps := steps + more;
      }
    }
  }

  lemma PassStepIsRun(w: World, p: Pass, id: string, now: int, i: nat, c: Surround, before: nat -> seq<Step>,
                      between: nat -> seq<Step>)
    returns (steps: seq<Step>)
    requires p.keys == w.keys && c.beforeRead(i, w.keys) == Run(w, before(i)).keys
    requires c.beforeScript(i, Run(w, before(i)).keys) == Run(Run(w, before(i)), between(i)).keys
    ensures Run(w, steps) == PassStep(w, id, now, i, c, before, between)
    ensures Run(w, steps).keys == PassOne(p, id, now, i, c).keys
  {
    var read := Run(w, before(i));
    steps := before(i);
    if c.fetches(i) == Ok {
      RunJoins(w, before(i), between(i));
      steps := before(i) + between(i);
      if c.scripts(i) != Failed {
        var st := Reclaiming(id, ReadScore(read.keys, id), now);
        RunSnoc(w, steps, st);
        steps := steps + [st];
      }
    }
  }

  /**
   What an acknowledgement did: the keys, whether a record went out, what it reports, and whether its
   handle is dropped.
   */
  datatype Acking = Acking(keys: Keys, out: bool, pushed: bool, err: bool, forgets: bool)

  /** The one-script acknowledgement; an error keeps the handle so that the caller may retry. */
  function AckAtOnce(k: Keys, id: string, token: string, call: Fault): Acking {
    var (k', ok) := Claims.Ack(k, id, token);
    if call == Failed then Acking(k, false, false, true, false)
    else if call == Lost then Acking(k', ok, false, true, false)
    else Acking(k', ok, ok, false, true)
  }

  /** What others do between the calls of the three-step acknowledgement, and how its calls end. */
  datatype Around = Around(fence: Fault, push: Fault, drop: Fault, afterFence: Keys -> Keys, afterPush: Keys -> Keys)

  /** The three-step acknowledgement: renew under the owner fence, push, drop the claim. */
  function AckInSteps(k: Keys, id: string, token: string, expiry: int, a: Around): Acking {
    var (fenced, res) := Renew(k, id, token, expiry);
    if a.fence != Ok then Acking(if a.fence == Failed then k else fenced, false, false, true, false)
    else if res != Extended then Acking(k, false, false, false, true)
    else
      var between := a.afterFence(fenced);
      if a.push != Ok then Acking(between, a.push == Lost, false, true, false)
      else
        var last := a.afterPush(between);
        Acking(if a.drop == Failed then last else DropClaim(last, id, token).0, true, true, false, true)
  }

  /** With no call failing and nobody in between, the two ways agree. */
  lemma TwoWaysAgree(k: Keys, id: string, token: string, expiry: int)
    requires Aligned(k) && token != ""
    ensures AckInSteps(k, id, token, expiry, Around(Ok, Ok, Ok, x => x, x => x)) == AckAtOnce(k, id, token, Ok)
  {
    if Owned(k, id, token) {
      assert k.idx[id := expiry] - {id} == k.idx - {id};
    }
  }

  class Flow {
    var pending: map<Member, int>
    var claimed: map<string, Member>
    var owners: map<string, string>
    var idx: map<string, int>
    var retry: map<Member, int>
    var results: seq<string>
    var handles: map<string, Handle>

    function View(): Keys
      reads this
    {
      Keys(pending, claimed, owners, idx, retry)
    }

    /**
     Claims a peeked request; on success a handle proves the ownership. A claim whose reply was lost
     stands without a handle until it lapses.
     */
    method ClaimRequest(m: Member, deadline: int, token: string, now: int, ttl: int, call: Fault)
      returns (ok: bool, err: bool)
      requires m.Member?
      modifies this
      ensures var (k, won) := Claim(old(View()), m.gen, m, token, ClaimExpiry(now, ttl, deadline));
        View() == (if call == Failed then old(View()) else k) && err == (call != Ok) && ok == (call == Ok && won)
      ensures handles == if ok then old(handles)[m.gen := Handle(token, deadline)] else old(handles)
      ensures results == old(results)
    {
      if call != Failed && m in pending {
        pending := pending - {m};
        claimed := claimed[m.gen := m];
        owners := owners[m.gen := token];
        idx := idx[m.gen := ClaimExpiry(now, ttl, deadline)];
        ok := true;
      } else {
        ok := false;
      }
      if call != Ok {
        return false, true;
      }
      if ok {
        handles := handles[m.gen := Handle(token, deadline)];
      }
      err := false;
    }

    method DropKeys(id: string)
      modifies this`claimed, this`owners, this`idx
      ensures View() == Drop(old(View()), id)
    {
      claimed := claimed - {id};
      owners := owners - {id};
      idx := idx - {id};
    }

    /** Hands a claim back; the handle goes whether or not it was still good, unless the call failed. */
    method ReleaseClaim(id: string, m: Member, score: int, token: string, call: Fault) returns (err: bool)
      modifies this
      ensures View() == if call == Failed then old(View()) else Release(old(View()), id, m, score, token).0
      ensures err == (call != Ok) && handles == (if err then old(handles) else old(handles) - {id})
      ensures results == old(results)
    {
      if call != Failed && id in owners && owners[id] == token {
        pending := pending[m := score];
        DropKeys(id);
      }
      err := call != Ok;
      if !err {
        handles := handles - {id};
      }
    }

    method SetKeys(k: Keys)
      modifies this`pending, this`claimed, this`owners, this`idx, this`retry
      ensures View() == k
    {
      pending, claimed, owners, idx, retry := k.pending, k.claimed, k.owners, k.idx, k.retry;
    }

    method RenewKeys(id: string, token: string, expiry: int) returns (res: Renewed)
      modifies this`idx
      ensures (View(), res) == Renew(old(View()), id, token, expiry)
    {
      if !(id in owners && owners[id] == token) {
        return if id in claimed then Stolen else Missing;
      }
      idx := idx[id := expiry];
      return Extended;
    }

    /** What the flow shows after an acknowledgement. */
    ghost predicate Shows(a: Acking, id: string, result: string, results0: seq<string>, handles0: map<string, Handle>,
                          pushed: bool, err: bool)
      reads this
    {
      && View() == a.keys && pushed == a.pushed && err == a.err
      && results == (if a.out then [result] else []) + results0
      && handles == if a.forgets then handles0 - {id} else handles0
    }

    method AckInOneScript(id: string, result: string, token: string, call: Fault) returns (pushed: bool, err: bool)
      modifies this
      ensures Shows(AckAtOnce(old(View()), id, token, call), id, result, old(results), old(handles), pushed, err)
    {
      if call == Failed {
        return false, true;
      }
      var ok := id in owners && owners[id] == token && token != "";
      if ok {
        results := [result] + results;
        DropKeys(id);
      }
      if call == Lost {
        return false, true;
      }
      handles := handles - {id};
      return ok, false;
    }

    /** The push and the drop, once the fence held. */
    method PushAndDrop(id: string, result: string, token: string, a: Around) returns (pushed: bool, err: bool)
      modifies this
      ensures if a.push != Ok then View() == old(View()) && !pushed && err && handles == old(handles)
              else
                var last := a.afterPush(old(View()));
                && View() == (if a.drop == Failed then last else DropClaim(last, id, token).0)
                && pushed && !err && handles == old(handles) - {id}
      ensures results == (if a.push == Failed then [] else [result]) + old(results)
    {
      if a.push != Failed {
        results := [result] + results;
      }
      if a.push != Ok {
        return false, true;
      }
      handles := handles - {id};
      SetKeys(a.afterPush(View()));
      if a.drop != Failed && id in owners && owners[id] == token {
        DropKeys(id);
      }
      return true, false;
    }

    /** Renews the lease under the owner fence, pushes, then drops the claim. */
    method AckInThreeSteps(id: string, result: string, token: string, expiry: int, a: Around)
      returns (pushed: bool, err: bool)
      modifies this
      ensures Shows(AckInSteps(old(View()), id, token, expiry, a), id, result, old(results), old(handles), pushed, err)
    {
      if a.fence == Failed {
        return false, true;
      }
      var res := RenewKeys(id, token, expiry);
      if a.fence != Ok {
        return false, true;
      }
      if res != Extended {
        handles := handles - {id};
        return false, false;
      }
      SetKeys(a.afterFence(View()));
      pushed, err := PushAndDrop(id, result, token, a);
    }

    /** Records a terminal result with this flow's handle, or with none, which no claim accepts. */
    method AckResult(id: string, result: string, sameSlot: bool, now: int, ttl: int, call: Fault, a: Around)
      returns (pushed: bool, err: bool)
      modifies this
      ensures var h := if id in old(handles) then old(handles)[id] else Handle("", 0);
        var done := if sameSlot then AckAtOnce(old(View()), id, h.token, call)
                    else AckInSteps(old(View()), id, h.token, ClaimExpiry(now, ttl, h.deadline), a);
        Shows(done, id, result, old(results), old(handles), pushed, err)
    {
      var h := if id in handles then handles[id] else Handle("", 0);
      if sameSlot {
        pushed, err := AckInOneScript(id, result, h.token, call);
      } else {
        pushed, err := AckInThreeSteps(id, result, h.token, ClaimExpiry(now, ttl, h.deadline), a);
      }
    }

    /** The claims that lapsed first, up to a batch of them. */
    method LapsedBatch(now: int) returns (ids: seq<string>)
      ensures Expired(View(), ids, now) && |ids| <= RECLAIM_BATCH
      ensures forall id | id in idx && idx[id] <= now && id !in ids ::
                |ids| == RECLAIM_BATCH && forall b | b in ids :: idx[b] <= idx[id]
    {
      var scores := idx;
      var le := (a: string, b: string) =>
        (if a in scores then scores[a] else 0) <= (if b in scores then scores[b] else 0);
      var due := set id | id in idx && idx[id] <= now;
      ids := First(due, le, RECLAIM_BATCH);
      forall id | id in ids ensures id in due {
        assert id in Elements(ids);
      }
      forall id | id in idx && idx[id] <= now && id !in ids
        ensures |ids| == RECLAIM_BATCH && forall b | b in ids :: idx[b] <= idx[id]
      {
        assert id in due && forall b | b in ids :: le(b, id);
      }
    }

    /**
     Redelivers a batch of lapsed claims, those that lapsed first, and counts them; the first call
     that fails ends it.
     */
    method ReclaimExpired(now: int, c: Surround) returns (released: nat, err: bool, ghost batch: seq<string>)
      modifies this`pending, this`claimed, this`owners, this`idx, this`retry
      ensures c.list != Ok ==> View() == old(View()) && err && released == 0
      ensures c.list == Ok ==>
        && Expired(old(View()), batch, now) && |batch| <= RECLAIM_BATCH
        && (forall id | id in old(idx) && old(idx)[id] <= now && id !in batch ::
              |batch| == RECLAIM_BATCH && forall b | b in batch :: old(idx)[b] <= old(idx)[id])
        && Pass(View(), released, err) == PassAll(old(View()), batch, |batch|, now, c)
    {
      released, err, batch := 0, c.list != Ok, [];
      if err {
        return;
      }
      var ids := LapsedBatch(now);
      batch := ids;
      var i := 0;
      while i < |ids| && !err
        invariant i <= |ids|
        invariant Pass(View(), released, err) == PassAll(old(View()), ids, i, now, c)
      {
        released, err := RedeliverOneClaim(ids[i], now, i, c, released);
        i := i + 1;
      }
      EndedPass(old(View()), ids, i, now, c);
    }

    method RedeliverOneClaim(id: string, now: int, i: nat, c: Surround, count: nat) returns (released: nat, err: bool)
      modifies this`pending, this`claimed, this`owners, this`idx, this`retry
      ensures Pass(View(), released, err) == PassOne(Pass(old(View()), count, false), id, now, i, c)
    {
      released, err := count, false;
      SetKeys(c.beforeRead(i, View()));
      if c.fetches(i) != Ok {
        return count, true;
      }
      var score := ReadScore(View(), id);
      SetKeys(c.beforeScript(i, View()));
      if c.scripts(i) == Failed {
        return count, true;
      }
      var ok := ReclaimOne(id, score, now);
      if c.scripts(i) == Lost {
        return count, true;
      }
      if ok {
        released := count + 1;
      }
    }

    method ReclaimOne(id: string, score: int, now: int) returns (ok: bool)
      modifies this`pending, this`claimed, this`owners, this`idx
      ensures (View(), ok) == Reclaim(old(View()), id, score, now)
    {
      if id !in idx || idx[id] > now {
        return false;
      }
      if id !in claimed {
        idx := idx - {id};
        return false;
      }
      pending := pending[claimed[id] := score];
      DropKeys(id);
      return true;
    }

    /** A handle stays good when its claim was renewed, and when the renewal call failed. */
    ghost predicate Stays(k: Keys, id: string, h: Handle, call: Fault) { call != Ok || Owned(k, id, h.token) }

    /** Renews every claim this flow holds and forgets the handles that are no longer good. */
    method HeartbeatClaims(now: int, ttl: int, calls: string -> Fault)
      modifies this`idx, this`handles
      ensures forall id :: id in handles <==> id in old(handles) && Stays(old(View()), id, old(handles)[id], calls(id))
      ensures forall id | id in handles :: handles[id] == old(handles)[id]
      ensures forall id ::
        if id in old(handles) && calls(id) != Failed && Owned(old(View()), id, old(handles)[id].token)
        then id in idx && idx[id] == ClaimExpiry(now, ttl, old(handles)[id].deadline)
        else (id in idx <==> id in old(idx)) && (id in idx ==> idx[id] == old(idx)[id])
    {
      var todo := handles.Keys;
      while todo != {}
        invariant todo <= old(handles).Keys && todo <= handles.Keys
        invariant forall id :: id in handles <==>
                    id in old(handles) && (id in todo || Stays(old(View()), id, old(handles)[id], calls(id)))
        invariant forall id | id in handles :: handles[id] == old(handles)[id]
        invariant forall id ::
          if id in old(handles) && id !in todo && calls(id) != Failed && Owned(old(View()), id, old(handles)[id].token)
          then id in idx && idx[id] == ClaimExpiry(now, ttl, old(handles)[id].deadline)
          else (id in idx <==> id in old(idx)) && (id in idx ==> idx[id] == old(idx)[id])
        decreases todo
      {
        var id :| id in todo;
        todo := todo - {id};
        var h := handles[id];
        if calls(id) != Failed {
          var res := RenewKeys(id, h.token, ClaimExpiry(now, ttl, h.deadline));
          if calls(id) == Ok && res != Extended {
            handles := handles - {id};
          }
        }
      }
    }
  }
}
