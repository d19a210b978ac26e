/**
 Durable result delivery on one result route: the receive, renew and acknowledge scripts
 as functions of the route's keys and the server clock.
 */
module Delivery {
  /** A claim is keyed by the result's generation, or by its receiver when the record does not parse. */
  datatype Claim = Gen(id: string, token: string) | Bad(owner: string)

  /** `serial` tells two pushes of the same text apart. */
  datatype Record = Parsed(serial: nat, id: string, token: string) | Unparsable(serial: nat)

  /** The list pops at its end; `tombsUntil` is when the tombstone key itself expires. */
  datatype Route = Route(pending: seq<Record>, claimed: map<Claim, Record>, owners: map<Claim, string>,
                         idx: map<Claim, int>, tombs: map<Claim, int>, tombsUntil: int)

  const EmptyRoute := Route([], map[], map[], map[], map[], 0)

  datatype Reply = Empty | Again | Delivered(claim: Claim, record: Record) | Malformed(claim: Claim, record: Record)

  function Drop(r: Route, c: Claim): Route {
    r.(claimed := r.claimed - {c}, owners := r.owners - {c}, idx := r.idx - {c})
  }

  /** Requeues the expired claims from the last to the first, so that the first is popped next. */
  function Requeue(r: Route, expired: seq<Claim>, n: nat): Route
    requires n <= |expired|
    decreases n
  {
    if n == 0 then r
    else
      var c := expired[n - 1];
      var q := if c in r.claimed then r.(pending := r.pending + [r.claimed[c]]) else r;
      Requeue(Drop(q, c), expired, n - 1)
  }

  function Sweep(r: Route, cleaned: set<Claim>): Route { r.(tombs := r.tombs - cleaned) }

  function Lease(r: Route, c: Claim, owner: string, expiry: int): Route
    requires r.pending != []
  {
    var p := r.pending[|r.pending| - 1];
    r.(pending := r.pending[..|r.pending| - 1],
       claimed := r.claimed[c := p], owners := r.owners[c := owner], idx := r.idx[c := expiry])
  }

  predicate Buried(r: Route, c: Claim, now: int) { c in r.tombs && r.tombs[c] > now }

  /** The route without the last record of its list. */
  function Popped(r: Route): Route
    requires r.pending != []
  {
    r.(pending := r.pending[..|r.pending| - 1])
  }

  /** The route before its last record is looked at: a tombstone that is over goes first. */
  function Looked(r: Route, now: int, c: Claim): Route {
    if c in r.tombs && !Buried(r, c, now) then r.(tombs := r.tombs - {c}) else r
  }

  /** Looks at up to `n` records from the end of the list. */
  function Scan(r: Route, now: int, owner: string, ttl: int, n: nat): (Route, Reply)
    requires n <= |r.pending|
    decreases n
  {
    if n == 0 then (r, Again)
    else
      var p := r.pending[|r.pending| - 1];
      if p.Unparsable? then (Lease(r, Bad(owner), owner, now + ttl), Malformed(Bad(owner), p))
      else
        var c := Gen(p.id, p.token);
        var q := Looked(r, now, c);
        if Buried(q, c, now) || c in q.owners
        then Scan(Popped(q), now, owner, ttl, n - 1)
        else (Lease(q, c, owner, now + ttl), Delivered(c, p))
  }

  function Min(a: nat, b: nat): nat { if a < b then a else b }

  /** The receive script, given which expired claims and tombstones its bounded reads returned. */
  function Receive(r: Route, now: int, owner: string, ttl: int, scan: nat, expired: seq<Claim>,
                   cleaned: set<Claim>): (Route, Reply) {
    var q := Sweep(Requeue(r, expired, |expired|), cleaned);
    if |q.pending| == 0 || scan == 0 then (q, Empty) else Scan(q, now, owner, ttl, Min(|q.pending|, scan))
  }

  predicate Holds(r: Route, c: Claim, owner: string, now: int) {
    owner != "" && c in r.owners && r.owners[c] == owner && c in r.idx && r.idx[c] > now
  }

  function Renew(r: Route, c: Claim, owner: string, now: int, ttl: int): (Route, bool) {
    if Holds(r, c, owner, now) then (r.(idx := r.idx[c := now + ttl]), true) else (r, false)
  }

  datatype Acked = Recorded | Repeated | Fenced

  function Ack(r: Route, c: Claim, owner: string, now: int, retention: int, cleaned: set<Claim>): (Route, Acked) {
    var q := Sweep(r, cleaned);
    if Holds(q, c, owner, now) then
      (Drop(q, c).(tombs := q.tombs[c := now + retention], tombsUntil := now + retention), Recorded)
    else if Buried(q, c, now) then (q, Repeated)
    else (q.(tombs := q.tombs - {c}), Fenced)
  }

  /** What ZRANGEBYSCORE returns: entries scored at most `now`, by score, as many as the limit allows. */
  ghost predicate Due(scores: map<Claim, int>, now: int, limit: nat, out: seq<Claim>) {
    && |out| <= limit
    && (forall c | c in out :: c in scores && scores[c] <= now)
    && (forall i, j | 0 <= i < j < |out| :: out[i] != out[j] && scores[out[i]] <= scores[out[j]])
    && (forall c | c in scores && scores[c] <= now && c !in out ::
          |out| == limit && forall d | d in out :: scores[d] <= scores[c])
  }

  /** Every claim has its record, its owner and its lease, under its own generation. */
  ghost predicate WellKeyed(r: Route) {
    && r.claimed.Keys == r.owners.Keys == r.idx.Keys
    && (forall c | c in r.claimed && c.Gen? :: r.claimed[c].Parsed? && Gen(r.claimed[c].id, r.claimed[c].token) == c)
    && (forall c | c in r.claimed && c.Bad? :: r.claimed[c].Unparsable?)
  }

  predicate SameGeneration(p: Record, t: Record) {
    p.Parsed? && t.Parsed? && p.id == t.id && p.token == t.token
  }

  ghost predicate Waiting(r: Route, t: Record) {
    exists i :: 0 <= i < |r.pending| && (r.pending[i] == t || SameGeneration(r.pending[i], t))
  }

  /**
   A pushed record is waiting, claimed, or its generation was acknowledged; an unparsable one is
   never acknowledged.
   */
  ghost predicate Kept(r: Route, acked: map<Claim, int>, t: Record) {
    || Waiting(r, t)
    || (t.Parsed? && (Gen(t.id, t.token) in r.claimed || Gen(t.id, t.token) in acked))
    || (t.Unparsable? && exists c :: c in r.claimed && r.claimed[c] == t)
  }

  datatype Step =
    | Push(record: Record)
    | Receiving(now: int, owner: string, ttl: int, scan: nat, expired: seq<Claim>, cleaned: set<Claim>)
    | Renewing(claim: Claim, owner: string, now: int, ttl: int)
    | Acking(claim: Claim, owner: string, now: int, cleaned: set<Claim>)
    | TombsExpire(now: int)

  /**
   The route with what happened to it: records pushed, latest acknowledgements, receivers that
   claimed a record, those that acknowledged it, and the clock.
   */
  datatype World = World(route: Route, pushed: set<Record>, acked: map<Claim, int>, used: set<string>,
                         done: set<string>, clock: int)

  const RETENTION: int := 7 * 24 * 60 * 60 * 1000

  ghost predicate CleanedUp(tombs: map<Claim, int>, now: int, cleaned: set<Claim>) {
    forall c | c in cleaned :: c in tombs && tombs[c] <= now
  }

  ghost predicate Enabled(w: World, st: Step) {
    match st
    case Push(p) => p !in w.pushed
    case Receiving(now, owner, _, _, expired, cleaned) =>
      && w.clock <= now && owner !in w.used
      && (exists limit :: Due(w.route.idx, now, limit, expired))
      && CleanedUp(w.route.tombs, now, cleaned)
    case Renewing(_, _, now, _) => w.clock <= now
    case Acking(c, _, now, cleaned) => w.clock <= now && c.Gen? && CleanedUp(w.route.tombs, now, cleaned)
    case TombsExpire(now) => w.clock <= now && w.route.tombsUntil <= now
  }

  ghost function Next(w: World, st: Step): World {
    if !Enabled(w, st) then w
    else match st
      case Push(p) => w.(route := w.route.(pending := [p] + w.route.pending), pushed := w.pushed + {p})
      case Receiving(now, owner, ttl, scan, expired, cleaned) =>
        var (r, reply) := Receive(w.route, now, owner, ttl, scan, expired, cleaned);
        w.(route := r, used := UsedAfter(w.used, owner, reply), clock := now)
      case Renewing(c, owner, now, ttl) => w.(route := Renew(w.route, c, owner, now, ttl).0, clock := now)
      case Acking(c, owner, now, cleaned) =>
        var (r, res) := Ack(w.route, c, owner, now, RETENTION, cleaned);
        w.(route := r, acked := if res == Recorded then w.acked[c := now] else w.acked,
           done := if res == Recorded then w.done + {owner} else w.done, clock := now)
      case TombsExpire(now) => w.(route := w.route.(tombs := map[]), clock := now)
  }

  ghost function Run(w: World, steps: seq<Step>): World
    decreases |steps|
  {
    if steps == [] then w else Run(Next(w, steps[0]), steps[1..])
  }

  const Start := World(EmptyRoute, {}, map[], {}, {}, 0)

  /** Tombstones stand for acknowledgements and outlive the retention window. */
  ghost predicate Mourned(tombs: map<Claim, int>, until: int, acked: map<Claim, int>, clock: int) {
    && (forall c | c in tombs :: c in acked && tombs[c] <= until)
    && (forall c | c in acked && clock < acked[c] + RETENTION :: c in tombs && tombs[c] >= acked[c] + RETENTION)
  }

  /** A receiver holds at most one claim, and none once it acknowledged. */
  ghost predicate Held(owners: map<Claim, string>, used: set<string>, done: set<string>) {
    && done <= used
    && (forall c | c in owners :: owners[c] in used - done && (c.Bad? ==> c.owner in used))
    && (forall c, d | c in owners && d in owners && owners[c] == owners[d] :: c == d)
  }

  ghost predicate Inv(w: World) {
    && WellKeyed(w.route)
    && Held(w.route.owners, w.used, w.done)
    && w.route.tombsUntil <= w.clock + RETENTION
    && Mourned(w.route.tombs, w.route.tombsUntil, w.acked, w.clock)
    && (forall t | t in w.pushed :: Kept(w.route, w.acked, t))
  }

  function RequeuedOne(r: Route, c: Claim): Route
    requires c in r.claimed
  {
    Drop(r.(pending := r.pending + [r.claimed[c]]), c)
  }

  lemma RequeueOneKeeps(r: Route, c: Claim, acked: map<Claim, int>, t: Record)
    requires WellKeyed(r) && c in r.claimed && Kept(r, acked, t)
    ensures Kept(RequeuedOne(r, c), acked, t)
  {
    var q, n := RequeuedOne(r, c), |r.pending|;
    assert q.pending[n] == r.claimed[c];
    if Waiting(r, t) {
      var i :| 0 <= i < n && (r.pending[i] == t || SameGeneration(r.pending[i], t));
      assert q.pending[i] == r.pending[i];
    } else if t.Parsed? && Gen(t.id, t.token) == c {
      assert SameGeneration(q.pending[n], t);
    } else if t.Unparsable? {
      var d :| d in r.claimed && r.claimed[d] == t;
      if d != c {
        assert q.claimed[d] == t;
      }
    }
  }

  /** The expired claims, each once, all of them held. */
  ghost predicate Reclaimable(r: Route, expired: seq<Claim>, n: nat)
    requires n <= |expired|
  {
    && (forall i, j | 0 <= i < j < n :: expired[i] != expired[j])
    && (forall i | 0 <= i < n :: expired[i] in r.claimed)
  }

  lemma {:induction false} RequeueKeeps(r: Route, expired: seq<Claim>, n: nat, acked: map<Claim, int>, t: Record)
    requires WellKeyed(r) && n <= |expired| && Reclaimable(r, expired, n) && Kept(r, acked, t)
    ensures Kept(Requeue(r, expired, n), acked, t)
    decreases n
  {
    if n > 0 {
      RequeueOneKeeps(r, expired[n - 1], acked, t);
      RequeueKeeps(RequeuedOne(r, expired[n - 1]), expired, n - 1, acked, t);
    }
  }

  lemma RequeuedOneShape(r: Route, c: Claim)
    requires WellKeyed(r) && c in r.claimed
    ensures var q := RequeuedOne(r, c);
      && WellKeyed(q) && q.tombs == r.tombs && q.tombsUntil == r.tombsUntil
      && |q.pending| == |r.pending| + 1 && |q.claimed| == |r.claimed| - 1 && q.owners == r.owners - {c}
  {
    assert RequeuedOne(r, c).claimed.Keys == r.claimed.Keys - {c};
  }

  lemma {:induction false} RequeueShape(r: Route, expired: seq<Claim>, n: nat)
    requires WellKeyed(r) && n <= |expired| && Reclaimable(r, expired, n)
    ensures var q := Requeue(r, expired, n);
      && WellKeyed(q) && q.tombs == r.tombs && q.tombsUntil == r.tombsUntil
      && |q.pending| == |r.pending| + n && |q.claimed| == |r.claimed| - n
      && (forall c | c in q.owners :: c in r.owners && q.owners[c] == r.owners[c])
    decreases n
  {
    if n > 0 {
      RequeuedOneShape(r, expired[n - 1]);
      RequeueShape(RequeuedOne(r, expired[n - 1]), expired, n - 1);
    }
  }

  /** A record leaves the list only if its generation is kept elsewhere. */
  lemma PopKeeps(r: Route, acked: map<Claim, int>, t: Record)
    requires r.pending != [] && Kept(r, acked, t)
    requires var p := r.pending[|r.pending| - 1];
      && p.Parsed?
      && (Gen(p.id, p.token) in r.claimed || Gen(p.id, p.token) in acked)
    ensures Kept(Popped(r), acked, t)
  {
    var n := |r.pending| - 1;
    if Waiting(r, t) {
      var i :| 0 <= i < |r.pending| && (r.pending[i] == t || SameGeneration(r.pending[i], t));
      if i < n {
        assert Popped(r).pending[i] == r.pending[i];
      }
    }
  }

  lemma LeaseKeeps(r: Route, c: Claim, owner: string, expiry: int, acked: map<Claim, int>, t: Record)
    requires r.pending != [] && c !in r.claimed && Kept(r, acked, t)
    requires var p := r.pending[|r.pending| - 1]; if p.Parsed? then c == Gen(p.id, p.token) else c.Bad?
    ensures Kept(Lease(r, c, owner, expiry), acked, t)
  {
    var n := |r.pending| - 1;
    var q := Lease(r, c, owner, expiry);
    assert q.claimed[c] == r.pending[n];
    if Waiting(r, t) {
      var i :| 0 <= i < |r.pending| && (r.pending[i] == t || SameGeneration(r.pending[i], t));
      if i < n {
        assert q.pending[i] == r.pending[i];
      }
    } else if t.Unparsable? {
      var d :| d in r.claimed && r.claimed[d] == t;
      assert q.claimed[d] == t;
    }
  }

  lemma LookKeeps(r: Route, now: int, c: Claim, acked: map<Claim, int>, t: Record)
    requires Kept(r, acked, t)
    ensures Kept(Looked(r, now, c), acked, t)
  {
    var q := Looked(r, now, c);
    if Waiting(r, t) {
      var i :| 0 <= i < |r.pending| && (r.pending[i] == t || SameGeneration(r.pending[i], t));
      assert q.pending[i] == r.pending[i];
    }
  }

  /** A scan keeps what the route has, whatever it returns, if live tombstones stand for acknowledgements. */
  lemma {:induction false} ScanKeeps(r: Route, now: int, owner: string, ttl: int, n: nat, acked: map<Claim, int>,
                                     t: Record)
    requires WellKeyed(r) && n <= |r.pending| && Bad(owner) !in r.claimed && r.tombs.Keys <= acked.Keys
        && Kept(r, acked, t)
    ensures Kept(Scan(r, now, owner, ttl, n).0, acked, t)
    decreases n
  {
    if n > 0 {
      var p := r.pending[|r.pending| - 1];
      if p.Unparsable? {
        LeaseKeeps(r, Bad(owner), owner, now + ttl, acked, t);
      } else {
        var c := Gen(p.id, p.token);
        var q := Looked(r, now, c);
        LookKeeps(r, now, c, acked, t);
        if Buried(q, c, now) || c in q.owners {
          PopKeeps(q, acked, t);
          ScanKeeps(Popped(q), now, owner, ttl, n - 1, acked, t);
        } else {
          LeaseKeeps(q, c, owner, now + ttl, acked, t);
        }
      }
    }
  }

  /** What a scan may do to the tombstones and the claims. */
  ghost predicate ScanShaped(r: Route, now: int, owner: string, q: Route, reply: Reply, n: nat) {
    && q.tombsUntil == r.tombsUntil
    && (forall c | c in q.tombs :: c in r.tombs && q.tombs[c] == r.tombs[c])
    && (forall c | c in r.tombs && r.tombs[c] > now :: c in q.tombs)
    && match reply
       case Empty => false
       case Again => q.owners == r.owners && q.claimed == r.claimed && |q.pending| == |r.pending| - n
       case Delivered(c, _) => c.Gen? && q.owners == r.owners[c := owner] && !Buried(r, c, now)
       case Malformed(c, _) => c == Bad(owner) && q.owners == r.owners[c := owner]
  }

  lemma LeaseWellKeyed(r: Route, c: Claim, owner: string, expiry: int)
    requires WellKeyed(r) && r.pending != []
    requires var p := r.pending[|r.pending| - 1]; if p.Parsed? then c == Gen(p.id, p.token) else c.Bad?
    ensures WellKeyed(Lease(r, c, owner, expiry))
  {
  }

  lemma {:induction false} ScanWellKeyed(r: Route, now: int, owner: string, ttl: int, n: nat)
    requires WellKeyed(r) && n <= |r.pending|
    ensures WellKeyed(Scan(r, now, owner, ttl, n).0)
    decreases n
  {
    if n > 0 {
      var p := r.pending[|r.pending| - 1];
      if p.Unparsable? {
        LeaseWellKeyed(r, Bad(owner), owner, now + ttl);
      } else {
        var c := Gen(p.id, p.token);
        var q := Looked(r, now, c);
        if Buried(q, c, now) || c in q.owners {
          ScanWellKeyed(Popped(q), now, owner, ttl, n - 1);
        } else {
          LeaseWellKeyed(q, c, owner, now + ttl);
        }
      }
    }
  }

  /** A scan drops only tombstones that are over, and claims at most one record, for its own receiver. */
  lemma {:induction false} ScanShape(r: Route, now: int, owner: string, ttl: int, n: nat)
    requires n <= |r.pending|
    ensures ScanShaped(r, now, owner, Scan(r, now, owner, ttl, n).0, Scan(r, now, owner, ttl, n).1, n)
    decreases n
  {
    if n > 0 {
      var p := r.pending[|r.pending| - 1];
      if p.Parsed? {
        var q := Looked(r, now, Gen(p.id, p.token));
        if Buried(q, Gen(p.id, p.token), now) || Gen(p.id, p.token) in q.owners {
          ScanShape(Popped(q), now, owner, ttl, n - 1);
        }
      }
    }
  }

  /** Tombstones of acknowledgements still inside the retention window stay. */
  lemma MournedStays(r: Route, q: Route, acked: map<Claim, int>, clock: int, now: int)
    requires Mourned(r.tombs, r.tombsUntil, acked, clock) && clock <= now && q.tombsUntil == r.tombsUntil
    requires forall c | c in q.tombs :: c in r.tombs && q.tombs[c] == r.tombs[c]
    requires forall c | c in r.tombs && r.tombs[c] > now :: c in q.tombs
    ensures Mourned(q.tombs, q.tombsUntil, acked, now)
  {
  }

  lemma SweepKeeps(r: Route, cleaned: set<Claim>, acked: map<Claim, int>, t: Record)
    requires Kept(r, acked, t)
    ensures Kept(Sweep(r, cleaned), acked, t)
  {
    if Waiting(r, t) {
      var i :| 0 <= i < |r.pending| && (r.pending[i] == t || SameGeneration(r.pending[i], t));
      assert Sweep(r, cleaned).pending[i] == r.pending[i];
    }
  }

  /** The route once the script requeued and swept, before it looks at the list. */
  function Opened(r: Route, expired: seq<Claim>, cleaned: set<Claim>): Route {
    Sweep(Requeue(r, expired, |expired|), cleaned)
  }

  lemma OpenedShape(w: World, now: int, limit: nat, expired: seq<Claim>, cleaned: set<Claim>)
    requires Inv(w) && w.clock <= now && Due(w.route.idx, now, limit, expired) && CleanedUp(w.route.tombs, now, cleaned)
    ensures var q := Opened(w.route, expired, cleaned);
      && WellKeyed(q) && q.tombs.Keys <= w.acked.Keys
      && Mourned(q.tombs, q.tombsUntil, w.acked, now)
      && |q.pending| + |q.claimed| == |w.route.pending| + |w.route.claimed|
      && q.tombsUntil == w.route.tombsUntil
      && (forall c | c in q.owners :: c in w.route.owners && q.owners[c] == w.route.owners[c])
  {
    assert Reclaimable(w.route, expired, |expired|);
    RequeueShape(w.route, expired, |expired|);
    MournedStays(w.route, Opened(w.route, expired, cleaned), w.acked, w.clock, now);
  }

  lemma OpenedKeeps(w: World, now: int, limit: nat, expired: seq<Claim>, cleaned: set<Claim>, t: Record)
    requires Inv(w) && Due(w.route.idx, now, limit, expired) && t in w.pushed
    ensures Kept(Opened(w.route, expired, cleaned), w.acked, t)
  {
    assert Reclaimable(w.route, expired, |expired|);
    RequeueKeeps(w.route, expired, |expired|, w.acked, t);
    SweepKeeps(Requeue(w.route, expired, |expired|), cleaned, w.acked, t);
  }

  lemma HeldFewer(owners: map<Claim, string>, q: map<Claim, string>, used: set<string>, done: set<string>)
    requires Held(owners, used, done) && forall d | d in q :: d in owners && q[d] == owners[d]
    ensures Held(q, used, done)
  {
  }

  lemma HeldByNew(owners: map<Claim, string>, c: Claim, owner: string, used: set<string>, done: set<string>)
    requires Held(owners, used, done) && owner !in used && (c.Bad? ==> c.owner == owner)
    ensures Held(owners[c := owner], used + {owner}, done)
  {
  }

  function UsedAfter(used: set<string>, owner: string, reply: Reply): set<string> {
    if reply.Delivered? || reply.Malformed? then used + {owner} else used
  }

  lemma ScanHolds(q: Route, now: int, owner: string, ttl: int, n: nat, w: World)
    requires n <= |q.pending| && WellKeyed(q) && Held(q.owners, w.used, w.done) && owner !in w.used
    requires Mourned(q.tombs, q.tombsUntil, w.acked, now)
    ensures var r, reply := Scan(q, now, owner, ttl, n).0, Scan(q, now, owner, ttl, n).1;
      && WellKeyed(r) && Held(r.owners, UsedAfter(w.used, owner, reply), w.done)
      && Mourned(r.tombs, r.tombsUntil, w.acked, now) && r.tombsUntil == q.tombsUntil
  {
    var (r, reply) := Scan(q, now, owner, ttl, n);
    ScanWellKeyed(q, now, owner, ttl, n);
    ScanShape(q, now, owner, ttl, n);
    MournedStays(q, r, w.acked, now, now);
    if reply.Delivered? || reply.Malformed? {
      HeldByNew(q.owners, reply.claim, owner, w.used, w.done);
    }
  }

  lemma ReceiveHolds(w: World, st: Step)
    requires Inv(w) && Enabled(w, st) && st.Receiving?
    ensures var w' := Next(w, st);
      && WellKeyed(w'.route) && Held(w'.route.owners, w'.used, w'.done)
      && Mourned(w'.route.tombs, w'.route.tombsUntil, w.acked, st.now) && w'.route.tombsUntil == w.route.tombsUntil
  {
    var limit :| Due(w.route.idx, st.now, limit, st.expired);
    var q := Opened(w.route, st.expired, st.cleaned);
    OpenedShape(w, st.now, limit, st.expired, st.cleaned);
    HeldFewer(w.route.owners, q.owners, w.used, w.done);
    if |q.pending| > 0 && st.scan > 0 {
      ScanHolds(q, st.now, st.owner, st.ttl, Min(|q.pending|, st.scan), w);
    }
  }

  lemma ReceiveKeepsRecord(w: World, st: Step, t: Record)
    requires Inv(w) && Enabled(w, st) && st.Receiving? && t in w.pushed
    ensures Kept(Next(w, st).route, w.acked, t)
  {
    var limit :| Due(w.route.idx, st.now, limit, st.expired);
    var q := Opened(w.route, st.expired, st.cleaned);
    OpenedShape(w, st.now, limit, st.expired, st.cleaned);
    OpenedKeeps(w, st.now, limit, st.expired, st.cleaned, t);
    if |q.pending| > 0 && st.scan > 0 {
      assert Bad(st.owner) !in q.claimed;
      ScanKeeps(q, st.now, st.owner, st.ttl, Min(|q.pending|, st.scan), w.acked, t);
    }
  }

  lemma ReceiveKeeps(w: World, st: Step)
    requires Inv(w) && Enabled(w, st) && st.Receiving?
    ensures Inv(Next(w, st))
  {
    ReceiveHolds(w, st);
    forall t | t in w.pushed ensures Kept(Next(w, st).route, w.acked, t) {
      ReceiveKeepsRecord(w, st, t);
    }
  }

  lemma RenewKeeps(w: World, st: Step)
    requires Inv(w) && Enabled(w, st) && st.Renewing?
    ensures Inv(Next(w, st))
  {
    var w' := Next(w, st);
    MournedStays(w.route, w'.route, w.acked, w.clock, st.now);
    forall t | t in w.pushed ensures Kept(w'.route, w.acked, t) {
      SameListKeeps(w.route, w'.route, w.acked, w.acked, t);
    }
  }

  lemma SameListKeeps(r: Route, q: Route, acked: map<Claim, int>, acked': map<Claim, int>, t: Record)
    requires Kept(r, acked, t) && q.pending == r.pending && acked.Keys <= acked'.Keys
    requires forall c | c in r.claimed ::
      || (c in q.claimed && q.claimed[c] == r.claimed[c])
      || (c.Gen? && r.claimed[c].Parsed? && c in acked')
    ensures Kept(q, acked', t)
  {
    if Waiting(r, t) {
      var i :| 0 <= i < |r.pending| && (r.pending[i] == t || SameGeneration(r.pending[i], t));
      assert q.pending[i] == r.pending[i];
    } else if t.Unparsable? {
      var d :| d in r.claimed && r.claimed[d] == t;
      assert q.claimed[d] == t;
    }
  }

  /** What an acknowledgement does to claims and tombstones. */
  lemma AckShape(r: Route, c: Claim, owner: string, now: int, cleaned: set<Claim>)
    ensures var (q, res) := Ack(r, c, owner, now, RETENTION, cleaned);
      if res == Recorded then
        && c in r.owners && r.owners[c] == owner && q.owners == r.owners - {c} && q.claimed == r.claimed - {c}
            && q.idx == r.idx - {c}
        && q.tombs == (r.tombs - cleaned)[c := now + RETENTION] && q.tombsUntil == now + RETENTION
      else
        && q.owners == r.owners && q.claimed == r.claimed && q.idx == r.idx && q.tombsUntil == r.tombsUntil
        && (q.tombs == r.tombs - cleaned
            || (q.tombs == r.tombs - cleaned - {c} && (c in r.tombs - cleaned ==> r.tombs[c] <= now)))
  {
  }

  lemma TombsMourn(tombs: map<Claim, int>, tombs': map<Claim, int>, until: int, until': int, acked: map<Claim, int>,
                   acked': map<Claim, int>, clock: int, now: int)
    requires Mourned(tombs, until, acked, clock) && clock <= now && until <= until'
    requires forall c | c in tombs' ::
      if c in tombs && tombs[c] == tombs'[c] then true else c in acked' && tombs'[c] <= until'
    requires forall c | c in acked' ::
      if c in acked && acked[c] == acked'[c]
      then c !in tombs || tombs[c] <= now || (c in tombs' && tombs'[c] == tombs[c])
                                       else c in tombs' && tombs'[c] >= acked'[c] + RETENTION
    requires forall c | c in acked :: c in acked'
    ensures Mourned(tombs', until', acked', now)
  {
  }

  lemma AckMourns(w: World, st: Step)
    requires Inv(w) && Enabled(w, st) && st.Acking?
    ensures var w' := Next(w, st); Mourned(w'.route.tombs, w'.route.tombsUntil, w'.acked, w'.clock)
  {
    var w' := Next(w, st);
    AckShape(w.route, st.claim, st.owner, st.now, st.cleaned);
    TombsMourn(w.route.tombs, w'.route.tombs, w.route.tombsUntil, w'.route.tombsUntil, w.acked, w'.acked, w.clock,
               st.now);
  }

  lemma FewerHeld(owners: map<Claim, string>, used: set<string>, done: set<string>, c: Claim)
    requires Held(owners, used, done) && c in owners
    ensures Held(owners - {c}, used, done + {owners[c]})
  {
  }

  lemma FewerWellKeyed(r: Route, q: Route, c: Claim)
    requires WellKeyed(r) && q.owners == r.owners - {c} && q.claimed == r.claimed - {c} && q.idx == r.idx - {c}
    ensures WellKeyed(q)
  {
  }

  lemma AckHolds(w: World, st: Step)
    requires Inv(w) && Enabled(w, st) && st.Acking?
    ensures var w' := Next(w, st);
      WellKeyed(w'.route) && Held(w'.route.owners, w'.used, w'.done) && w'.route.tombsUntil <= w'.clock + RETENTION
  {
    var w' := Next(w, st);
    AckShape(w.route, st.claim, st.owner, st.now, st.cleaned);
    if Ack(w.route, st.claim, st.owner, st.now, RETENTION, st.cleaned).1 == Recorded {
      FewerHeld(w.route.owners, w.used, w.done, st.claim);
      FewerWellKeyed(w.route, w'.route, st.claim);
    }
  }

  lemma AckKeepsRecord(w: World, st: Step, t: Record)
    requires Inv(w) && Enabled(w, st) && st.Acking? && t in w.pushed
    ensures Kept(Next(w, st).route, Next(w, st).acked, t)
  {
    AckShape(w.route, st.claim, st.owner, st.now, st.cleaned);
    SameListKeeps(w.route, Next(w, st).route, w.acked, Next(w, st).acked, t);
  }

  lemma AckKeeps(w: World, st: Step)
    requires Inv(w) && Enabled(w, st) && st.Acking?
    ensures Inv(Next(w, st))
  {
    AckMourns(w, st);
    AckHolds(w, st);
    forall t | t in w.pushed ensures Kept(Next(w, st).route, Next(w, st).acked, t) {
      AckKeepsRecord(w, st, t);
    }
  }

  lemma PushKeeps(w: World, st: Step)
    requires Inv(w) && Enabled(w, st) && st.Push?
    ensures Inv(Next(w, st))
  {
    var w' := Next(w, st);
    assert w'.route.pending[0] == st.record;
    forall t | t in w.pushed ensures Kept(w'.route, w.acked, t) {
      if Waiting(w.route, t) {
        var i :| 0 <= i < |w.route.pending| && (w.route.pending[i] == t || SameGeneration(w.route.pending[i], t));
        assert w'.route.pending[i + 1] == w.route.pending[i];
      }
    }
    assert Waiting(w'.route, st.record);
  }

  lemma TombsExpireKeeps(w: World, st: Step)
    requires Inv(w) && Enabled(w, st) && st.TombsExpire?
    ensures Inv(Next(w, st))
  {
    var w' := Next(w, st);
    MournedStays(w.route, w'.route, w.acked, w.clock, st.now);
    forall t | t in w.pushed ensures Kept(w'.route, w.acked, t) {
      SameListKeeps(w.route, w'.route, w.acked, w.acked, t);
    }
  }

  lemma NextKeeps(w: World, st: Step)
    requires Inv(w)
    ensures Inv(Next(w, st))
  {
    if Enabled(w, st) {
      match st
      case Push(_) => PushKeeps(w, st);
      case Receiving(_, _, _, _, _, _) => ReceiveKeeps(w, st);
      case Renewing(_, _, _, _) => RenewKeeps(w, st);
      case Acking(_, _, _, _) => AckKeeps(w, st);
      case TombsExpire(_) => TombsExpireKeeps(w, st);
    }
  }

  lemma {:induction false} RunKeeps(w: World, steps: seq<Step>)
    requires Inv(w)
    ensures Inv(Run(w, steps))
    decreases |steps|
  {
    if steps != [] {
      NextKeeps(w, steps[0]);
      RunKeeps(Next(w, steps[0]), steps[1..]);
    }
  }

  /** Every record pushed to the route is waiting, claimed, or acknowledged; unparsable ones are waiting or claimed. */
  lemma ResultsAreKept(steps: seq<Step>, t: Record)
    requires t in Run(Start, steps).pushed
    ensures Kept(Run(Start, steps).route, Run(Start, steps).acked, t)
  {
    RunKeeps(Start, steps);
  }

  /**
   With a clock that does not step back, an acknowledged generation is not handed out again within
   the retention window.
   */
  lemma NotHandedOutAgain(steps: seq<Step>, st: Step, c: Claim)
    requires var w := Run(Start, steps); Enabled(w, st) && st.Receiving? && c in w.acked
    requires var w := Run(Start, steps);
      var reply := Receive(w.route, st.now, st.owner, st.ttl, st.scan, st.expired, st.cleaned).1;
      reply.Delivered? && reply.claim == c
    ensures st.now >= Run(Start, steps).acked[c] + RETENTION
  {
    RunKeeps(Start, steps);
    var w := Run(Start, steps);
    var limit :| Due(w.route.idx, st.now, limit, st.expired);
    OpenedShape(w, st.now, limit, st.expired, st.cleaned);
    var q := Opened(w.route, st.expired, st.cleaned);
    ScanShape(q, st.now, st.owner, st.ttl, Min(|q.pending|, st.scan));
  }

  /** Only the holder of a live lease records an acknowledgement, once; a repeat succeeds only after it. */
  lemma AckIsFenced(steps: seq<Step>, st: Step)
    requires Enabled(Run(Start, steps), st) && st.Acking?
    ensures var w := Run(Start, steps);
      var res := Ack(w.route, st.claim, st.owner, st.now, RETENTION, st.cleaned).1;
      && (res == Recorded <==> Holds(w.route, st.claim, st.owner, st.now))
      && (res == Recorded ==> st.owner !in w.done && st.claim in w.route.claimed)
      && (res == Repeated ==> st.claim in w.acked)
  {
    RunKeeps(Start, steps);
  }

  /** A pass that asks to be repeated at once has shrunk the route. */
  lemma AgainShrinks(r: Route, now: int, owner: string, ttl: int, scan: nat, limit: nat, expired: seq<Claim>,
                     cleaned: set<Claim>)
    requires WellKeyed(r) && Due(r.idx, now, limit, expired)
    requires Receive(r, now, owner, ttl, scan, expired, cleaned).1 == Again
    ensures var q := Receive(r, now, owner, ttl, scan, expired, cleaned).0;
      WellKeyed(q) && |q.pending| + |q.claimed| < |r.pending| + |r.claimed|
  {
    assert Reclaimable(r, expired, |expired|);
    RequeueShape(r, expired, |expired|);
    var q := Opened(r, expired, cleaned);
    ScanShape(q, now, owner, ttl, Min(|q.pending|, scan));
    ScanWellKeyed(q, now, owner, ttl, Min(|q.pending|, scan));
  }

  /** Expired leases are popped in the order they expired, ahead of everything that was waiting. */
  lemma {:induction false} RequeueOrder(r: Route, expired: seq<Claim>, n: nat, i: nat)
    requires n <= |expired| && Reclaimable(r, expired, n) && i < |r.pending| + n
    ensures var q := Requeue(r, expired, n);
      && |q.pending| == |r.pending| + n
      && q.pending[|q.pending| - 1 - i] == if i < n then r.claimed[expired[i]] else r.pending[|r.pending| - 1 - (i - n)]
    decreases n
  {
    if n > 0 {
      RequeueOrder(RequeuedOne(r, expired[n - 1]), expired, n - 1, i);
    }
  }
}
