/** The receive, renew and acknowledge scripts as they run, command by command, on the route's keys. */
module DeliveryRoute {
  import opened Delivery
  import opened Ordering

  const RECLAIM_BATCH: nat := 100
  const SCAN_BATCH: nat := 100
  const CLEANUP_BATCH: nat := 100

  function Score(scores: map<Claim, int>, c: Claim): int { if c in scores then scores[c] else 0 }

  /** The entries scored at most `now`, lowest score first, up to `limit` of them. */
  method RangeByScore(scores: map<Claim, int>, now: int, limit: nat) returns (out: seq<Claim>)
    ensures Due(scores, now, limit, out)
  {
    var le := (a: Claim, b: Claim) => Score(scores, a) <= Score(scores, b);
    var due := set c | c in scores && scores[c] <= now;
    out := First(due, le, limit);
    forall c | c in out ensures c in due {
      assert c in Elements(out);
    }
    assert forall c, d | c in due && c !in out && d in out :: le(d, c);
    assert forall i, j | 0 <= i < j < |out| :: le(out[i], out[j]);
  }

  /** One run of the receive script, whichever expired entries its bounded reads return. */
  ghost predicate Pass(r: Route, now: int, owner: string, ttl: int, q: Route, reply: Reply) {
    exists expired, cleaned ::
      Due(r.idx, now, RECLAIM_BATCH, expired) && CleanedUp(r.tombs, now, cleaned) &&
      (q, reply) == Receive(r, now, owner, ttl, SCAN_BATCH, expired, cleaned)
  }

  /** Each route but the last led to the next by a pass that asked for another. */
  ghost predicate Passing(trace: seq<Route>, clock: nat -> int, owner: string, ttl: int) {
    forall i | 0 <= i < |trace| - 1 :: Pass(trace[i], clock(i), owner, ttl, trace[i + 1], Again)
  }

  lemma PassingMore(trace: seq<Route>, clock: nat -> int, owner: string, ttl: int, q: Route)
    requires trace != [] && Passing(trace, clock, owner, ttl)
        && Pass(trace[|trace| - 1], clock(|trace| - 1), owner, ttl, q, Again)
    ensures Passing(trace + [q], clock, owner, ttl)
  {
  }

  class ResultRoute {
    var pending: seq<Record>
    var claimed: map<Claim, Record>
    var owners: map<Claim, string>
    var idx: map<Claim, int>
    var tombs: map<Claim, int>
    var tombsUntil: int

    constructor ()
      ensures View() == EmptyRoute
    {
      pending, claimed, owners, idx, tombs, tombsUntil := [], map[], map[], map[], map[], 0;
    }

    function View(): Route
      reads this
    {
      Route(pending, claimed, owners, idx, tombs, tombsUntil)
    }

    /** Puts the expired claims back at the end of the list, last expired first. */
    method RequeueExpired(expired: seq<Claim>)
      modifies this
      ensures View() == Requeue(old(View()), expired, |expired|)
    {
      for i := |expired| downto 0
        invariant Requeue(View(), expired, i) == Requeue(old(View()), expired, |expired|)
      {
        var c := expired[i];
        if c in claimed {
          pending := pending + [claimed[c]];
        }
        claimed := claimed - {c};
        owners := owners - {c};
        idx := idx - {c};
      }
    }

    method TakeLease(c: Claim, owner: string, expiry: int)
      requires pending != []
      modifies this
      ensures View() == Lease(old(View()), c, owner, expiry)
    {
      var p := pending[|pending| - 1];
      pending := pending[..|pending| - 1];
      claimed := claimed[c := p];
      owners := owners[c := owner];
      idx := idx[c := expiry];
    }

    /** Looks at the last record: claims it, or drops it when it is buried or claimed already. */
    method LookAtLast(now: int, owner: string, ttl: int) returns (reply: Reply)
      requires pending != []
      modifies this
      ensures reply == Again ==> |pending| == |old(pending)| - 1
      ensures forall n: nat | 0 < n <= |old(pending)| ::
                Scan(old(View()), now, owner, ttl, n) ==
                if reply == Again then Scan(View(), now, owner, ttl, n - 1) else (View(), reply)
    {
      var p := pending[|pending| - 1];
      if p.Unparsable? {
        TakeLease(Bad(owner), owner, now + ttl);
        return Malformed(Bad(owner), p);
      }
      var c := Gen(p.id, p.token);
      if c in tombs && tombs[c] <= now {
        tombs := tombs - {c};
      }
      if c in tombs || c in owners {
        pending := pending[..|pending| - 1];
        return Again;
      }
      TakeLease(c, owner, now + ttl);
      return Delivered(c, p);
    }

    /** Looks at up to `n` records from the end of the list and claims the first that is deliverable. */
    method ScanPending(now: int, owner: string, ttl: int, n: nat) returns (reply: Reply)
      requires n <= |pending|
      modifies this
      ensures (View(), reply) == Scan(old(View()), now, owner, ttl, n)
    {
      for i := 0 to n
        invariant n - i <= |pending|
        invariant Scan(View(), now, owner, ttl, n - i) == Scan(old(View()), now, owner, ttl, n)
      {
        reply := LookAtLast(now, owner, ttl);
        if reply != Again {
          return;
        }
      }
      return Again;
    }

    /** One run of the receive script. */
    method ReceiveOnce(now: int, owner: string, ttl: int)
      returns (reply: Reply, ghost expired: seq<Claim>, ghost cleaned: set<Claim>)
      modifies this
      ensures Due(old(idx), now, RECLAIM_BATCH, expired) && CleanedUp(old(tombs), now, cleaned)
      ensures (View(), reply) == Receive(old(View()), now, owner, ttl, SCAN_BATCH, expired, cleaned)
    {
      var lapsed := RangeByScore(idx, now, RECLAIM_BATCH);
      expired := lapsed;
      var over := RangeByScore(tombs, now, CLEANUP_BATCH);
      cleaned := Elements(over);
      RequeueExpired(lapsed);
      RequeueTombs(old(View()), lapsed, |lapsed|);
      tombs := tombs - Elements(over);
      if |pending| == 0 {
        return Empty, expired, cleaned;
      }
      reply := ScanPending(now, owner, ttl, if |pending| < SCAN_BATCH then |pending| else SCAN_BATCH);
    }

    method NextPass(now: int, owner: string, ttl: int) returns (reply: Reply)
      requires WellKeyed(View())
      modifies this
      ensures Pass(old(View()), now, owner, ttl, View(), reply)
      ensures reply.Again? ==> WellKeyed(View()) && |pending| + |claimed| < old(|pending| + |claimed|)
    {
      ghost var expired, cleaned;
      reply, expired, cleaned := ReceiveOnce(now, owner, ttl);
      if reply.Again? {
        AgainShrinks(old(View()), now, owner, ttl, SCAN_BATCH, RECLAIM_BATCH, expired, cleaned);
      }
    }

    /**
     Repeats the script without pausing while it asks for another pass; `clock` is what the
     server's clock reads, `trace` the route before each pass. With nothing pushed meanwhile
     there are at most as many passes as records, and one.
     */
    method ReceiveResult(owner: string, ttl: int, clock: nat -> int)
      returns (reply: Reply, passes: nat, ghost trace: seq<Route>)
      requires WellKeyed(View())
      modifies this
      ensures !reply.Again? && 0 < passes <= old(|pending| + |claimed|) + 1
      ensures |trace| == passes && trace[0] == old(View()) && Passing(trace, clock, owner, ttl)
      ensures Pass(trace[passes - 1], clock(passes - 1), owner, ttl, View(), reply)
    {
      passes := 1;
      trace := [View()];
      reply := NextPass(clock(0), owner, ttl);
      while reply.Again?
        invariant 0 < passes && |trace| == passes && trace[0] == old(View()) && Passing(trace, clock, owner, ttl)
        invariant Pass(trace[passes - 1], clock(passes - 1), owner, ttl, View(), reply)
        invariant passes <= old(|pending| + |claimed|) + 1
        invariant reply.Again? ==> WellKeyed(View()) && |pending| + |claimed| + passes <= old(|pending| + |claimed|)
        decreases if reply.Again? then |pending| + |claimed| + 1 else 0
      {
        PassingMore(trace, clock, owner, ttl, View());
        trace := trace + [View()];
        reply := NextPass(clock(passes), owner, ttl);
        passes := passes + 1;
      }
    }

    /** Extends the lease of its holder only. */
    method RenewResult(c: Claim, owner: string, now: int, ttl: int) returns (ok: bool)
      modifies this`idx
      ensures (View(), ok) == Renew(old(View()), c, owner, now, ttl)
    {
      if c !in owners || owners[c] != owner || owner == "" || c !in idx || idx[c] <= now {
        return false;
      }
      idx := idx[c := now + ttl];
      return true;
    }

    /** Acknowledges the holder's claim and leaves a tombstone; a repeat inside its life succeeds. */
    method AckResult(c: Claim, owner: string, now: int) returns (res: Acked, ghost cleaned: set<Claim>)
      modifies this
      ensures CleanedUp(old(tombs), now, cleaned)
      ensures (View(), res) == Ack(old(View()), c, owner, now, RETENTION, cleaned)
    {
      var over := RangeByScore(tombs, now, CLEANUP_BATCH);
      cleaned := Elements(over);
      tombs := tombs - Elements(over);
      if c in owners && owners[c] == owner && owner != "" && c in idx && idx[c] > now {
        claimed := claimed - {c};
        owners := owners - {c};
        idx := idx - {c};
        tombs := tombs[c := now + RETENTION];
        tombsUntil := now + RETENTION;
        return Recorded, cleaned;
      }
      if c in tombs && tombs[c] > now {
        return Repeated, cleaned;
      }
      tombs := tombs - {c};
      return Fenced, cleaned;
    }
  }

  lemma {:induction false} RequeueTombs(r: Route, expired: seq<Claim>, n: nat)
    requires n <= |expired|
    ensures Requeue(r, expired, n).tombs == r.tombs
    decreases n
  {
    if n > 0 {
      var c := expired[n - 1];
      RequeueTombs(Drop(if c in r.claimed then r.(pending := r.pending + [r.claimed[c]]) else r, c), expired, n - 1);
    }
  }
}
