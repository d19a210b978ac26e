/** The tier-priority scheduler: six strict lanes over round-robin sources. */
module Scheduling {
  import opened Lanes

  const LANES: nat := 6

  /** The lane of a request: reserved before overflow, then interactive, async and everything else. */
  function LaneOf(labels: map<string, string>, tierLabel: string): (lane: nat)
    ensures lane < LANES
  {
    ClassPri(labels) * 3 + TierPri(labels, tierLabel)
  }

  function TierPri(labels: map<string, string>, tierLabel: string): (t: nat)
    ensures t < 3
  {
    if tierLabel !in labels then 2
    else match labels[tierLabel]
      case "interactive" => 0
      case "async" => 1
      case _ => 2
  }

  function ClassPri(labels: map<string, string>): (c: nat)
    ensures c < 2
  {
    if "classification" in labels && labels["classification"] == "reserved" then 0 else 1
  }

  datatype State<M> = State(lanes: seq<Lane<M>>, total: nat, cap: nat, closed: bool)

  datatype Pushed = Full | Closed | Accepted
  datatype Popped<M> = Nothing | Ended | Got(lane: nat, key: string, m: M)

  /** How many messages the first `n` lanes hold. */
  function Sizes<M>(lanes: seq<Lane<M>>, n: nat): nat
    requires n <= |lanes|
  {
    if n == 0 then 0 else Sizes(lanes, n - 1) + lanes[n - 1].size
  }

  ghost predicate Ready<M>(s: State<M>) {
    && |s.lanes| == LANES
    && (forall i | 0 <= i < LANES :: Valid(s.lanes[i]) && s.lanes[i].size <= s.cap)
    && s.total == Sizes(s.lanes, LANES)
  }

  /** A push waits while its own lane is full; a closed scheduler takes nothing. */
  function PushTo<M>(s: State<M>, lane: nat, key: string, m: M): (State<M>, Pushed)
    requires lane < |s.lanes|
  {
    if s.closed then (s, Closed)
    else if s.lanes[lane].size >= s.cap then (s, Full)
    else (s.(lanes := s.lanes[lane := Push(s.lanes[lane], key, m)], total := s.total + 1), Accepted)
  }

  /** The first lane at or after `i` that holds anything. */
  function Lowest<M>(s: State<M>, i: nat): (n: nat)
    requires i <= |s.lanes|
    ensures i <= n <= |s.lanes|
    ensures forall j | i <= j < n :: s.lanes[j].keys == []
    ensures n < |s.lanes| ==> s.lanes[n].keys != []
    decreases |s.lanes| - i
  {
    if i == |s.lanes| || s.lanes[i].keys != [] then i else Lowest(s, i + 1)
  }

  ghost function PopFrom<M>(s: State<M>): (State<M>, Popped<M>)
    requires Ready(s)
  {
    var i := Lowest(s, 0);
    if s.total == 0 then (s, if s.closed then Ended else Nothing)
    else if i == LANES then (s, Ended)
    else
      var (key, m) := Served(s.lanes[i]);
      (s.(lanes := s.lanes[i := Pop(s.lanes[i])], total := s.total - 1), Got(i, key, m))
  }

  lemma {:induction false} SizesUpdate<M>(lanes: seq<Lane<M>>, i: nat, l: Lane<M>, n: nat)
    requires i < |lanes| && n <= |lanes|
    ensures Sizes(lanes[i := l], n) + (if i < n then lanes[i].size else 0) ==
            Sizes(lanes, n) + if i < n then l.size else 0
  {
    if n > 0 {
      SizesUpdate(lanes, i, l, n - 1);
    }
  }

  lemma {:induction false} SizesZero<M>(lanes: seq<Lane<M>>, n: nat)
    requires n <= |lanes| && forall i | 0 <= i < n :: lanes[i].size == 0
    ensures Sizes(lanes, n) == 0
  {
    if n > 0 {
      SizesZero(lanes, n - 1);
    }
  }

  lemma PushReady<M>(s: State<M>, lane: nat, key: string, m: M)
    requires Ready(s) && lane < LANES
    ensures Ready(PushTo(s, lane, key, m).0)
  {
    if !s.closed && s.lanes[lane].size < s.cap {
      PushValid(s.lanes[lane], key, m);
      SizesUpdate(s.lanes, lane, Push(s.lanes[lane], key, m), LANES);
    }
  }

  /** While anything is buffered a pop succeeds, also on a closed scheduler. */
  lemma PopFinds<M>(s: State<M>)
    requires Ready(s)
    ensures s.total > 0 ==> Lowest(s, 0) < LANES
  {
    if Lowest(s, 0) == LANES {
      forall i | 0 <= i < LANES ensures s.lanes[i].size == 0 {
        SizeTells(s.lanes[i]);
      }
      SizesZero(s.lanes, LANES);
    }
  }

  lemma PopReady<M>(s: State<M>)
    requires Ready(s)
    ensures Ready(PopFrom(s).0)
    ensures s.total > 0 <==> PopFrom(s).1.Got?
  {
    PopFinds(s);
    if s.total > 0 {
      var i := Lowest(s, 0);
      PopValid(s.lanes[i]);
      SizesUpdate(s.lanes, i, Pop(s.lanes[i]), LANES);
    }
  }

  // Runs, with what went in and what came out.

  datatype Event<M> = In(lane: nat, key: string, m: M) | Out(lane: nat, key: string, m: M)

  datatype Action<M> = Offer(lane: nat, key: string, m: M) | Take | Shut

  datatype World<M> = World(state: State<M>, log: seq<Event<M>>)

  /** The messages of one source in one lane that went in (or came out), in order. */
  function Of<M>(log: seq<Event<M>>, went: bool, lane: nat, key: string): seq<M> {
    if log == [] then []
    else
      var e := log[|log| - 1];
      Of(log[..|log| - 1], went, lane, key) + if e.In? == went && e.lane == lane && e.key == key then [e.m] else []
  }

  ghost function Next<M>(w: World<M>, a: Action<M>): World<M>
    requires Ready(w.state)
  {
    match a
    case Offer(lane, key, m) =>
      if lane >= LANES then w
      else
        var (s, r) := PushTo(w.state, lane, key, m);
        World(s, if r.Accepted? then w.log + [In(lane, key, m)] else w.log)
    case Take =>
      var (s, r) := PopFrom(w.state);
      World(s, if r.Got? then w.log + [Out(r.lane, r.key, r.m)] else w.log)
    case Shut => w.(state := w.state.(closed := true))
  }

  ghost predicate AccountedAt<M>(w: World<M>, lane: nat, key: string)
    requires lane < |w.state.lanes|
  {
    Of(w.log, true, lane, key) == Of(w.log, false, lane, key) + Queue(w.state.lanes[lane], key)
  }

  /** Every source gets out what it put in, in order; the rest is still queued. */
  ghost predicate Accounted<M>(w: World<M>) {
    forall lane, key | 0 <= lane < |w.state.lanes| :: AccountedAt(w, lane, key)
  }

  lemma OfSnoc<M>(log: seq<Event<M>>, e: Event<M>, went: bool, lane: nat, key: string)
    ensures Of(log + [e], went, lane, key) ==
            Of(log, went, lane, key) + if e.In? == went && e.lane == lane && e.key == key then [e.m] else []
  {
    assert (log + [e])[..|log|] == log;
  }

  lemma InBalance<M>(went: seq<M>, came: seq<M>, queue: seq<M>, m: seq<M>)
    requires went == came + queue
    ensures went + m == came + (queue + m)
  {
  }

  lemma OutBalance<M>(went: seq<M>, came: seq<M>, m: seq<M>, queue: seq<M>)
    requires went == came + (m + queue)
    ensures went == (came + m) + queue
  {
  }

  lemma PushToQueues<M>(s: State<M>, lane: nat, key: string, m: M, i: nat, k: string)
    requires |s.lanes| == LANES && lane < LANES && i < LANES
    ensures var (s', r) := PushTo(s, lane, key, m);
      && |s'.lanes| == LANES
      && (r.Accepted? ==>
            Queue(s'.lanes[i], k) == Queue(s.lanes[i], k) + if i == lane && k == key then [m] else [])
  {
    PushQueues(s.lanes[lane], key, m, k);
  }

  lemma OfferAccounts<M>(w: World<M>, lane: nat, key: string, m: M, i: nat, k: string)
    requires |w.state.lanes| == LANES && lane < LANES && i < LANES && AccountedAt(w, i, k)
    ensures var (s, r) := PushTo(w.state, lane, key, m);
      r.Accepted? ==> AccountedAt(World(s, w.log + [In(lane, key, m)]), i, k)
  {
    var hit := if i == lane && k == key then [m] else [];
    OfSnoc(w.log, In(lane, key, m), true, i, k);
    OfSnoc(w.log, In(lane, key, m), false, i, k);
    PushToQueues(w.state, lane, key, m, i, k);
    InBalance(Of(w.log, true, i, k), Of(w.log, false, i, k), Queue(w.state.lanes[i], k), hit);
  }

  lemma TakeAccounts<M>(w: World<M>, i: nat, k: string)
    requires Ready(w.state) && i < LANES && AccountedAt(w, i, k)
    ensures var (s, r) := PopFrom(w.state);
      r.Got? ==> AccountedAt(World(s, w.log + [Out(r.lane, r.key, r.m)]), i, k)
  {
    var (s, r) := PopFrom(w.state);
    if r.Got? {
      var hit := if i == r.lane && k == r.key then [r.m] else [];
      OfSnoc(w.log, Out(r.lane, r.key, r.m), true, i, k);
      OfSnoc(w.log, Out(r.lane, r.key, r.m), false, i, k);
      PopQueues(w.state.lanes[r.lane], k);
      assert Queue(w.state.lanes[i], k) == hit + Queue(s.lanes[i], k);
      OutBalance(Of(w.log, true, i, k), Of(w.log, false, i, k), hit, Queue(s.lanes[i], k));
    }
  }

  lemma NextKeeps<M>(w: World<M>, a: Action<M>)
    requires Ready(w.state) && Accounted(w)
    ensures Ready(Next(w, a).state) && Accounted(Next(w, a))
  {
    match a
    case Offer(lane, key, m) =>
      if lane < LANES {
        PushReady(w.state, lane, key, m);
        forall i, k | 0 <= i < LANES ensures AccountedAt(Next(w, a), i, k) {
          assert AccountedAt(w, i, k);
          OfferAccounts(w, lane, key, m, i, k);
        }
      }
    case Take =>
      PopReady(w.state);
      forall i, k | 0 <= i < LANES ensures AccountedAt(Next(w, a), i, k) {
        assert AccountedAt(w, i, k);
        TakeAccounts(w, i, k);
      }
    case Shut =>
      forall i, k | 0 <= i < LANES ensures AccountedAt(Next(w, a), i, k) {
        assert AccountedAt(w, i, k);
      }
  }

  /** The world after a run; both invariants travel along. */
  lemma {:induction false} RunKeeps<M>(w: World<M>, acts: seq<Action<M>>) returns (v: World<M>)
    requires Ready(w.state) && Accounted(w)
    ensures Reaches(w, acts, v) && Ready(v.state) && Accounted(v)
    decreases |acts|
  {
    if acts == [] {
      v := w;
    } else {
      NextKeeps(w, acts[0]);
      v := RunKeeps(Next(w, acts[0]), acts[1..]);
    }
  }

  ghost predicate Reaches<M>(w: World<M>, acts: seq<Action<M>>, v: World<M>)
    decreases |acts|
  {
    if acts == [] then v == w else Ready(w.state) && Reaches(Next(w, acts[0]), acts[1..], v)
  }

  lemma {:induction false} ReachesOne<M>(w: World<M>, acts: seq<Action<M>>, u: World<M>, v: World<M>)
    requires Reaches(w, acts, u) && Reaches(w, acts, v)
    ensures u == v
    decreases |acts|
  {
    if acts != [] {
      ReachesOne(Next(w, acts[0]), acts[1..], u, v);
    }
  }

  function Fresh<M>(cap: nat): World<M> { World(State(seq(LANES, _ => Lanes.Empty<M>()), 0, cap, false), []) }

  lemma FreshReady<M>(cap: nat)
    ensures Ready(Fresh<M>(cap).state) && Accounted(Fresh<M>(cap))
  {
    SizesZero(Fresh<M>(cap).state.lanes, LANES);
  }

  /**
   In every run, what came out for a source of a lane is a prefix of what went in, the rest
   is queued, the buffered total is the sum of the lanes, and no lane is above its cap.
   */
  lemma NothingLostOrReordered<M>(cap: nat, acts: seq<Action<M>>, v: World<M>, lane: nat, key: string)
    requires Reaches(Fresh<M>(cap), acts, v) && lane < LANES
    ensures |v.state.lanes| == LANES
    ensures Of(v.log, false, lane, key) <= Of(v.log, true, lane, key)
    ensures Of(v.log, true, lane, key) == Of(v.log, false, lane, key) + Queue(v.state.lanes[lane], key)
    ensures v.state.total == Sizes(v.state.lanes, LANES) && v.state.lanes[lane].size <= v.state.cap
  {
    FreshReady<M>(cap);
    var u := RunKeeps(Fresh<M>(cap), acts);
    ReachesOne(Fresh<M>(cap), acts, u, v);
    assert AccountedAt(v, lane, key);
  }

  /**
   A pop takes the oldest message of some source in the lowest lane that holds anything, and fails
   only when nothing is buffered.
   */
  lemma PopServesLowestLane<M>(cap: nat, acts: seq<Action<M>>, v: World<M>)
    requires Reaches(Fresh<M>(cap), acts, v)
    ensures Ready(v.state)
    ensures var r := PopFrom(v.state).1;
      if v.state.total == 0 then !r.Got?
      else
        && r.Got? && r.lane < LANES
        && Queue(v.state.lanes[r.lane], r.key) != [] && r.m == Queue(v.state.lanes[r.lane], r.key)[0]
        && (forall j | 0 <= j < r.lane :: v.state.lanes[j].size == 0)
  {
    FreshReady<M>(cap);
    var u := RunKeeps(Fresh<M>(cap), acts);
    ReachesOne(Fresh<M>(cap), acts, u, v);
    PopReady(v.state);
    forall j | 0 <= j < LANES ensures v.state.lanes[j].size == 0 <==> v.state.lanes[j].keys == [] {
      SizeTells(v.state.lanes[j]);
    }
  }
}
