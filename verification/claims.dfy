/**
 The claim protocol of the sorted-set transport on one queue: its scripts as functions of
 the queue's keys, and every interleaving of consumers, reclaimers, retries and both ways
 of acknowledging.
 */
module Claims {
  /** A queued request; `gen` is its claim key (ID and token), `score` the queue score its content determines. */
  datatype Member = Member(gen: string, score: int, body: string) | Garbage(body: string)

  datatype Keys = Keys(pending: map<Member, int>, claimed: map<string, Member>, owners: map<string, string>,
                       idx: map<string, int>, retry: map<Member, int>)

  const NoKeys := Keys(map[], map[], map[], map[], map[])

  function Drop(k: Keys, id: string): Keys {
    k.(claimed := k.claimed - {id}, owners := k.owners - {id}, idx := k.idx - {id})
  }

  predicate Owned(k: Keys, id: string, token: string) { id in k.owners && k.owners[id] == token }

  /** Moves a member from pending to claimed, unless another consumer won. */
  function Claim(k: Keys, id: string, m: Member, token: string, expiry: int): (Keys, bool) {
    if m !in k.pending then (k, false)
    else (k.(pending := k.pending - {m}, claimed := k.claimed[id := m], owners := k.owners[id := token],
             idx := k.idx[id := expiry]), true)
  }

  /** Hands a claimed request back to pending. */
  function Release(k: Keys, id: string, m: Member, score: int, token: string): (Keys, bool) {
    if !Owned(k, id, token) then (k, false)
    else (Drop(k.(pending := k.pending[m := score]), id), true)
  }

  /** Whether an acknowledgement may publish, and the keys after it dropped the claim. */
  function Ack(k: Keys, id: string, token: string): (Keys, bool) {
    if !Owned(k, id, token) || token == "" then (k, false) else (Drop(k, id), true)
  }

  function DropClaim(k: Keys, id: string, token: string): (Keys, bool) {
    if !Owned(k, id, token) then (k, false) else (Drop(k, id), true)
  }

  /** Redelivers an expired claim; renewed claims and ghosts are left alone. */
  function Reclaim(k: Keys, id: string, score: int, now: int): (Keys, bool) {
    if id !in k.idx || k.idx[id] > now then (k, false)
    else if id !in k.claimed then (k.(idx := k.idx - {id}), false)
    else (Drop(k.(pending := k.pending[k.claimed[id] := score]), id), true)
  }

  datatype Renewed = Extended | Stolen | Missing

  function Renew(k: Keys, id: string, token: string, expiry: int): (Keys, Renewed) {
    if !Owned(k, id, token) then (k, if id in k.claimed then Stolen else Missing)
    else (k.(idx := k.idx[id := expiry]), Extended)
  }

  const GRACE: int := 300

  /** The lease end: the lease time, but never past the request's deadline and the grace after it. */
  function ClaimExpiry(now: int, ttl: int, deadline: int): int {
    if deadline > 0 && deadline + GRACE < now + ttl then deadline + GRACE else now + ttl
  }

  /** What a claim token was issued for, and how many claims came before it. */
  datatype Claimed = Claimed(id: string, member: Member, nth: nat)

  /**
   The keys with what happened: the generations submitted, what every claim token claimed, the
   tokens of the three-step acknowledgements that passed their fence and have not pushed yet, the
   tokens that published atomically and in three steps, and the retries a mover took off the retry
   set.
   */
  datatype World = World(keys: Keys, submitted: set<string>, made: map<string, Claimed>, claims: nat,
                         fenced: multiset<string>, atomic: seq<string>, stepped: seq<string>, moving: set<Member>)

  const Start := World(NoKeys, {}, map[], 0, multiset{}, [], [], {})

  datatype Step =
    | Submit(m: Member)
    | DropGarbage(m: Member)
    | Claiming(m: Member, token: string, expiry: int)
    | Releasing(token: string)
    | AckAtomic(token: string)
    | Fence(token: string, expiry: int)
    | PushResult(token: string)
    | FailPush(token: string)
    | DropPushed(token: string)
    | Reclaiming(id: string, score: int, now: int)
    | Heartbeat(token: string, expiry: int)
    | Park(m: Member, due: int)
    | MoveOut(m: Member)
    | MoveIn(m: Member)
    | MoveBack(m: Member, due: int)
    | LoseMove(m: Member)

  /**
   Tokens are fresh; releases, acks and renewals name a token some claim made; every push, and every
   push that fails, follows a fence of its own.
   */
  predicate Enabled(w: World, st: Step) {
    match st
    case Submit(m) => m.Member?
    case DropGarbage(m) => m.Garbage?
    case Claiming(m, token, _) => m.Member? && token != "" && token !in w.made
    case Releasing(token) => token in w.made
    case AckAtomic(token) => token in w.made
    case Fence(token, _) => token in w.made
    case PushResult(token) => token in w.fenced
    case FailPush(token) => token in w.fenced
    case DropPushed(token) => token in w.stepped && token in w.made
    case Reclaiming(_, _, _) => true
    case Heartbeat(token, _) => token in w.made
    case Park(m, _) => m.Member?
    case MoveOut(m) => m in w.keys.retry
    case MoveIn(m) => m in w.moving && m.Member?
    case MoveBack(m, _) => m in w.moving
    case LoseMove(m) => m in w.moving
  }

  /** The keys after an enabled step. */
  function KeysAfter(w: World, st: Step): Keys
    requires Enabled(w, st)
  {
    var k := w.keys;
    match st
    case Submit(m) => k.(pending := k.pending[m := m.score])
    case DropGarbage(m) => k.(pending := k.pending - {m})
    case Claiming(m, token, expiry) => Claim(k, m.gen, m, token, expiry).0
    case Releasing(token) =>
      var c := w.made[token];
      if c.member.Member? then Release(k, c.id, c.member, c.member.score, token).0 else k
    case AckAtomic(token) => Ack(k, w.made[token].id, token).0
    case Fence(token, expiry) => Renew(k, w.made[token].id, token, expiry).0
    case PushResult(token) => k
    case FailPush(token) => k
    case DropPushed(token) => DropClaim(k, w.made[token].id, token).0
    case Reclaiming(id, score, now) => Reclaim(k, id, score, now).0
    case Heartbeat(token, expiry) => Renew(k, w.made[token].id, token, expiry).0
    case Park(m, due) => k.(retry := k.retry[m := due])
    case MoveOut(m) => k.(retry := k.retry - {m})
    case MoveIn(m) => k.(pending := k.pending[m := m.score])
    case MoveBack(m, due) => k.(retry := k.retry[m := due])
    case LoseMove(m) => k
  }

  function Next(w: World, st: Step): World {
    if !Enabled(w, st) then w
    else
      var w' := w.(keys := KeysAfter(w, st));
      match st
      case Submit(m) => w'.(submitted := w.submitted + {m.gen})
      case Claiming(m, token, _) =>
        if m in w.keys.pending
        then w'.(made := w.made[token := Claimed(m.gen, m, w.claims)], claims := w.claims + 1)
        else w'
      case AckAtomic(token) =>
        if Owned(w.keys, w.made[token].id, token) && token != "" then w'.(atomic := w.atomic + [token]) else w'
      case Fence(token, _) =>
        if Owned(w.keys, w.made[token].id, token) then w'.(fenced := w.fenced + multiset{token}) else w'
      case PushResult(token) => w'.(fenced := w.fenced - multiset{token}, stepped := w.stepped + [token])
      case FailPush(token) => w'.(fenced := w.fenced - multiset{token})
      case MoveOut(m) => w'.(moving := w.moving + {m})
      case MoveIn(m) => w'.(moving := w.moving - {m})
      case MoveBack(m, _) => w'.(moving := w.moving - {m})
      case LoseMove(m) => w'.(moving := w.moving - {m})
      case _ => w'
  }

  function Run(w: World, steps: seq<Step>): World
    decreases |steps|
  {
    if steps == [] then w else Run(Next(w, steps[0]), steps[1..])
  }

  lemma {:induction false} RunJoins(w: World, a: seq<Step>, b: seq<Step>)
    ensures Run(w, a + b) == Run(Run(w, a), b)
    decreases |a|
  {
    if a == [] {
      assert a + b == b;
    } else {
      assert (a + b)[1..] == a[1..] + b;
      RunJoins(Next(w, a[0]), a[1..], b);
    }
  }

  lemma RunSnoc(w: World, steps: seq<Step>, st: Step)
    ensures Run(w, steps + [st]) == Next(Run(w, steps), st)
  {
    RunJoins(w, steps, [st]);
    assert [st][1..] == [];
  }

  /** Claims, owners and leases have the same keys. */
  predicate Aligned(k: Keys) { k.claimed.Keys == k.owners.Keys == k.idx.Keys }

  /** The claim on a generation is the latest one made for it, and holds the member that claim took. */
  ghost predicate Latest(k: Keys, made: map<string, Claimed>, id: string)
    requires Aligned(k)
  {
    id in k.owners ==>
      var token := k.owners[id];
      && token in made && made[token].id == id && made[token].member == k.claimed[id]
      && forall other | other in made && made[other].id == id :: made[other].nth <= made[token].nth
  }

  ghost predicate Matched(w: World) {
    && Aligned(w.keys)
    && (forall id :: Latest(w.keys, w.made, id))
    && (forall token | token in w.made ::
          token != "" && w.made[token].member.Member? && w.made[token].member.gen == w.made[token].id
              && w.made[token].nth < w.claims)
  }

  /** A result for the generation was published, under some token that claimed it. */
  ghost predicate Published(w: World, gen: string) {
    exists token :: token in w.made && w.made[token].id == gen && (token in w.atomic || token in w.stepped)
  }

  ghost predicate Pending(w: World, gen: string) {
    exists m :: m in w.keys.pending && m.Member? && m.gen == gen
  }

  /** The generation is waiting, claimed, or has a result. */
  ghost predicate Covered(w: World, gen: string) {
    Pending(w, gen) || gen in w.keys.claimed || Published(w, gen)
  }

  /** No token published atomically twice, and one that did owns nothing. */
  ghost predicate Spent(w: World) {
    && (forall i, j | 0 <= i < j < |w.atomic| :: w.atomic[i] != w.atomic[j])
    && (forall id | id in w.keys.owners :: w.keys.owners[id] !in w.atomic)
    && Logged(w)
  }

  /** Only tokens of claims that were made publish. */
  ghost predicate Logged(w: World) {
    forall token | token in w.atomic || token in w.stepped || token in w.fenced :: token in w.made
  }

  ghost predicate Inv(w: World) {
    Matched(w) && Spent(w) && forall gen | gen in w.submitted :: Covered(w, gen)
  }

  lemma KeysAlign(w: World, st: Step)
    requires Aligned(w.keys) && Enabled(w, st)
    ensures Aligned(KeysAfter(w, st))
  {
  }

  /** A step that makes no claim leaves each owner and its member as they were, or drops them. */
  lemma KeysFade(w: World, st: Step, id: string)
    requires Aligned(w.keys) && Enabled(w, st) && !st.Claiming?
    ensures id in KeysAfter(w, st).owners ==> id in w.keys.owners && KeysAfter(w, st).owners[id] == w.keys.owners[id]
    ensures id in KeysAfter(w, st).claimed ==>
      && id in w.keys.claimed
      && KeysAfter(w, st).claimed[id] == w.keys.claimed[id]
  {
  }

  lemma NextLatest(w: World, st: Step, id: string)
    requires Matched(w) && Enabled(w, st) && Aligned(KeysAfter(w, st))
    ensures Latest(Next(w, st).keys, Next(w, st).made, id)
  {
    assert Latest(w.keys, w.made, id);
    if !st.Claiming? { KeysFade(w, st, id); }
  }

  lemma NextMatches(w: World, st: Step)
    requires Matched(w)
    ensures Matched(Next(w, st))
  {
    if Enabled(w, st) {
      KeysAlign(w, st);
      forall id ensures Latest(Next(w, st).keys, Next(w, st).made, id) {
        NextLatest(w, st, id);
      }
    }
  }

  /** Owners after a step are owners from before, or a token that was never used. */
  lemma OwnerAfter(w: World, st: Step, id: string)
    requires Matched(w) && Enabled(w, st) && id in KeysAfter(w, st).owners
    ensures var token := KeysAfter(w, st).owners[id];
      (id in w.keys.owners && w.keys.owners[id] == token
          && (st.AckAtomic? && Owned(w.keys, w.made[st.token].id, st.token) ==> token != st.token))
      || token !in w.made
  {
    KeysAlign(w, st);
    assert Latest(w.keys, w.made, id);
    if !st.Claiming? { KeysFade(w, st, id); }
  }

  /** A claim token keeps what it was issued for, and only the owner's acknowledgement publishes atomically. */
  lemma LogsGrow(w: World, st: Step)
    requires Enabled(w, st)
    ensures forall token | token in w.made :: token in Next(w, st).made && Next(w, st).made[token] == w.made[token]
    ensures Next(w, st).atomic == w.atomic +
            if st.AckAtomic? && Owned(w.keys, w.made[st.token].id, st.token) && st.token != "" then [st.token] else []
  {
  }

  lemma NextLogged(w: World, st: Step)
    requires Logged(w)
    ensures Logged(Next(w, st))
  {
  }

  lemma NextSpends(w: World, st: Step)
    requires Matched(w) && Spent(w)
    ensures Spent(Next(w, st))
  {
    NextLogged(w, st);
    if Enabled(w, st) {
      LogsGrow(w, st);
      StillSpent(w, st, Next(w, st));
    }
  }

  lemma StillSpent(w: World, st: Step, w': World)
    requires Matched(w) && Spent(w) && Enabled(w, st) && w'.keys == KeysAfter(w, st) && Logged(w')
    requires w'.atomic == w.atomic +
             if st.AckAtomic? && Owned(w.keys, w.made[st.token].id, st.token) && st.token != "" then [st.token] else []
    ensures Spent(w')
  {
    forall id | id in w'.keys.owners ensures w'.keys.owners[id] !in w'.atomic {
      OwnerAfter(w, st, id);
    }
  }

  /** A waiting request stays in pending until a claim takes it. */
  lemma PendingStays(w: World, st: Step, m: Member)
    requires Aligned(w.keys) && m.Member? && m in w.keys.pending
    ensures m in Next(w, st).keys.pending || m.gen in Next(w, st).keys.claimed
  {
  }

  lemma PublishedStays(w: World, st: Step, gen: string)
    requires Published(w, gen)
    ensures Published(Next(w, st), gen)
  {
    var token :| token in w.made && w.made[token].id == gen && (token in w.atomic || token in w.stepped);
    var w' := Next(w, st);
    assert token in w'.made && w'.made[token].id == gen && (token in w'.atomic || token in w'.stepped);
  }

  /** A claim ends only by putting its request back or by a published result. */
  lemma ClaimedStays(w: World, st: Step, gen: string)
    requires Matched(w) && gen in w.keys.claimed
    ensures Covered(Next(w, st), gen)
  {
    var w', token := Next(w, st), w.keys.owners[gen];
    assert Latest(w.keys, w.made, gen);
    if gen !in w'.keys.claimed {
      var m := w.keys.claimed[gen];
      if st.Releasing? || st.Reclaiming? {
        assert m in w'.keys.pending && m.Member? && m.gen == gen;
      } else {
        assert st.AckAtomic? || st.DropPushed?;
        assert token in w'.made && w'.made[token].id == gen && (token in w'.atomic || token in w'.stepped);
      }
    }
  }

  lemma NextCovers(w: World, st: Step, gen: string)
    requires Matched(w) && Covered(w, gen)
    ensures Covered(Next(w, st), gen)
  {
    if gen in w.keys.claimed {
      ClaimedStays(w, st, gen);
    } else if Published(w, gen) {
      PublishedStays(w, st, gen);
    } else {
      var m :| m in w.keys.pending && m.Member? && m.gen == gen;
      PendingStays(w, st, m);
    }
  }

  lemma NextSubmits(w: World, st: Step, gen: string)
    requires gen in Next(w, st).submitted && gen !in w.submitted
    ensures Pending(Next(w, st), gen)
  {
    assert st.m in Next(w, st).keys.pending;
  }

  lemma NextKeeps(w: World, st: Step)
    requires Inv(w)
    ensures Inv(Next(w, st))
  {
    NextMatches(w, st);
    NextSpends(w, st);
    forall gen | gen in Next(w, st).submitted ensures Covered(Next(w, st), gen) {
      if gen in w.submitted { NextCovers(w, st, gen); } else { NextSubmits(w, st, gen); }
    }
  }

  lemma {:induction false} RunKeeps(w: World, steps: seq<Step>)
    requires Inv(w)
    ensures Inv(Run(w, steps))
    decreases |steps|
  {
    if steps != [] {
      NextKeeps(w, steps[0]);
      RunKeeps(Next(w, steps[0]), steps[1..]);
    }
  }

  /**
   In every run, with crashes, retries, lapsed leases and both ways of acknowledging: the claim
   hash, the owners and the lease index have the same keys, and every submitted generation is
   waiting, claimed or has a published result.
   */
  lemma NothingIsLost(steps: seq<Step>, gen: string)
    ensures Aligned(Run(Start, steps).keys)
    ensures gen in Run(Start, steps).submitted ==> Covered(Run(Start, steps), gen)
  {
    RunKeeps(Start, steps);
  }

  /** On the atomic path each claim token publishes at most once. */
  lemma AtomicAckOnce(steps: seq<Step>, i: nat, j: nat)
    requires i < j < |Run(Start, steps).atomic|
    ensures Run(Start, steps).atomic[i] != Run(Start, steps).atomic[j]
  {
    RunKeeps(Start, steps);
  }

  /**
   Whoever passes the owner check holds the latest claim of its generation and the very member
   that claim took, so an owner whose claim was taken over can neither publish, renew, drop nor
   release.
   */
  lemma OwnerIsLatest(steps: seq<Step>, token: string, other: string)
    requires var w := Run(Start, steps);
      token in w.made && Owned(w.keys, w.made[token].id, token) && other in w.made
          && w.made[other].id == w.made[token].id
    ensures var w := Run(Start, steps);
      && w.made[other].nth <= w.made[token].nth
      && w.made[token].id in w.keys.claimed && w.keys.claimed[w.made[token].id] == w.made[token].member
  {
    RunKeeps(Start, steps);
    assert Latest(Run(Start, steps).keys, Run(Start, steps).made, Run(Start, steps).made[token].id);
  }

  /**
   A release in any run puts back exactly the member its token claimed, at the score of that member,
   and frees only that claim.
   */
  lemma ReleaseRestores(steps: seq<Step>, token: string)
    requires var w := Run(Start, steps); token in w.made && Owned(w.keys, w.made[token].id, token)
    ensures var w, c := Run(Start, steps), Run(Start, steps).made[token];
      && c.member.Member? && c.id in w.keys.claimed
      && Next(w, Releasing(token)).keys ==
         w.keys.(pending := w.keys.pending[w.keys.claimed[c.id] := c.member.score], claimed := w.keys.claimed - {c.id},
                 owners := w.keys.owners - {c.id}, idx := w.keys.idx - {c.id})
  {
    RunKeeps(Start, steps);
    assert Latest(Run(Start, steps).keys, Run(Start, steps).made, Run(Start, steps).made[token].id);
  }

  /** Claiming a request nobody holds and releasing it leaves every key as it was. */
  lemma ClaimThenRelease(k: Keys, m: Member, token: string, expiry: int)
    requires m.Member? && m in k.pending && k.pending[m] == m.score
    requires Aligned(k) && m.gen !in k.claimed
    ensures Release(Claim(k, m.gen, m, token, expiry).0, m.gen, m, m.score, token) == (k, true)
  {
    var k' := Release(Claim(k, m.gen, m, token, expiry).0, m.gen, m, m.score, token).0;
    assert k'.pending == k.pending && k'.claimed == k.claimed && k'.owners == k.owners && k'.idx == k.idx;
  }

  /** The waiting members of a generation. */
  function PendingOf(k: Keys, gen: string): set<Member> {
    set m | m in k.pending && m.Member? && m.gen == gen
  }

  function Publishes(w: World, token: string, gen: string): nat {
    if token in w.made && w.made[token].id == gen then 1 else 0
  }

  /** How often the first `n` atomic publications were of a generation. */
  function Publications(w: World, gen: string, n: nat): nat
    requires n <= |w.atomic|
  {
    if n == 0 then 0 else Publications(w, gen, n - 1) + Publishes(w, w.atomic[n - 1], gen)
  }

  /** Places in which a generation waits or is held, and the times it was published. */
  function Load(w: World, gen: string): nat {
    Held(w.keys, gen) + Publications(w, gen, |w.atomic|)
  }

  /** One when the step puts a member of the generation into pending from outside, submitted or as a retry. */
  function Entry(w: World, st: Step, gen: string): nat {
    if (st.Submit? || st.MoveIn?) && Enabled(w, st) && st.m.gen == gen then 1 else 0
  }

  function Entries(w: World, steps: seq<Step>, gen: string): nat
    decreases |steps|
  {
    if steps == [] then 0 else Entry(w, steps[0], gen) + Entries(Next(w, steps[0]), steps[1..], gen)
  }

  lemma {:induction false} PublicationsStay(w: World, w': World, gen: string, n: nat)
    requires n <= |w.atomic| && w.atomic <= w'.atomic
    requires forall i | 0 <= i < |w.atomic| :: Publishes(w, w.atomic[i], gen) == Publishes(w', w.atomic[i], gen)
    ensures Publications(w', gen, n) == Publications(w, gen, n)
  {
    if n > 0 { PublicationsStay(w, w', gen, n - 1); }
  }

  lemma PublishesAtMost(w: World, st: Step, gen: string, w': World)
    requires Matched(w) && Spent(w) && Enabled(w, st)
    requires forall token | token in w.made :: token in w'.made && w'.made[token] == w.made[token]
    requires w'.atomic == w.atomic +
             if st.AckAtomic? && Owned(w.keys, w.made[st.token].id, st.token) && st.token != "" then [st.token] else []
    ensures Publications(w', gen, |w'.atomic|) <= Publications(w, gen, |w.atomic|) + Acked(w, st, gen)
  {
    PublicationsStay(w, w', gen, |w.atomic|);
  }

  /** One when the step is an acknowledgement that publishes the generation. */
  function Acked(w: World, st: Step, gen: string): nat {
    if st.AckAtomic? && st.token in w.made && w.made[st.token].id == gen && Owned(w.keys, gen, st.token) then 1 else 0
  }

  /** One when the step drops the claim of a generation whose result was pushed. */
  function Dropped(w: World, st: Step, gen: string): nat {
    if st.DropPushed? && Enabled(w, st) && w.made[st.token].id == gen && Owned(w.keys, gen, st.token) then 1 else 0
  }

  function Held(k: Keys, gen: string): nat { |PendingOf(k, gen)| + if gen in k.claimed then 1 else 0 }

  lemma AddPending(k: Keys, m: Member, score: int, gen: string)
    requires m.Member?
    ensures var k' := k.(pending := k.pending[m := score]);
      |PendingOf(k', gen)| <= |PendingOf(k, gen)| + if m.gen == gen then 1 else 0
  {
    var k' := k.(pending := k.pending[m := score]);
    assert PendingOf(k', gen) == PendingOf(k, gen) + if m.gen == gen then {m} else {};
  }

  /** Putting a claimed request back and dropping its claim moves it, at most. */
  lemma PutBack(k: Keys, id: string, score: int, gen: string)
    requires id in k.claimed && k.claimed[id].Member? && k.claimed[id].gen == id
    ensures Held(Drop(k.(pending := k.pending[k.claimed[id] := score]), id), gen) <= Held(k, gen)
  {
    AddPending(k, k.claimed[id], score, gen);
    var k' := k.(pending := k.pending[k.claimed[id] := score]);
    assert PendingOf(Drop(k', id), gen) == PendingOf(k', gen);
  }

  lemma ClaimHolds(k: Keys, m: Member, token: string, expiry: int, gen: string)
    requires m.Member?
    ensures Held(Claim(k, m.gen, m, token, expiry).0, gen) <= Held(k, gen)
  {
    var k' := Claim(k, m.gen, m, token, expiry).0;
    if m in k.pending {
      assert PendingOf(k', gen) == PendingOf(k, gen) - {m};
      if m.gen == gen { assert m in PendingOf(k, gen); }
    }
  }

  lemma DropHolds(k: Keys, id: string, gen: string)
    requires id in k.claimed
    ensures Held(Drop(k, id), gen) + (if id == gen then 1 else 0) == Held(k, gen)
  {
    assert PendingOf(Drop(k, id), gen) == PendingOf(k, gen);
  }

  /** A step adds to what waits and is held of a generation only by an entry, and a publication takes its claim. */
  lemma HeldAtMost(w: World, st: Step, gen: string)
    requires Matched(w) && Enabled(w, st)
    ensures Held(KeysAfter(w, st), gen) + Acked(w, st, gen) + Dropped(w, st, gen) <=
            Held(w.keys, gen) + Entry(w, st, gen)
  {
    var k := w.keys;
    match st
    case Submit(m) => AddPending(k, m, m.score, gen);
    case MoveIn(m) => AddPending(k, m, m.score, gen);
    case DropGarbage(m) => assert PendingOf(KeysAfter(w, st), gen) == PendingOf(k, gen);
    case Claiming(m, token, expiry) => ClaimHolds(k, m, token, expiry, gen);
    case Releasing(token) =>
      assert Latest(k, w.made, w.made[token].id);
      if Owned(k, w.made[token].id, token) { PutBack(k, w.made[token].id, w.made[token].member.score, gen); }
    case Reclaiming(id, score, now) =>
      assert Latest(k, w.made, id);
      if id in k.idx && k.idx[id] <= now { PutBack(k, id, score, gen); }
    case AckAtomic(token) => if Owned(k, w.made[token].id, token) { DropHolds(k, w.made[token].id, gen); }
    case DropPushed(token) => if Owned(k, w.made[token].id, token) { DropHolds(k, w.made[token].id, gen); }
    case _ => assert PendingOf(KeysAfter(w, st), gen) == PendingOf(k, gen);
  }

  lemma LoadAtMost(w: World, st: Step, gen: string)
    requires Inv(w)
    ensures Load(Next(w, st), gen) + Dropped(w, st, gen) <= Load(w, gen) + Entry(w, st, gen)
  {
    if Enabled(w, st) {
      HeldAtMost(w, st, gen);
      LogsGrow(w, st);
      PublishesAtMost(w, st, gen, Next(w, st));
    }
  }

  /** How often a run drops the claim of a generation whose result was pushed. */
  function Drops(w: World, steps: seq<Step>, gen: string): nat
    decreases |steps|
  {
    if steps == [] then 0 else Dropped(w, steps[0], gen) + Drops(Next(w, steps[0]), steps[1..], gen)
  }

  /** Over any run, what waits, is held and was published of a generation grows by no more than its entries. */
  lemma {:induction false} EntriesBoundLoad(w: World, steps: seq<Step>, gen: string)
    requires Inv(w)
    ensures Load(Run(w, steps), gen) + Drops(w, steps, gen) <= Load(w, gen) + Entries(w, steps, gen)
    decreases |steps|
  {
    if steps != [] {
      NextKeeps(w, steps[0]);
      LoadAtMost(w, steps[0], gen);
      EntriesBoundLoad(Next(w, steps[0]), steps[1..], gen);
    }
  }

  /**
   In every run a generation is published atomically at most once for its submission and once for
   each retry of it that re-entered pending, whatever lapses, is redelivered or taken over. One
   submitted once whose retries never re-entered is published at most once.
   */
  lemma PublishedOncePerEntry(steps: seq<Step>, gen: string)
    ensures var w := Run(Start, steps); Publications(w, gen, |w.atomic|) <= Entries(Start, steps, gen)
  {
    EntriesBoundLoad(Start, steps, gen);
    assert PendingOf(NoKeys, gen) == {};
  }

  // The three-step path.

  /** One when the step pushes a result of the generation. */
  function Pushed(w: World, st: Step, gen: string): nat {
    if st.PushResult? && Enabled(w, st) then Publishes(w, st.token, gen) else 0
  }

  /** How often a run pushes a result of a generation. */
  function Pushes(w: World, steps: seq<Step>, gen: string): nat
    decreases |steps|
  {
    if steps == [] then 0 else Pushed(w, steps[0], gen) + Pushes(Next(w, steps[0]), steps[1..], gen)
  }

  /** How often it does under a token that had pushed already. */
  function Repeats(w: World, steps: seq<Step>, gen: string): nat
    decreases |steps|
  {
    if steps == [] then 0
    else
      (if steps[0].PushResult? && steps[0].token in w.stepped then Pushed(w, steps[0], gen) else 0) +
      Repeats(Next(w, steps[0]), steps[1..], gen)
  }

  predicate DropsClaim(w: World, st: Step, token: string) {
    st == DropPushed(token) && Enabled(w, st) && Owned(w.keys, w.made[token].id, token)
  }

  /** The run drops the claim of a token whose result was pushed. */
  predicate DropsLater(w: World, steps: seq<Step>, token: string)
    decreases |steps|
  {
    steps != [] && (DropsClaim(w, steps[0], token) || DropsLater(Next(w, steps[0]), steps[1..], token))
  }

  /** The token pushes now and for the first time, and its claim is, or is not, dropped later. */
  function FirstPush(w: World, steps: seq<Step>, gen: string, dropped: bool): nat
    requires steps != []
  {
    var st := steps[0];
    if st.PushResult? && st.token !in w.stepped && DropsLater(Next(w, st), steps[1..], st.token) == dropped
    then Pushed(w, st, gen) else 0
  }

  /** How many tokens push a result of the generation and never drop their claim. */
  function Undropped(w: World, steps: seq<Step>, gen: string): nat
    decreases |steps|
  {
    if steps == [] then 0
    else FirstPush(w, steps, gen, false) + Undropped(Next(w, steps[0]), steps[1..], gen)
  }

  /** How many push and later drop it. */
  function DroppedAfter(w: World, steps: seq<Step>, gen: string): nat
    decreases |steps|
  {
    if steps == [] then 0
    else FirstPush(w, steps, gen, true) + DroppedAfter(Next(w, steps[0]), steps[1..], gen)
  }

  lemma {:induction false} EveryPushIsOne(w: World, steps: seq<Step>, gen: string)
    ensures Pushes(w, steps, gen) ==
            Repeats(w, steps, gen) + Undropped(w, steps, gen) + DroppedAfter(w, steps, gen)
    decreases |steps|
  {
    if steps != [] { EveryPushIsOne(Next(w, steps[0]), steps[1..], gen); }
  }

  /** The tokens that have pushed a result of the generation and drop their claim in the run. */
  function StillToDrop(w: World, steps: seq<Step>, gen: string): set<string> {
    set token | token in w.stepped && Publishes(w, token, gen) == 1 && DropsLater(w, steps, token)
  }

  /** A step takes at most the token it drops off those still to drop, and adds at most the one it pushes. */
  lemma StillToDropNext(w: World, steps: seq<Step>, gen: string)
    requires steps != [] && Spent(w)
    ensures var st, rest := steps[0], StillToDrop(Next(w, steps[0]), steps[1..], gen);
      && StillToDrop(w, steps, gen) <= rest + (if Dropped(w, st, gen) == 1 then {st.token} else {})
      && (FirstPush(w, steps, gen, true) == 1 ==> st.token in rest && st.token !in StillToDrop(w, steps, gen))
      && (FirstPush(w, steps, gen, true) == 1 ==> Dropped(w, st, gen) == 0)
  {
    var st, w' := steps[0], Next(w, steps[0]);
    forall token | token in StillToDrop(w, steps, gen)
      ensures token in StillToDrop(w', steps[1..], gen) || (Dropped(w, st, gen) == 1 && st.token == token)
    {
      assert token in w.made && w'.made[token] == w.made[token];
    }
  }

  lemma {:induction false} DropsCoverDropped(w: World, steps: seq<Step>, gen: string)
    requires Inv(w)
    ensures |StillToDrop(w, steps, gen)| + DroppedAfter(w, steps, gen) <= Drops(w, steps, gen)
    decreases |steps|
  {
    if steps == [] {
      assert StillToDrop(w, steps, gen) == {};
    } else {
      var st, rest := steps[0], StillToDrop(Next(w, steps[0]), steps[1..], gen);
      NextKeeps(w, st);
      DropsCoverDropped(Next(w, st), steps[1..], gen);
      StillToDropNext(w, steps, gen);
      var now := StillToDrop(w, steps, gen);
      if FirstPush(w, steps, gen, true) == 1 {
        Within(now + {st.token}, rest);
      } else if Dropped(w, st, gen) == 1 {
        Within(now, rest + {st.token});
      } else {
        Within(now, rest);
      }
    }
  }

  lemma Within(a: set<string>, b: set<string>)
    requires a <= b
    ensures |a| <= |b|
  {
    assert b == a + (b - a);
  }

  /**
   With both paths in use, in every run a generation is published at most once per entry, once more
   for each push by a token that had pushed already, and once more for each token that pushed and
   never dropped its claim.
   */
  lemma PublishedPerEntryRepeatAndLostDrop(steps: seq<Step>, gen: string)
    ensures var w := Run(Start, steps);
      Publications(w, gen, |w.atomic|) + Pushes(Start, steps, gen) <=
      Entries(Start, steps, gen) + Repeats(Start, steps, gen) + Undropped(Start, steps, gen)
  {
    EntriesBoundLoad(Start, steps, gen);
    EveryPushIsOne(Start, steps, gen);
    DropsCoverDropped(Start, steps, gen);
    assert PendingOf(NoKeys, gen) == {};
  }

  /** An acknowledgement passes its fence though an earlier one of the token has pushed, or still may. */
  predicate Refences(w: World, st: Step) {
    st.Fence? && Enabled(w, st) && Owned(w.keys, w.made[st.token].id, st.token)
        && (st.token in w.fenced || st.token in w.stepped)
  }

  predicate Acknowledges(w: World, steps: seq<Step>)
    decreases |steps|
  {
    steps == [] || (!Refences(w, steps[0]) && Acknowledges(Next(w, steps[0]), steps[1..]))
  }

  /** No token pushed twice, nor has it a push to come after one. */
  ghost predicate PushedOnce(w: World) {
    && (forall i, j | 0 <= i < j < |w.stepped| :: w.stepped[i] != w.stepped[j])
    && (forall token :: w.fenced[token] <= 1 && (token in w.stepped ==> w.fenced[token] == 0))
  }

  lemma {:induction false} PushedOnceStays(w: World, steps: seq<Step>)
    requires PushedOnce(w) && Acknowledges(w, steps)
    ensures PushedOnce(Run(w, steps))
    decreases |steps|
  {
    if steps != [] {
      assert PushedOnce(Next(w, steps[0]));
      PushedOnceStays(Next(w, steps[0]), steps[1..]);
    }
  }

  /**
   On the three-step path each token publishes at most once in every run in which no acknowledgement
   passes the fence after an earlier one of its token did, unless that one's push failed.
   */
  lemma SteppedAckOnce(steps: seq<Step>, i: nat, j: nat)
    requires Acknowledges(Start, steps) && i < j < |Run(Start, steps).stepped|
    ensures Run(Start, steps).stepped[i] != Run(Start, steps).stepped[j]
  {
    PushedOnceStays(Start, steps);
  }

  /** And only then: after any fence that is passed again, pushing once more publishes a second time. */
  lemma RefencedAckTwice(w: World, token: string, expiry: int)
    requires Refences(w, Fence(token, expiry))
    ensures var w1 := Run(w, [Fence(token, expiry), PushResult(token)]);
      if token in w.stepped then w1.stepped == w.stepped + [token]
      else Next(w1, PushResult(token)).stepped == w.stepped + [token, token]
  {
    var w1 := Next(w, Fence(token, expiry));
    var w2 := Next(w1, PushResult(token));
    assert Run(w1, [PushResult(token)]) == w2;
    if token !in w.stepped {
      assert w2.fenced == w.fenced;
      assert w.stepped + [token] + [token] == w.stepped + [token, token];
    }
  }

  /** A request pushed once under a token that still owns its claim. */
  function PushedAndHeld(m: Member, token: string): World
    requires m.Member?
  {
    World(Keys(map[], map[m.gen := m], map[m.gen := token], map[m.gen := 2], map[]), {m.gen},
          map[token := Claimed(m.gen, m, 0)], 1, multiset{}, [], [token], {})
  }

  lemma PushedAndHeldIsReached(m: Member, token: string)
    requires m.Member? && token != ""
    ensures Run(Start, [Submit(m), Claiming(m, token, 1), Fence(token, 2), PushResult(token)]) ==
            PushedAndHeld(m, token)
  {
    var w1 := Next(Start, Submit(m));
    var w2 := Next(w1, Claiming(m, token, 1));
    var w3 := Next(w2, Fence(token, 2));
    var w4 := Next(w3, PushResult(token));
    assert w4.keys == PushedAndHeld(m, token).keys;
    assert Run(w3, [PushResult(token)]) == w4;
    assert Run(w2, [Fence(token, 2), PushResult(token)]) == w4;
    assert Run(w1, [Claiming(m, token, 1), Fence(token, 2), PushResult(token)]) == w4;
  }

  /** From there one token publishes twice: its acknowledgement is retried before the claim is dropped. */
  lemma SteppedAckTwice(m: Member, token: string, expiry: int)
    requires m.Member? && token != ""
    ensures Run(PushedAndHeld(m, token), [Fence(token, expiry), PushResult(token)]).stepped == [token, token]
  {
    RefencedAckTwice(PushedAndHeld(m, token), token, expiry);
  }

  /** A claim whose lease ran out while its retry was parked. */
  function ParkedAndLapsed(m: Member, again: Member, first: string): World
    requires m.Member?
  {
    World(Keys(map[m := m.score], map[], map[], map[], map[again := 1]), {m.gen}, map[first := Claimed(m.gen, m, 0)],
          1, multiset{}, [], [], {})
  }

  lemma ParkedAndLapsedIsReached(m: Member, again: Member, first: string)
    requires m.Member? && again.Member? && first != ""
    ensures Run(Start, [Submit(m), Claiming(m, first, 1), Park(again, 1), Reclaiming(m.gen, m.score, 1)]) ==
        ParkedAndLapsed(m, again, first)
  {
    var w1 := Next(Start, Submit(m));
    var w2 := Next(w1, Claiming(m, first, 1));
    var w3 := Next(w2, Park(again, 1));
    var w4 := Next(w3, Reclaiming(m.gen, m.score, 1));
    assert w4.keys == ParkedAndLapsed(m, again, first).keys;
    assert Run(w3, [Reclaiming(m.gen, m.score, 1)]) == w4;
    assert Run(w2, [Park(again, 1), Reclaiming(m.gen, m.score, 1)]) == w4;
    assert Run(w1, [Claiming(m, first, 1), Park(again, 1), Reclaiming(m.gen, m.score, 1)]) == w4;
  }

  lemma ClaimAckKeys(k: Keys, m: Member, token: string, expiry: int)
    requires Aligned(k) && m.Member? && m in k.pending && m.gen !in k.claimed && token != ""
    ensures Ack(Claim(k, m.gen, m, token, expiry).0, m.gen, token) == (k.(pending := k.pending - {m}), true)
  {
    var k' := Ack(Claim(k, m.gen, m, token, expiry).0, m.gen, token).0;
    assert k'.claimed == k.claimed && k'.owners == k.owners && k'.idx == k.idx;
  }

  /** Claiming a request nobody holds and acknowledging it takes it out of every key and publishes once. */
  lemma ClaimThenAck(w: World, m: Member, token: string, expiry: int)
    requires Aligned(w.keys) && m.Member? && m in w.keys.pending && m.gen !in w.keys.claimed && token != ""
        && token !in w.made
    ensures Run(w, [Claiming(m, token, expiry), AckAtomic(token)]) ==
            w.(keys := w.keys.(pending := w.keys.pending - {m}), made := w.made[token := Claimed(m.gen, m, w.claims)],
               claims := w.claims + 1, atomic := w.atomic + [token])
  {
    var w1 := Next(w, Claiming(m, token, expiry));
    ClaimAckKeys(w.keys, m, token, expiry);
    assert Run(w1, [AckAtomic(token)]) == Next(w1, AckAtomic(token));
  }

  /**
   A token that pushed and did not drop its claim: once the lease lapses, the request is redelivered
   and the generation is published again under another token.
   */
  lemma LostDropDeliversTwice(w: World, token: string, other: string, now: int, expiry: int)
    requires Inv(w) && token in w.made && Owned(w.keys, w.made[token].id, token) && token in w.stepped
    requires w.made[token].id in w.keys.idx && w.keys.idx[w.made[token].id] <= now && other != "" && other !in w.made
    ensures var m := w.made[token].member;
      var w' := Run(Next(w, Reclaiming(m.gen, m.score, now)), [Claiming(m, other, expiry), AckAtomic(other)]);
      w'.stepped == w.stepped && w'.atomic == w.atomic + [other] && other in w'.made && w'.made[other].id == m.gen
  {
    var m := w.made[token].member;
    assert Latest(w.keys, w.made, m.gen);
    var w1 := Next(w, Reclaiming(m.gen, m.score, now));
    KeysAlign(w, Reclaiming(m.gen, m.score, now));
    ClaimThenAck(w1, m, other, expiry);
  }

  /**
   With a claim that lapsed while its retry was parked, one generation is published twice, each time by
   the owner of its latest claim: delivery is at least once.
   */
  lemma RetryDeliversTwice(m: Member, again: Member, first: string, second: string, third: string)
    requires m.Member? && again.Member? && m.gen == again.gen && m != again
    requires first != second && second != third && first != third && second != "" && third != ""
    ensures var w1 := Run(ParkedAndLapsed(m, again, first), [Claiming(m, second, 9), AckAtomic(second)]);
      var w := Run(Run(w1, [MoveOut(again), MoveIn(again)]), [Claiming(again, third, 9), AckAtomic(third)]);
      w.atomic == [second, third] && second in w.made && third in w.made && w.made[second].id == w.made[third].id
  {
    ClaimThenAck(ParkedAndLapsed(m, again, first), m, second, 9);
    var w1 := Run(ParkedAndLapsed(m, again, first), [Claiming(m, second, 9), AckAtomic(second)]);
    MovedIn(w1, again);
    ClaimThenAck(Run(w1, [MoveOut(again), MoveIn(again)]), again, third, 9);
  }

  lemma MovedIn(w: World, m: Member)
    requires m.Member? && m in w.keys.retry && m !in w.moving
    ensures Run(w, [MoveOut(m), MoveIn(m)]) ==
            w.(keys := w.keys.(pending := w.keys.pending[m := m.score], retry := w.keys.retry - {m}))
  {
    var w1 := Next(w, MoveOut(m));
    assert Run(w1, [MoveIn(m)]) == Next(w1, MoveIn(m));
    assert (w.moving + {m}) - {m} == w.moving;
  }
}
