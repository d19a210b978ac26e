/**
 Many requests at their gates at once: slots are taken and given back one at a time, in any
 interleaving, and a gate tree's decision on one request is a sequence of such moves.
 */
module GateFloor {
  import opened Gates

  /** The slots held, and what each request has to release, last taken last. */
  datatype Floor = Floor(held: multiset<string>, open: seq<seq<string>>)

  /** A request comes; one of its gates takes a slot under a limit; it gives back the slot it took last. */
  datatype Move = Arrive | Grab(i: nat, name: string, limit: int) | GiveBack(i: nat)

  predicate CanMove(f: Floor, mv: Move) {
    match mv
    case Arrive => true
    case Grab(i, name, limit) => i < |f.open| && f.held[name] < limit
    case GiveBack(i) => i < |f.open| && f.open[i] != []
  }

  function Make(f: Floor, mv: Move): Floor {
    if !CanMove(f, mv) then f
    else
      match mv
      case Arrive => f.(open := f.open + [[]])
      case Grab(i, name, _) => Floor(f.held + multiset{name}, f.open[i := f.open[i] + [name]])
      case GiveBack(i) =>
        var n := |f.open[i]| - 1;
        Floor(f.held - multiset{f.open[i][n]}, f.open[i := f.open[i][..n]])
  }

  function Run(f: Floor, moves: seq<Move>): Floor
    decreases |moves|
  {
    if moves == [] then f else Run(Make(f, moves[0]), moves[1..])
  }

  const Empty := Floor(multiset{}, [])

  function Count(releases: seq<string>, name: string): nat { multiset(releases)[name] }

  /** How many slots of a name the first `n` requests have to release. */
  function Owed(open: seq<seq<string>>, name: string, n: nat): nat
    requires n <= |open|
  {
    if n == 0 then 0 else Owed(open, name, n - 1) + Count(open[n - 1], name)
  }

  lemma {:induction false} OwedChange(a: seq<seq<string>>, b: seq<seq<string>>, name: string, i: nat, n: nat)
    requires n <= |a| == |b| && i < |a| && b == a[i := b[i]]
    ensures Owed(b, name, n) == Owed(a, name, n) + if i < n then Count(b[i], name) - Count(a[i], name) else 0
  {
    if n > 0 { OwedChange(a, b, name, i, n - 1); }
  }

  lemma {:induction false} OwedAppend(open: seq<seq<string>>, name: string, n: nat)
    requires n <= |open|
    ensures Owed(open + [[]], name, n) == Owed(open, name, n)
  {
    if n > 0 { OwedAppend(open, name, n - 1); }
  }

  /** The slots held of a name are exactly what the requests have to release. */
  ghost predicate Balanced(f: Floor, name: string) { f.held[name] == Owed(f.open, name, |f.open|) }

  lemma MakeBalances(f: Floor, mv: Move, name: string)
    requires Balanced(f, name)
    ensures Balanced(Make(f, mv), name)
  {
    var f' := Make(f, mv);
    if CanMove(f, mv) {
      match mv
      case Arrive => OwedAppend(f.open, name, |f.open|);
      case Grab(i, _, _) => OwedChange(f.open, f'.open, name, i, |f.open|);
      case GiveBack(i) =>
        var n := |f.open[i]| - 1;
        OwedChange(f.open, f'.open, name, i, |f.open|);
        OneLess(f.open[i], name);
        OwedAtLeast(f.open, name, i, |f.open|);
    }
  }

  lemma OneLess(releases: seq<string>, name: string)
    requires releases != []
    ensures var n := |releases| - 1;
      Count(releases, name) == Count(releases[..n], name) + if releases[n] == name then 1 else 0
  {
    var n := |releases| - 1;
    assert releases == releases[..n] + [releases[n]];
  }

  lemma {:induction false} OwedAtLeast(open: seq<seq<string>>, name: string, i: nat, n: nat)
    requires i < n <= |open|
    ensures Owed(open, name, n) >= Count(open[i], name)
  {
    if i < n - 1 { OwedAtLeast(open, name, i, n - 1); }
  }

  /** No move takes a slot of the name under a higher limit. */
  predicate Capping(moves: seq<Move>, name: string, cap: nat) {
    forall i | 0 <= i < |moves| && moves[i].Grab? && moves[i].name == name :: moves[i].limit <= cap
  }

  lemma {:induction false} RunKeeps(f: Floor, moves: seq<Move>, name: string, cap: nat)
    requires Balanced(f, name) && Capping(moves, name, cap) && f.held[name] <= cap
    ensures Balanced(Run(f, moves), name) && Run(f, moves).held[name] <= cap
    decreases |moves|
  {
    if moves != [] {
      MakeBalances(f, moves[0], name);
      assert Make(f, moves[0]).held[name] <= cap by {
        if moves[0].Grab? && moves[0].name == name { assert moves[0].limit <= cap; }
      }
      RunKeeps(Make(f, moves[0]), moves[1..], name, cap);
    }
  }

  /**
   Over every interleaving of requests taking and giving back slots: the slots held are exactly what
   the requests still have to release, and no name has more in flight than its limit.
   */
  lemma InFlightWithinLimit(moves: seq<Move>, name: string, cap: nat)
    requires Capping(moves, name, cap)
    ensures var f := Run(Empty, moves); f.held[name] == Owed(f.open, name, |f.open|) <= cap
  {
    RunKeeps(Empty, moves, name, cap);
  }

  // A gate tree's decision is such a sequence of moves.

  lemma {:induction false} RunJoins(f: Floor, a: seq<Move>, b: seq<Move>)
    ensures Run(f, a + b) == Run(Run(f, a), b)
    decreases |a|
  {
    if a == [] {
      assert a + b == b;
    } else {
      assert (a + b)[1..] == a[1..] + b;
      RunJoins(Make(f, a[0]), a[1..], b);
    }
  }

  /** The floor shows this request's state. */
  ghost predicate Shows(f: Floor, i: nat, s: State) { i < |f.open| && f.held == s.held && f.open[i] == s.releases }

  function With(f: Floor, i: nat, s: State): Floor
    requires i < |f.open|
  {
    Floor(s.held, f.open[i := s.releases])
  }

  lemma NoMove(f: Floor, i: nat, s: State)
    requires Shows(f, i, s)
    ensures Run(f, []) == With(f, i, s)
  {
  }

  lemma OneGrab(f: Floor, i: nat, s: State, name: string, limit: int)
    requires Shows(f, i, s) && s.held[name] < limit
    ensures Run(f, [Grab(i, name, limit)]) == With(f, i, Take(s, name))
  {
    assert [Grab(i, name, limit)][1..] == [];
  }

  lemma WithTwice(f: Floor, i: nat, s: State, s': State)
    requires i < |f.open|
    ensures With(With(f, i, s), i, s') == With(f, i, s')
  {
  }

  function Backs(i: nat, n: nat): seq<Move> { if n == 0 then [] else Backs(i, n - 1) + [GiveBack(i)] }

  lemma {:induction false} BacksCap(i: nat, n: nat, name: string, cap: nat)
    ensures Capping(Backs(i, n), name, cap)
  {
    if n > 0 { BacksCap(i, n - 1, name, cap); }
  }

  lemma GivesBack(f: Floor, i: nat, held: multiset<string>, r: seq<string>, last: string, rest: seq<string>)
    requires i < |f.open| && r == rest + [last]
    ensures Make(Floor(held, f.open[i := r]), GiveBack(i)) == Floor(held - multiset{last}, f.open[i := rest])
  {
    var n := |rest|;
    assert r[n] == last && r[..n] == rest;
  }

  lemma UndoSplits(s: State, base: nat, more: nat)
    requires more == base + 1 <= |s.releases|
    ensures Undo(s, more).releases == Undo(s, base).releases + [s.releases[base]]
    ensures Undo(s, more).held - multiset{s.releases[base]} == Undo(s, base).held
  {
    OneMoreUndone(s.held, s.releases, base);
  }

  /** Giving back one more slot rolls back one place further. */
  lemma BackOne(f: Floor, i: nat, s: State, base: nat, more: nat)
    requires i < |f.open| && more == base + 1 <= |s.releases|
    ensures Make(With(f, i, Undo(s, more)), GiveBack(i)) == With(f, i, Undo(s, base))
  {
    var u, v := Undo(s, more), Undo(s, base);
    UndoSplits(s, base, more);
    GivesBack(f, i, u.held, u.releases, s.releases[base], v.releases);
  }

  lemma UndoNone(f: Floor, i: nat, s: State)
    requires Shows(f, i, s)
    ensures f == With(f, i, Undo(s, |s.releases|))
  {
    var n := |s.releases|;
    assert s.releases[n..] == [] && s.releases[..n] == s.releases;
  }

  /** Giving back the last `k` slots, one by one, is the rollback. */
  lemma {:induction false} BacksAreRun(f: Floor, i: nat, s: State, base: nat, k: nat)
    requires Shows(f, i, s) && base + k == |s.releases|
    ensures Run(f, Backs(i, k)) == With(f, i, Undo(s, base))
    decreases k
  {
    if k == 0 {
      UndoNone(f, i, s);
    } else {
      var more := base + 1;
      BacksAreRun(f, i, s, more, k - 1);
      BackMore(f, i, s, base, more, Backs(i, k - 1));
    }
  }

  lemma BackMore(f: Floor, i: nat, s: State, base: nat, more: nat, moves: seq<Move>)
    requires i < |f.open| && more == base + 1 <= |s.releases| && Run(f, moves) == With(f, i, Undo(s, more))
    ensures Run(f, moves + [GiveBack(i)]) == With(f, i, Undo(s, base))
  {
    RunOneMore(f, moves, GiveBack(i));
    BackOne(f, i, s, base, more);
  }

  lemma RunOneMore(f: Floor, moves: seq<Move>, mv: Move)
    ensures Run(f, moves + [mv]) == Make(Run(f, moves), mv)
  {
    RunJoins(f, moves, [mv]);
    assert [mv][1..] == [];
  }

  lemma CappingJoins(a: seq<Move>, b: seq<Move>, name: string, cap: nat)
    requires Capping(a, name, cap) && Capping(b, name, cap)
    ensures Capping(a + b, name, cap)
  {
  }

  lemma LeafIsRun(g: Gate, f: Floor, i: nat, s: State, m: Request, name: string, cap: nat) returns (moves: seq<Move>)
    requires Shows(f, i, s) && (g.Local? || g.Quota? || g.Leaf?) && Capped(g, name, cap)
    ensures Run(f, moves) == With(f, i, Apply(g, s, m).0) && Capping(moves, name, cap)
  {
    var (s', v) := Apply(g, s, m);
    if s'.held == s.held && s'.releases == s.releases {
      moves := [];
      NoMove(f, i, s);
    } else {
      moves := [Grab(i, g.name, if g.Local? then g.limit else s.held[g.name] + 1)];
      OneGrab(f, i, s, g.name, moves[0].limit);
    }
  }

  lemma RollBackIsRun(f: Floor, i: nat, s: State, base: nat, name: string, cap: nat) returns (moves: seq<Move>)
    requires i < |f.open| && base <= |s.releases|
    ensures Run(With(f, i, s), moves) == With(f, i, Undo(s, base)) && Capping(moves, name, cap)
  {
    var k := |s.releases| - base;
    moves := Backs(i, k);
    BacksAreRun(With(f, i, s), i, s, base, k);
    BacksCap(i, k, name, cap);
    WithTwice(f, i, s, Undo(s, base));
  }

  /** What a gate tree does to the slots for one request is a run of moves of that request, within its gates' limits. */
  lemma {:induction false} ApplyIsRun(g: Gate, f: Floor, i: nat, s: State, m: Request, name: string, cap: nat)
    returns (moves: seq<Move>)
    requires Shows(f, i, s) && Capped(g, name, cap)
    ensures Run(f, moves) == With(f, i, Apply(g, s, m).0) && Capping(moves, name, cap)
    decreases g, if g.Composite? then |g.gates| + 1 else 0
  {
    match g
    case Tier(inner) => moves := ApplyIsRun(inner, f, i, s, m, name, cap);
    case WaitOnRefuse(inner) => moves := ApplyIsRun(inner, f, i, s, m, name, cap);
    case Composite(gates) => moves := ChainIsRun(g, 0, f, i, s, m, |s.releases|, name, cap);
    case _ => moves := LeafIsRun(g, f, i, s, m, name, cap);
  }

  lemma {:induction false} ChainIsRun(g: Gate, at: nat, f: Floor, i: nat, s: State, m: Request, base: nat,
                                      name: string, cap: nat)
    returns (moves: seq<Move>)
    requires g.Composite? && at <= |g.gates| && Shows(f, i, s) && Capped(g, name, cap)
    ensures Run(f, moves) == With(f, i, Chain(g, at, s, m, base).0) && Capping(moves, name, cap)
    decreases g, |g.gates| - at
  {
    if at == |g.gates| {
      moves := [];
      NoMove(f, i, s);
    } else {
      var first := ApplyIsRun(g.gates[at], f, i, s, m, name, cap);
      var (s', v) := Apply(g.gates[at], s, m);
      var f' := Run(f, first);
      var rest := [];
      if v == Continue {
        rest := ChainIsRun(g, at + 1, f', i, s', m, base, name, cap);
        WithTwice(f, i, s', Chain(g, at + 1, s', m, base).0);
      } else if base <= |s'.releases| {
        rest := RollBackIsRun(f, i, s', base, name, cap);
      }
      moves := first + rest;
      RunJoins(f, first, rest);
      CappingJoins(first, rest, name, cap);
    }
  }
}
