/** Admission gates as trees: what a gate decides, the slots it takes, and the releases it leaves to undo them. */
module Gates {
  datatype Verdict = Continue | Drop | Refuse | Wait | Error

  datatype Classification = Unclassified | Reserved | Overflow

  datatype Mode = Concurrency | RateLimit | UnknownMode

  /** A gate; slots are counted under a name, per local gate or per quota key. */
  datatype Gate =
    | Local(name: string, limit: int, blocking: bool)
    | Quota(name: string, mode: Mode, blocking: bool)
    | Tier(inner: Gate)
    | WaitOnRefuse(inner: Gate)
    | Composite(gates: seq<Gate>)
    | Leaf(says: Verdict, budget: real)

  /** How a wait for a slot or a call to the quota store turns out. */
  datatype Coin = Yes | No | Fail

  /** The request being gated: whether it names a quota, and its tier. */
  datatype Request = Request(named: bool, interactive: bool)

  /**
   The slots held by everybody, the releases gathered for this request, its classification, and the
   outcomes of calls to come.
   */
  datatype State = State(held: multiset<string>, releases: seq<string>, mark: Classification, coins: seq<Coin>)

  function Take(s: State, name: string): State {
    s.(held := s.held + multiset{name}, releases := s.releases + [name])
  }

  function Flip(s: State): (State, Coin) {
    if s.coins == [] then (s, Fail) else (s.(coins := s.coins[1..]), s.coins[0])
  }

  /** Runs the releases gathered since there were `base` of them, and forgets them. */
  function Undo(s: State, base: nat): State
    requires base <= |s.releases|
  {
    s.(held := s.held - multiset(s.releases[base..]), releases := s.releases[..base])
  }

  function ApplyLocal(g: Gate, s: State): (State, Verdict)
    requires g.Local?
  {
    if g.limit <= 0 then (s, Refuse)
    else if g.blocking then
      var (s', coin) := Flip(s);
      if coin == Yes && s.held[g.name] < g.limit then (Take(s', g.name), Continue) else (s', Error)
    else if s.held[g.name] >= g.limit then (s, Refuse)
    else (Take(s, g.name), Continue)
  }

  function ApplyQuota(g: Gate, s: State, m: Request): (State, Verdict)
    requires g.Quota?
  {
    if !m.named then (s, Continue)
    else if g.mode == UnknownMode then (s, Error)
    else
      var (s', coin) := Flip(s);
      match coin
      case Fail => (s', Error)
      case No => (s'.(mark := Overflow), if g.blocking then Refuse else Continue)
      case Yes =>
        var s'' := s'.(mark := Reserved);
        (if g.mode == Concurrency then Take(s'', g.name) else s'', Continue)
  }

  /**
   A saturated inner gate parks reserved requests and drops interactive overflow; anything but a
   refusal lets the request on.
   */
  function TierVerdict(inner: Verdict, mark: Classification, m: Request): Verdict {
    if inner == Error then Error
    else if inner != Refuse then Continue
    else if mark == Reserved then Wait
    else if m.interactive && mark == Overflow then Drop
    else Refuse
  }

  function Apply(g: Gate, s: State, m: Request): (State, Verdict)
    decreases g, if g.Composite? then |g.gates| + 1 else 0
  {
    match g
    case Local(_, _, _) => ApplyLocal(g, s)
    case Quota(_, _, _) => ApplyQuota(g, s, m)
    case Tier(inner) => var (s', v) := Apply(inner, s, m); (s', TierVerdict(v, s'.mark, m))
    case WaitOnRefuse(inner) => var (s', v) := Apply(inner, s, m); (s', if v == Refuse then Wait else v)
    case Composite(gates) => Chain(g, 0, s, m, |s.releases|)
    case Leaf(says, _) => (s, says)
  }

  /** The gates of a composite from the `i`-th on; the first that does not continue rolls back to `base`. */
  function Chain(g: Gate, i: nat, s: State, m: Request, base: nat): (State, Verdict)
    requires g.Composite? && i <= |g.gates|
    decreases g, |g.gates| - i
  {
    if i == |g.gates| then (s, Continue)
    else
      var (s', v) := Apply(g.gates[i], s, m);
      if v == Continue then Chain(g, i + 1, s', m, base)
      else (if base <= |s'.releases| then Undo(s', base) else s', v)
  }

  /** The releases gathered since there were `base` of them undo exactly the slots taken since then. */
  ghost predicate Owes(before: multiset<string>, prefix: seq<string>, s: State) {
    && |prefix| <= |s.releases| && s.releases[..|prefix|] == prefix
    && s.held == before + multiset(s.releases[|prefix|..])
  }

  /** Unchanged slots and releases. */
  predicate Same(s: State, s': State) { s'.held == s.held && s'.releases == s.releases }

  lemma TakeOwes(before: multiset<string>, prefix: seq<string>, s: State, name: string)
    requires Owes(before, prefix, s)
    ensures Owes(before, prefix, Take(s, name))
  {
    var s' := Take(s, name);
    assert s'.releases[|prefix|..] == s.releases[|prefix|..] + [name];
  }

  lemma UndoRestores(before: multiset<string>, prefix: seq<string>, s: State)
    requires Owes(before, prefix, s)
    ensures Undo(s, |prefix|).held == before && Undo(s, |prefix|).releases == prefix
  {
  }

  lemma SameOwes(before: multiset<string>, prefix: seq<string>, s: State, s': State)
    requires Owes(before, prefix, s) && Same(s, s')
    ensures Owes(before, prefix, s')
  {
  }

  /** What was owed before a gate ran is owed after it too. */
  lemma OwesJoin(before: multiset<string>, prefix: seq<string>, s: State, s': State)
    requires Owes(before, prefix, s) && Owes(s.held, s.releases, s')
    ensures Owes(before, prefix, s')
  {
    assert s'.releases[|prefix|..] == s.releases[|prefix|..] + s'.releases[|s.releases|..];
  }

  lemma SlotAllOrNothing(g: Gate, s: State, m: Request)
    requires g.Local? || g.Quota?
    ensures var (s', v) := Apply(g, s, m); if v == Continue then Owes(s.held, s.releases, s') else Same(s, s')
  {
    assert s.releases[|s.releases|..] == [];
    TakeOwes(s.held, s.releases, s, g.name);
  }

  /**
   For every gate tree: a verdict other than continue, or an error, leaves every slot count and
   the release list as they were; a continue appends exactly the releases that undo what it took.
   */
  lemma {:induction false} AllOrNothing(g: Gate, s: State, m: Request)
    ensures var (s', v) := Apply(g, s, m); if v == Continue then Owes(s.held, s.releases, s') else Same(s, s')
    decreases g, if g.Composite? then |g.gates| + 1 else 0
  {
    assert s.releases[|s.releases|..] == [];
    match g
    case Tier(inner) => AllOrNothing(inner, s, m);
    case WaitOnRefuse(inner) => AllOrNothing(inner, s, m);
    case Composite(gates) => ChainAllOrNothing(g, 0, s, m, s.held, s.releases);
    case Leaf(_, _) =>
    case _ => SlotAllOrNothing(g, s, m);
  }

  lemma {:induction false} ChainAllOrNothing(g: Gate, i: nat, s: State, m: Request, before: multiset<string>,
                                             prefix: seq<string>)
    requires g.Composite? && i <= |g.gates| && Owes(before, prefix, s)
    ensures var (s', v) := Chain(g, i, s, m, |prefix|);
      if v == Continue then Owes(before, prefix, s') else s'.held == before && s'.releases == prefix
    decreases g, |g.gates| - i
  {
    if i < |g.gates| {
      AllOrNothing(g.gates[i], s, m);
      var (s', v) := Apply(g.gates[i], s, m);
      if v == Continue {
        OwesJoin(before, prefix, s, s');
        ChainAllOrNothing(g, i + 1, s', m, before, prefix);
      } else {
        SameOwes(before, prefix, s, s');
        UndoRestores(before, prefix, s');
      }
    }
  }

  /** Letting a request on and releasing it afterwards gives back every slot it took. */
  lemma ContinueThenRelease(g: Gate, s: State, m: Request)
    requires Apply(g, s, m).1 == Continue
    ensures |s.releases| <= |Apply(g, s, m).0.releases|
    ensures Same(s, Undo(Apply(g, s, m).0, |s.releases|))
  {
    AllOrNothing(g, s, m);
    UndoRestores(s.held, s.releases, Apply(g, s, m).0);
  }

  /**
   A worker's state after `n` attempts at its pool gate, where others left the slots as `worlds`
   tells before each.
   */
  function Attempts(g: Gate, s: State, m: Request, worlds: seq<multiset<string>>, n: nat): State
    requires n <= |worlds|
  {
    if n == 0 then s else Apply(g, Attempts(g, s, m, worlds, n - 1).(held := worlds[n - 1]), m).0
  }

  ghost predicate Parked(g: Gate, s: State, m: Request, worlds: seq<multiset<string>>, n: nat)
    requires n <= |worlds|
  {
    forall i | 0 <= i < n :: Apply(g, Attempts(g, s, m, worlds, i).(held := worlds[i]), m).1 == Wait
  }

  /**
   However often a worker is told to wait, and whatever others do meanwhile, it holds no slot and no
   release while it is parked.
   */
  lemma {:induction false} ParkedHoldsNothing(g: Gate, s: State, m: Request, worlds: seq<multiset<string>>, n: nat)
    requires n <= |worlds| && Parked(g, s, m, worlds, n)
    ensures Attempts(g, s, m, worlds, n).releases == s.releases
    ensures n > 0 ==> Attempts(g, s, m, worlds, n).held == worlds[n - 1]
  {
    if n > 0 {
      ParkedHoldsNothing(g, s, m, worlds, n - 1);
      AllOrNothing(g, Attempts(g, s, m, worlds, n - 1).(held := worlds[n - 1]), m);
    }
  }

  /** No gate of the tree hands out more than `cap` slots of a name. */
  predicate Capped(g: Gate, name: string, cap: nat)
    decreases g
  {
    match g
    case Local(n, limit, _) => n == name ==> limit <= cap
    case Quota(n, _, _) => n != name
    case Tier(inner) => Capped(inner, name, cap)
    case WaitOnRefuse(inner) => Capped(inner, name, cap)
    case Composite(gates) => forall i | 0 <= i < |gates| :: Capped(gates[i], name, cap)
    case Leaf(_, _) => true
  }

  /** A local gate never has more in flight than its limit, however gates are combined. */
  lemma {:induction false} LimitKept(g: Gate, s: State, m: Request, name: string, cap: nat)
    requires Capped(g, name, cap) && s.held[name] <= cap
    ensures Apply(g, s, m).0.held[name] <= cap
    decreases g, if g.Composite? then |g.gates| + 1 else 0
  {
    match g
    case Tier(inner) => LimitKept(inner, s, m, name, cap);
    case WaitOnRefuse(inner) => LimitKept(inner, s, m, name, cap);
    case Composite(gates) => ChainLimitKept(g, 0, s, m, |s.releases|, name, cap);
    case _ =>
  }

  lemma {:induction false} ChainLimitKept(g: Gate, i: nat, s: State, m: Request, base: nat, name: string, cap: nat)
    requires g.Composite? && i <= |g.gates| && Capped(g, name, cap) && s.held[name] <= cap
    ensures Chain(g, i, s, m, base).0.held[name] <= cap
    decreases g, |g.gates| - i
  {
    if i < |g.gates| {
      LimitKept(g.gates[i], s, m, name, cap);
      var (s', v) := Apply(g.gates[i], s, m);
      if v == Continue { ChainLimitKept(g, i + 1, s', m, base, name, cap); }
    }
  }

  /** The share of capacity a gate has left. */
  function Budget(g: Gate, held: multiset<string>): real
    decreases g, if g.Composite? then |g.gates| + 1 else 0
  {
    match g
    case Local(name, limit, _) =>
      if limit <= 0 || held[name] >= limit then 0.0 else (limit - held[name]) as real / limit as real
    case Quota(_, _, _) => 1.0
    case Tier(inner) => Budget(inner, held)
    case WaitOnRefuse(inner) => Budget(inner, held)
    case Composite(gates) => LeastBudget(g, held, |gates|)
    case Leaf(_, budget) => budget
  }

  function LeastBudget(g: Gate, held: multiset<string>, n: nat): real
    requires g.Composite? && n <= |g.gates|
    decreases g, n
  {
    if n == 0 then 1.0
    else
      var rest, b := LeastBudget(g, held, n - 1), Budget(g.gates[n - 1], held);
      if b < rest then b else rest
  }

  /** The budget of a composite is the least of its gates', and full when every gate's is. */
  lemma {:induction false} CompositeIsLeast(g: Gate, held: multiset<string>, n: nat)
    requires g.Composite? && n <= |g.gates|
    ensures LeastBudget(g, held, n) <= 1.0
    ensures forall i | 0 <= i < n :: LeastBudget(g, held, n) <= Budget(g.gates[i], held)
    ensures LeastBudget(g, held, n) == 1.0
            || exists i :: 0 <= i < n && LeastBudget(g, held, n) == Budget(g.gates[i], held)
  {
    if n > 0 { CompositeIsLeast(g, held, n - 1); }
  }

  /** A classifying local gate reports a budget exactly when it would let the next request on. */
  lemma BudgetTellsAdmission(g: Gate, s: State, m: Request)
    requires g.Local? && !g.blocking
    ensures 0.0 <= Budget(g, s.held) <= 1.0
    ensures Budget(g, s.held) > 0.0 <==> Apply(g, s, m).1 == Continue
  {
  }

  lemma OneMoreUndone(held: multiset<string>, all: seq<string>, i: nat)
    requires i < |all|
    ensures held - multiset(all[i + 1..]) - multiset{all[i]} == held - multiset(all[i..])
  {
    assert all[i..] == [all[i]] + all[i + 1..];
  }

  /** The gates at work on one request: slots, releases and classification updated in place. */
  class Gating {
    var held: multiset<string>
    var releases: seq<string>
    var mark: Classification
    var coins: seq<Coin>

    function View(): State
      reads this
    {
      State(held, releases, mark, coins)
    }

    method FlipCoin() returns (coin: Coin)
      modifies this`coins
      ensures (View(), coin) == Flip(old(View()))
    {
      if coins == [] {
        return Fail;
      }
      coin := coins[0];
      coins := coins[1..];
    }

    method TakeSlot(name: string)
      modifies this`held, this`releases
      ensures View() == Take(old(View()), name)
    {
      held := held + multiset{name};
      releases := releases + [name];
    }

    /** Runs the releases from the last back to `base` and drops them from the list. */
    method RollBack(base: nat)
      requires base <= |releases|
      modifies this`held, this`releases
      ensures View() == Undo(old(View()), base)
    {
      var all := releases;
      assert all[|all|..] == [];
      for i := |all| downto base
        modifies this`held
        invariant held == old(held) - multiset(all[i..])
      {
        OneMoreUndone(old(held), all, i);
        held := held - multiset{all[i]};
      }
      releases := all[..base];
    }

    method ApplyGate(g: Gate, m: Request) returns (v: Verdict)
      modifies this
      ensures (View(), v) == Apply(g, old(View()), m)
      decreases g, if g.Composite? then |g.gates| + 1 else 0
    {
      match g
      case Local(name, limit, blocking) =>
        if limit <= 0 {
          return Refuse;
        }
        if blocking {
          var full := held[name] >= limit;
          var coin := FlipCoin();
          if coin != Yes || full {
            return Error;
          }
        } else if held[name] >= limit {
          return Refuse;
        }
        TakeSlot(name);
        return Continue;
      case Quota(name, mode, blocking) =>
        v := ApplyQuotaGate(g, m);
      case Tier(inner) =>
        v := ApplyGate(inner, m);
        v := TierVerdict(v, mark, m);
      case WaitOnRefuse(inner) =>
        v := ApplyGate(inner, m);
        if v == Refuse {
          v := Wait;
        }
      case Composite(gates) =>
        v := ApplyChain(g, m);
      case Leaf(says, _) =>
        v := says;
    }

    method ApplyQuotaGate(g: Gate, m: Request) returns (v: Verdict)
      requires g.Quota?
      modifies this
      ensures (View(), v) == ApplyQuota(g, old(View()), m)
    {
      if !m.named {
        return Continue;
      }
      if g.mode == UnknownMode {
        return Error;
      }
      var coin := FlipCoin();
      if coin == Fail {
        return Error;
      }
      if coin == No {
        mark := Overflow;
        return if g.blocking then Refuse else Continue;
      }
      mark := Reserved;
      if g.mode == Concurrency {
        TakeSlot(g.name);
      }
      return Continue;
    }

    /** Runs the gates in turn; the first that does not let the request on rolls back what the chain took. */
    method ApplyChain(g: Gate, m: Request) returns (v: Verdict)
      requires g.Composite?
      modifies this
      ensures (View(), v) == Chain(g, 0, old(View()), m, |old(releases)|)
      decreases g, |g.gates|
    {
      var base := |releases|;
      ghost var start := View();
      for i := 0 to |g.gates|
        invariant Chain(g, i, View(), m, base) == Chain(g, 0, start, m, base)
        invariant Owes(start.held, start.releases, View())
      {
        ghost var before := View();
        v := ApplyGate(g.gates[i], m);
        AllOrNothing(g.gates[i], before, m);
        if v != Continue {
          SameOwes(start.held, start.releases, before, View());
          RollBack(base);
          return;
        }
        OwesJoin(start.held, start.releases, before, View());
      }
      v := Continue;
    }
  }
}
