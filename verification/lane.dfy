/**
 One priority lane: per-source first-in first-out queues served round-robin through a list
 of source keys and a cursor into it.
 */
module Lanes {
  datatype Lane<M> = Lane(queues: map<string, seq<M>>, keys: seq<string>, next: nat, size: nat)

  function Empty<M>(): Lane<M> { Lane(map[], [], 0, 0) }

  function Len<M>(queues: map<string, seq<M>>, k: string): nat { if k in queues then |queues[k]| else 0 }

  /** How many messages the listed sources hold together. */
  function Sum<M>(queues: map<string, seq<M>>, keys: seq<string>): nat {
    if keys == [] then 0 else Len(queues, keys[0]) + Sum(queues, keys[1..])
  }

  /** The keys list the sources with messages, each once, and the cursor is in range. */
  ghost predicate Shaped<M>(l: Lane<M>) {
    && (forall i, j | 0 <= i < j < |l.keys| :: l.keys[i] != l.keys[j])
    && (forall k :: k in l.keys <==> k in l.queues)
    && (forall k | k in l.queues :: l.queues[k] != [])
    && (if l.keys == [] then l.next == 0 else l.next < |l.keys|)
  }

  /** The size counts the messages. */
  ghost predicate Valid<M>(l: Lane<M>) {
    Shaped(l) && l.size == Sum(l.queues, l.keys)
  }

  function Push<M>(l: Lane<M>, key: string, m: M): Lane<M> {
    if key in l.queues then l.(queues := l.queues[key := l.queues[key] + [m]], size := l.size + 1)
    else l.(queues := l.queues[key := [m]], keys := l.keys + [key], size := l.size + 1)
  }

  function Without<T>(s: seq<T>, i: nat): seq<T>
    requires i < |s|
  {
    s[..i] + s[i + 1..]
  }

  /** A cursor at most one past the end, wrapped around. */
  function Turn(a: nat, n: nat): nat { if a == n then 0 else a }

  function Pop<M>(l: Lane<M>): Lane<M>
    requires Valid(l) && l.keys != []
  {
    var key := l.keys[l.next];
    var rest := l.queues[key][1..];
    var size := if l.size > 0 then l.size - 1 else 0;
    if rest == [] then
      var keys := Without(l.keys, l.next);
      Lane(l.queues - {key}, keys, Turn(l.next, |keys|), size)
    else Lane(l.queues[key := rest], l.keys, Turn(l.next + 1, |l.keys|), size)
  }

  function Served<M>(l: Lane<M>): (string, M)
    requires Valid(l) && l.keys != []
  {
    (l.keys[l.next], l.queues[l.keys[l.next]][0])
  }

  lemma {:induction false} SumSplit<M>(queues: map<string, seq<M>>, a: seq<string>, b: seq<string>)
    ensures Sum(queues, a + b) == Sum(queues, a) + Sum(queues, b)
  {
    if a == [] {
      assert a + b == b;
    } else {
      assert (a + b)[1..] == a[1..] + b;
      SumSplit(queues, a[1..], b);
    }
  }

  lemma {:induction false} SumSame<M>(q: map<string, seq<M>>, q': map<string, seq<M>>, keys: seq<string>)
    requires forall k | k in keys :: Len(q, k) == Len(q', k)
    ensures Sum(q, keys) == Sum(q', keys)
  {
    if keys != [] {
      SumSame(q, q', keys[1..]);
    }
  }

  /** The sum with one source's share set apart. */
  lemma SumAt<M>(queues: map<string, seq<M>>, keys: seq<string>, i: nat)
    requires i < |keys|
    ensures Sum(queues, keys) == Sum(queues, Without(keys, i)) + Len(queues, keys[i])
  {
    assert keys == keys[..i] + ([keys[i]] + keys[i + 1..]);
    SumSplit(queues, keys[..i], [keys[i]] + keys[i + 1..]);
    SumSplit(queues, [keys[i]], keys[i + 1..]);
    SumSplit(queues, keys[..i], keys[i + 1..]);
    assert [keys[i]][1..] == [];
  }

  lemma WithoutKeys<T>(s: seq<T>, i: nat)
    requires i < |s| && forall a, b | 0 <= a < b < |s| :: s[a] != s[b]
    ensures var t := Without(s, i);
      && (forall a, b | 0 <= a < b < |t| :: t[a] != t[b])
      && (forall x :: x in t <==> x in s && x != s[i])
  {
    var t := Without(s, i);
    assert forall a | 0 <= a < |t| :: t[a] == s[if a < i then a else a + 1];
    forall x | x in s && x != s[i] ensures x in t {
      var j :| 0 <= j < |s| && s[j] == x;
      assert t[if j < i then j else j - 1] == x;
    }
  }

  lemma PushCounts<M>(l: Lane<M>, key: string, m: M)
    requires Shaped(l)
    ensures Sum(Push(l, key, m).queues, Push(l, key, m).keys) == Sum(l.queues, l.keys) + 1
  {
    var q := Push(l, key, m).queues;
    if key in l.queues {
      var i :| 0 <= i < |l.keys| && l.keys[i] == key;
      WithoutKeys(l.keys, i);
      SumAt(l.queues, l.keys, i);
      SumAt(q, l.keys, i);
      SumSame(l.queues, q, Without(l.keys, i));
    } else {
      SumSplit(q, l.keys, [key]);
      SumSame(l.queues, q, l.keys);
      assert [key][1..] == [];
    }
  }

  lemma PushValid<M>(l: Lane<M>, key: string, m: M)
    requires Valid(l)
    ensures Valid(Push(l, key, m))
  {
    PushCounts(l, key, m);
    PushShaped(l, key, m);
  }

  lemma PushShaped<M>(l: Lane<M>, key: string, m: M)
    requires Shaped(l)
    ensures Shaped(Push(l, key, m))
  {
    assert key in l.queues || (forall k :: k in l.keys + [key] <==> k in l.keys || k == key);
  }

  /** The source wraps its cursor with a remainder. */
  method Wrapped(a: nat, n: nat) returns (r: nat)
    requires 0 < n && a <= n
    ensures r == Turn(a, n)
  {
    r := a % n;
    if a < n {
      assert a == n * 0 + a;
    }
  }

  lemma PopCounts<M>(l: Lane<M>)
    requires Valid(l) && l.keys != []
    ensures Sum(Pop(l).queues, Pop(l).keys) == l.size - 1
  {
    var p := Pop(l);
    WithoutKeys(l.keys, l.next);
    SumAt(l.queues, l.keys, l.next);
    SumSame(l.queues, p.queues, Without(l.keys, l.next));
    if p.keys == l.keys {
      SumAt(p.queues, l.keys, l.next);
    }
  }

  /** A source that runs dry leaves the list, and no other does. */
  lemma PopShaped<M>(l: Lane<M>)
    requires Valid(l) && l.keys != []
    ensures Shaped(Pop(l))
  {
    WithoutKeys(l.keys, l.next);
    var p, key := Pop(l), l.keys[l.next];
    if l.queues[key][1..] == [] {
      assert forall k :: k in p.keys <==> k in l.keys && k != key;
    } else {
      assert key in l.queues && p.queues.Keys == l.queues.Keys;
    }
  }

  lemma PopValid<M>(l: Lane<M>)
    requires Valid(l) && l.keys != []
    ensures Valid(Pop(l)) && l.size > 0 && Pop(l).size == l.size - 1
  {
    PopShaped(l);
    PopCounts(l);
    SumAt(l.queues, l.keys, l.next);
  }

  /** The lane holds something exactly when its size says so. */
  lemma SizeTells<M>(l: Lane<M>)
    requires Valid(l)
    ensures l.size == 0 <==> l.keys == []
  {
    if l.keys != [] {
      SumAt(l.queues, l.keys, 0);
    }
  }

  /** What one source still has to get from the lane. */
  function Queue<M>(l: Lane<M>, key: string): seq<M> { if key in l.queues then l.queues[key] else [] }

  lemma PushQueues<M>(l: Lane<M>, key: string, m: M, k: string)
    ensures Queue(Push(l, key, m), k) == Queue(l, k) + if k == key then [m] else []
  {
  }

  lemma PopQueues<M>(l: Lane<M>, k: string)
    requires Valid(l) && l.keys != []
    ensures Queue(l, k) == (if k == Served(l).0 then [Served(l).1] else []) + Queue(Pop(l), k)
  {
  }

  // Bypass: how long a waiting source can be passed over.

  /** How many places lie between a cursor and position `i` of a ring of `n`. */
  function Ahead(n: nat, next: nat, i: nat): nat
    requires next <= n && i < n
  {
    if i >= next then i - next else i + n - next
  }

  /** How many sources stand between the cursor and the one at position `i`. */
  function Distance<M>(l: Lane<M>, i: nat): nat
    requires l.next <= |l.keys| && i < |l.keys|
  {
    Ahead(|l.keys|, l.next, i)
  }

  lemma RemovalNears(keys: seq<string>, next: nat, i: nat) returns (i': nat)
    requires next < |keys| && i < |keys| && i != next
    ensures i' < |keys| - 1 && Without(keys, next)[i'] == keys[i]
    ensures Ahead(|keys| - 1, Turn(next, |keys| - 1), i') == Ahead(|keys|, next, i) - 1
  {
    i' := if i < next then i else i - 1;
  }

  /** A pop that serves another source brings `s` one place nearer, across key removal and cursor wrap. */
  lemma PopNears<M>(l: Lane<M>, i: nat) returns (i': nat)
    requires Valid(l) && i < |l.keys| && i != l.next
    ensures Valid(Pop(l)) && i' < |Pop(l).keys| && Pop(l).keys[i'] == l.keys[i]
    ensures Distance(Pop(l), i') == Distance(l, i) - 1
  {
    PopValid(l);
    if l.queues[l.keys[l.next]][1..] == [] {
      i' := RemovalNears(l.keys, l.next, i);
      assert Pop(l).keys == Without(l.keys, l.next) && Pop(l).next == Turn(l.next, |l.keys| - 1);
    } else {
      i' := i;
      assert Pop(l).keys == l.keys && Pop(l).next == Turn(l.next + 1, |l.keys|);
    }
  }

  /** A push moves `s` back by one exactly when it adds a source behind the cursor's back. */
  lemma PushDelays<M>(l: Lane<M>, key: string, m: M, i: nat)
    requires Valid(l) && i < |l.keys|
    ensures Valid(Push(l, key, m)) && i < |Push(l, key, m).keys| && Push(l, key, m).keys[i] == l.keys[i]
    ensures Distance(Push(l, key, m), i) == Distance(l, i) + if key !in l.queues && i < l.next then 1 else 0
  {
    PushValid(l, key, m);
  }

  datatype Op<M> = Arrive(key: string, m: M) | Serve

  /** One operation; serving an empty lane does nothing. */
  ghost function Step<M>(l: Lane<M>, op: Op<M>): Lane<M>
    requires Valid(l)
  {
    match op
    case Arrive(key, m) => Push(l, key, m)
    case Serve => if l.keys == [] then l else Pop(l)
  }

  lemma StepValid<M>(l: Lane<M>, op: Op<M>)
    requires Valid(l)
    ensures Valid(Step(l, op))
  {
    match op
    case Arrive(key, m) => PushValid(l, key, m);
    case Serve => if l.keys != [] { PopValid(l); }
  }

  /** No operation of the run serves source `s`. */
  ghost predicate Passes<M>(l: Lane<M>, ops: seq<Op<M>>, s: string)
    requires Valid(l)
    decreases |ops|
  {
    ops == [] ||
    (StepValid(l, ops[0]);
     (ops[0].Serve? && l.keys != [] ==> l.keys[l.next] != s) && Passes(Step(l, ops[0]), ops[1..], s))
  }

  ghost function Serves<M>(ops: seq<Op<M>>): nat {
    if ops == [] then 0 else (if ops[0].Serve? then 1 else 0) + Serves(ops[1..])
  }

  /** How many sources join the lane during the run. */
  ghost function Joins<M>(l: Lane<M>, ops: seq<Op<M>>): nat
    requires Valid(l)
    decreases |ops|
  {
    if ops == [] then 0
    else
      StepValid(l, ops[0]);
      (if ops[0].Arrive? && ops[0].key !in l.queues then 1 else 0) + Joins(Step(l, ops[0]), ops[1..])
  }

  /** A waiting source is passed over at most as often as sources stand before it or join while it waits. */
  lemma {:induction false} BypassBound<M>(l: Lane<M>, ops: seq<Op<M>>, i: nat)
    requires Valid(l) && i < |l.keys| && Passes(l, ops, l.keys[i])
    ensures Serves(ops) <= Distance(l, i) + Joins(l, ops)
    decreases |ops|
  {
    if ops != [] {
      match ops[0]
      case Arrive(key, m) =>
        PushDelays(l, key, m, i);
        BypassBound(Step(l, ops[0]), ops[1..], i);
      case Serve =>
        var i' := PopNears(l, i);
        BypassBound(Step(l, ops[0]), ops[1..], i');
    }
  }

  // Without joins counted there is no bound: sources that drain and rejoin behind the cursor starve another.

  function Pair<M>(s: string, a: string, m: M): Lane<M> { Lane(map[s := [m], a := [m]], [s, a], 1, 2) }

  function Starve<M>(a: string, b: string, m: M, n: nat): seq<Op<M>>
    decreases n
  {
    if n == 0 then [] else [Arrive(b, m), Serve] + Starve(b, a, m, n - 1)
  }

  lemma PairValid<M>(s: string, a: string, m: M)
    requires s != a
    ensures Valid(Pair(s, a, m))
  {
    var l := Pair(s, a, m);
    assert l.keys[1..] == [a] && [a][1..] == [];
    assert Sum(l.queues, [a]) == Len(l.queues, a) + Sum(l.queues, []);
  }

  /** A third source joins at the end, and the cursor's source drains. */
  lemma StarveRound<M>(s: string, a: string, b: string, m: M)
    requires s != a && a != b && b != s
    ensures var l := Pair(s, a, m);
      && Valid(l) && Valid(Push(l, b, m))
      && Push(l, b, m).keys == [s, a, b] && Push(l, b, m).next == 1
      && Pop(Push(l, b, m)) == Pair(s, b, m)
  {
    PairValid(s, a, m);
    var l := Pair(s, a, m);
    PushValid(l, b, m);
    var p := Push(l, b, m);
    assert p.keys == [s, a, b] && p.queues == map[s := [m], a := [m], b := [m]];
    assert p.queues[a][1..] == [];
    assert Without(p.keys, 1) == [s, b];
    assert p.queues - {a} == map[s := [m], b := [m]];
  }

  lemma PassTwo<M>(l: Lane<M>, key: string, m: M, rest: seq<Op<M>>, s: string)
    requires Valid(l) && Valid(Push(l, key, m)) && Push(l, key, m).keys != []
        && Push(l, key, m).keys[Push(l, key, m).next] != s
    requires Valid(Pop(Push(l, key, m))) && Passes(Pop(Push(l, key, m)), rest, s)
    ensures Passes(l, [Arrive(key, m), Serve] + rest, s) && Serves([Arrive(key, m), Serve] + rest) == 1 + Serves(rest)
  {
    var ops := [Arrive(key, m), Serve] + rest;
    assert ops[1..] == [Serve] + rest && ([Serve] + rest)[1..] == rest;
    assert Passes(Push(l, key, m), [Serve] + rest, s);
    assert Serves([Serve] + rest) == 1 + Serves(rest);
  }

  /** For every `n` there is a run that serves `n` others while a source one place from the cursor waits. */
  lemma {:induction false} StarvedWithoutBound<M>(s: string, a: string, b: string, m: M, n: nat)
    requires s != a && a != b && b != s
    ensures Valid(Pair(s, a, m)) && Distance(Pair(s, a, m), 0) == 1
    ensures Passes(Pair(s, a, m), Starve(a, b, m, n), s) && Serves(Starve(a, b, m, n)) == n
    decreases n
  {
    StarveRound(s, a, b, m);
    if n > 0 {
      StarvedWithoutBound(s, b, a, m, n - 1);
      PassTwo(Pair(s, a, m), b, m, Starve(b, a, m, n - 1), s);
    }
  }

  /** The lane those runs start from is reached from an empty one. */
  lemma PairIsReached<M>(s: string, a: string, m: M)
    requires s != a
    ensures Valid(Empty<M>()) && Valid(Push(Push(Push(Empty<M>(), s, m), s, m), a, m))
    ensures Pop(Push(Push(Push(Empty<M>(), s, m), s, m), a, m)) == Pair(s, a, m)
  {
    var l1 := Push(Empty<M>(), s, m);
    PushValid(Empty<M>(), s, m);
    PushValid(l1, s, m);
    PushValid(Push(l1, s, m), a, m);
    var l := Push(Push(l1, s, m), a, m);
    assert l.keys == [s, a] && l.next == 0 && l.queues[s] == [m, m] && l.queues[a] == [m];
    assert Pop(l).queues == map[s := [m], a := [m]];
  }
}
