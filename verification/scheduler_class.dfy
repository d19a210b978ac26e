/** The lane and the scheduler updated in place. */
module SchedulerClass {
  import opened Lanes
  import opened Scheduling

  class Bucket<M> {
    var queues: map<string, seq<M>>
    var keys: seq<string>
    var nextIdx: nat
    var size: nat

    constructor ()
      ensures View() == Lanes.Empty<M>()
    {
      queues, keys, nextIdx, size := map[], [], 0, 0;
    }

    function View(): Lane<M>
      reads this
    {
      Lane(queues, keys, nextIdx, size)
    }

    /** Appends to the source's queue; a new source joins at the end of the list. */
    method Push(key: string, m: M)
      requires Valid(View())
      modifies this
      ensures View() == Lanes.Push(old(View()), key, m) && Valid(View())
    {
      PushValid(View(), key, m);
      var q := if key in queues then queues[key] else [];
      if key !in queues {
        keys := keys + [key];
      }
      assert q + [m] == if q == [] then [m] else q + [m];
      queues := queues[key := q + [m]];
      size := size + 1;
    }

    /** Serves the source at the cursor; a source that runs dry leaves the list in place. */
    method Pop() returns (ok: bool, key: string, m: seq<M>)
      requires Valid(View())
      modifies this
      ensures Valid(View())
      ensures ok <==> old(keys) != []
      ensures if ok then View() == Lanes.Pop(old(View())) && key == Served(old(View())).0
          && m == [Served(old(View())).1]
              else View() == old(View()) && m == []
    {
      if |keys| == 0 {
        return false, "", [];
      }
      PopValid(View());
      key := keys[nextIdx];
      var q := queues[key];
      m := [q[0]];
      size := size - 1;
      if |q[1..]| == 0 {
        keys := keys[..nextIdx] + keys[nextIdx + 1..];
        queues := queues - {key};
        if |keys| > 0 {
          nextIdx := Wrapped(nextIdx, |keys|);
        } else {
          nextIdx := 0;
        }
      } else {
        queues := queues[key := q[1..]];
        nextIdx := Wrapped(nextIdx + 1, |keys|);
      }
      ok := true;
    }
  }

  method NewBuckets<M>(n: nat) returns (bs: seq<Bucket<M>>)
    ensures |bs| == n && forall i | 0 <= i < n :: fresh(bs[i]) && bs[i].View() == Lanes.Empty<M>()
    ensures forall i, j | 0 <= i < j < n :: bs[i] != bs[j]
  {
    bs := [];
    while |bs| < n
      invariant |bs| <= n && forall i | 0 <= i < |bs| :: fresh(bs[i]) && bs[i].View() == Lanes.Empty<M>()
      invariant forall i, j | 0 <= i < j < |bs| :: bs[i] != bs[j]
    {
      var b := new Bucket<M>();
      bs := bs + [b];
    }
  }

  class Scheduler<M> {
    const buckets: seq<Bucket<M>>
    const maxBuffered: nat
    const tierLabel: string
    var totalBuffered: nat
    var closed: bool

    /** The lanes as values. */
    ghost function View(): State<M>
      reads this, buckets
    {
      State(seq(|buckets|, i requires 0 <= i < |buckets| reads buckets => buckets[i].View()), totalBuffered,
            maxBuffered, closed)
    }

    ghost predicate Ok()
      reads this, buckets
    {
      && (forall i, j | 0 <= i < j < |buckets| :: buckets[i] != buckets[j])
      && Ready(View())
    }

    constructor (cap: nat, tier: string)
      ensures Ok() && View() == Scheduling.Fresh<M>(cap).state && tierLabel == tier
      ensures forall b | b in buckets :: fresh(b)
    {
      var bs := NewBuckets<M>(LANES);
      buckets := bs;
      maxBuffered, tierLabel := cap, tier;
      totalBuffered := 0;
      closed := false;
      new;
      FreshReady<M>(cap);
      assert forall i | 0 <= i < LANES :: buckets[i].View() == Lanes.Empty<M>();
      assert View().lanes == Scheduling.Fresh<M>(cap).state.lanes;
    }

    /** Adds a message to the lane its labels name, or reports that the caller would wait or is too late. */
    method Push(labels: map<string, string>, key: string, m: M) returns (r: Pushed)
      requires Ok()
      modifies this`totalBuffered, buckets
      ensures Ok() && (View(), r) == PushTo(old(View()), LaneOf(labels, tierLabel), key, m)
    {
      var lane := LaneOf(labels, tierLabel);
      PushReady(View(), lane, key, m);
      ghost var was := View();
      assert buckets[lane].View() == was.lanes[lane];
      if closed {
        return Closed;
      }
      if buckets[lane].size >= maxBuffered {
        return Full;
      }
      buckets[lane].Push(key, m);
      totalBuffered := totalBuffered + 1;
      assert View().lanes == was.lanes[lane := Lanes.Push(was.lanes[lane], key, m)];
      return Accepted;
    }

    /** Tries one lane; the buffered total is the caller's to adjust. */
    method PopLane(lane: nat) returns (ok: bool, key: string, m: seq<M>)
      requires Ok() && lane < LANES
      modifies buckets
      ensures ok <==> old(View()).lanes[lane].keys != []
      ensures if ok
        then View().lanes == old(View()).lanes[lane := Lanes.Pop(old(View()).lanes[lane])]
            && key == Served(old(View()).lanes[lane]).0 && m == [Served(old(View()).lanes[lane]).1]
        else View() == old(View()) && m == []
    {
      ghost var was := View();
      assert buckets[lane].View() == was.lanes[lane];
      ok, key, m := buckets[lane].Pop();
      assert forall i | 0 <= i < LANES && i != lane :: buckets[i].View() == was.lanes[i];
    }

    /** Tries the lanes from the most urgent on until one has anything. */
    method PopLowest() returns (lane: nat, key: string, m: seq<M>)
      requires Ok() && Lowest(View(), 0) < LANES
      modifies buckets
      ensures lane == Lowest(old(View()), 0)
      ensures View().lanes == old(View()).lanes[lane := Lanes.Pop(old(View()).lanes[lane])]
      ensures key == Served(old(View()).lanes[lane]).0 && m == [Served(old(View()).lanes[lane]).1]
    {
      ghost var was := View();
      lane := 0;
      var ok;
      ok, key, m := PopLane(0);
      while !ok
        invariant lane <= Lowest(was, 0) && (ok ==> lane == Lowest(was, 0))
        invariant !ok ==> View() == was && was.lanes[lane].keys == []
        invariant ok ==>
          && View().lanes == was.lanes[lane := Lanes.Pop(was.lanes[lane])]
          && key == Served(was.lanes[lane]).0 && m == [Served(was.lanes[lane]).1]
        decreases if ok then 0 else LANES - lane
      {
        lane := lane + 1;
        ok, key, m := PopLane(lane);
      }
    }

    /** Takes the next message, if anything is buffered. */
    method Pop() returns (ok: bool, lane: nat, key: string, m: seq<M>)
      requires Ok()
      modifies this`totalBuffered, buckets
      ensures Ok() && View() == PopFrom(old(View())).0
      ensures ok <==> old(totalBuffered) > 0
      ensures if ok then |m| == 1 && PopFrom(old(View())).1 == Got(lane, key, m[0]) else m == []
    {
      ghost var was := View();
      PopReady(was);
      PopFinds(was);
      if totalBuffered == 0 {
        return false, 0, "", [];
      }
      lane, key, m := PopLowest();
      ghost var lanes := View().lanes;
      totalBuffered := totalBuffered - 1;
      assert View().lanes == lanes;
      ok := true;
    }

    method Close()
      requires Ok()
      modifies this`closed
      ensures Ok() && View() == old(View()).(closed := true)
    {
      closed := true;
      assert View().lanes == old(View()).lanes;
    }
  }
}
