/** The batcher's queues and callers as they are updated: joining a queue, taking a batch, and answering it. */
module AdmitBatchers {
  import A = Admission

  class AdmitWaiter {
    const key: string
    var state: A.State
    var replies: seq<A.Reply>
    var callbacks: seq<A.Reply>
    var released: nat

    constructor (key: string)
      ensures this.key == key && View() == A.Waiter(key, A.Pending, [], [], 0)
    {
      this.key := key;
      state, replies, callbacks, released := A.Pending, [], [], 0;
    }

    function View(): A.Waiter
      reads this
    {
      A.Waiter(key, state, replies, callbacks, released)
    }

    /** Gives the reply to a caller that still waits, or hands it to the callback of one that gave up. */
    method Answer(r: A.Reply)
      modifies this
      ensures View() == A.Answer(old(View()), r)
    {
      if state == A.Pending {
        state := A.Answered;
        replies := replies + [r];
      } else {
        callbacks := callbacks + [r];
        if r.ok {
          released := released + 1;
        }
      }
    }
  }

  class AdmitQueue {
    var waiting: seq<AdmitWaiter>

    constructor ()
      ensures waiting == []
    {
      waiting := [];
    }
  }

  class AdmitBatcher {
    var queues: map<string, AdmitQueue>

    constructor ()
      ensures queues == map[]
    {
      queues := map[];
    }

    /** No two keys share a queue. */
    ghost predicate Valid()
      reads this
    {
      forall k, l | k in queues && l in queues && queues[k] == queues[l] :: k == l
    }

    /** Joins the queue of a key, last; a queue is opened, and with it a flush started, only when the key has none. */
    method Admit(key: string, closed: bool) returns (w: AdmitWaiter?, started: bool)
      requires Valid()
      modifies this, if key in queues then {queues[key]} else {}
      ensures Valid() && started == (key !in old(queues) && !closed)
      ensures w == null <==> key !in old(queues) && closed
      ensures w == null ==> queues == old(queues)
      ensures w != null ==> fresh(w) && w.View() == A.Waiter(key, A.Pending, [], [], 0) && key in queues
                            && queues[key].waiting == (if started then [] else old(queues[key].waiting)) + [w]
      ensures !started ==> queues == old(queues)
      ensures started ==> fresh(queues[key]) && queues == old(queues)[key := queues[key]]
    {
      w, started := null, false;
      if key !in queues {
        if closed {
          return;
        }
        var q := new AdmitQueue();
        queues := queues[key := q];
        started := true;
      }
      w := new AdmitWaiter(key);
      queues[key].waiting := queues[key].waiting + [w];
    }

    /** The callers waiting on a key, all of them; with none the queue is closed and its flush ends. */
    method Take(key: string) returns (batch: seq<AdmitWaiter>)
      requires Valid() && key in queues
      modifies this, queues[key]
      ensures Valid() && batch == old(queues[key].waiting)
      ensures queues == if batch == [] then old(queues) - {key} else old(queues)
      ensures old(queues)[key].waiting == []
    {
      var q := queues[key];
      batch := q.waiting;
      q.waiting := [];
      if batch == [] {
        queues := queues - {key};
      }
    }

    /** Answers a batch in order of arrival: the first `granted` callers are admitted, unless the statement failed. */
    method Serve(batch: seq<AdmitWaiter>, stmt: nat, granted: int, failed: bool)
      requires forall i, j | 0 <= i < j < |batch| :: batch[i] != batch[j]
      modifies batch
      ensures forall i | 0 <= i < |batch| ::
        batch[i].View() ==
        A.Answer(old(batch[i].View()), A.Reply(stmt, i, !failed && i < granted))
    {
      for i := 0 to |batch|
        invariant forall j | 0 <= j < i ::
          batch[j].View() ==
          A.Answer(old(batch[j].View()), A.Reply(stmt, j, !failed && j < granted))
        invariant forall j | i <= j < |batch| :: batch[j].View() == old(batch[j].View())
      {
        batch[i].Answer(A.Reply(stmt, i, !failed && i < granted));
      }
    }
  }
}
