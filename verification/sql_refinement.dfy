/** Runs of the protocol joined end to end, and the booking of dispatched rows as one. */
module SqlRefinement {
  import opened Calls
  import opened SqlTables
  import opened SqlLocal
  import opened SqlMirror
  import C = SqlCycle
  import opened Ordering

  lemma {:induction false} RunJoins(s: System, a: seq<Step>, b: seq<Step>)
    ensures Run(s, a + b) == Run(Run(s, a), b)
    decreases |a|
  {
    if a == [] {
      assert a + b == b;
    } else {
      assert (a + b)[0] == a[0] && (a + b)[1..] == a[1..] + b;
      RunJoins(Next(s, a[0]), a[1..], b);
    }
  }

  lemma RunOne(s: System, st: Step)
    ensures Run(s, [st]) == Next(s, st)
  {
    assert [st][1..] == [];
  }

  function BookSteps(o: string, out: seq<Key>, n: nat): seq<Step>
    requires n <= |out|
  {
    if n == 0 then [] else BookSteps(o, out, n - 1) + [Do(o, BookRow(out[n - 1]))]
  }

  /** A dispatcher about to book the rows its dispatch returned. */
  ghost predicate ToBook(s: System, o: string, out: seq<Key>) {
    && o in s.nodes && s.nodes[o].pc.Booking? && Distinct(out) && s.nodes[o].pc.rows.Keys == Elements(out)
    && (forall k | k in out :: k in s.h.db.rows)
    && (forall k | k in out ::
          s.nodes[o].pc.rows[k] ==
          Tracked(s.h.db.rows[k].part, s.h.db.rows[k].epoch, s.h.db.rows[k].attempt))
  }

  ghost function Booked(s: System, o: string, out: seq<Key>, n: nat): System
    requires ToBook(s, o, out) && n <= |out|
  {
    var node := s.nodes[o];
    s.(nodes := s.nodes[o := node.(local := C.BookAll(node.local, C.RowsFor(s.h.db, out), n),
                                   pc := Booking(node.pc.rows - Elements(out[..n])))])
  }

  lemma BookNext(s: System, o: string, out: seq<Key>, n: nat)
    requires ToBook(s, o, out) && n < |out|
    ensures Next(Booked(s, o, out, n), Do(o, BookRow(out[n]))) == Booked(s, o, out, n + 1)
  {
    var b, k := Booked(s, o, out, n), out[n];
    assert k in Elements(out) && k !in Elements(out[..n]);
    assert Elements(out[..n + 1]) == Elements(out[..n]) + {k};
    assert b.nodes[o].pc.rows - {k} == s.nodes[o].pc.rows - Elements(out[..n + 1]);
    assert C.RowsFor(s.h.db, out)[n] == (k, b.nodes[o].pc.rows[k]);
  }

  lemma BookedNone(s: System, o: string, out: seq<Key>)
    requires ToBook(s, o, out)
    ensures Booked(s, o, out, 0) == s
  {
    assert Elements(out[..0]) == {};
    assert s.nodes[o].pc.rows - {} == s.nodes[o].pc.rows;
  }

  lemma BookDoneStep(s: System, o: string)
    requires o in s.nodes && s.nodes[o].pc == Booking(map[])
    ensures Next(s, Do(o, BookDone)) == s.(nodes := s.nodes[o := s.nodes[o].(pc := Idle)])
  {
  }

  lemma BookedAll(s: System, o: string, out: seq<Key>)
    requires ToBook(s, o, out)
    ensures var s' := Next(Booked(s, o, out, |out|), Do(o, BookDone));
      && s'.h == s.h && o in s'.nodes && s'.nodes[o].pc.Idle?
      && s'.nodes[o].local == C.BookAll(s.nodes[o].local, C.RowsFor(s.h.db, out), |out|)
  {
    assert out[..|out|] == out;
    assert s.nodes[o].pc.rows - Elements(out) == map[];
    BookDoneStep(Booked(s, o, out, |out|), o);
  }

  lemma BookMore(s: System, r: System, o: string, out: seq<Key>, n: nat, next: nat)
    requires ToBook(s, o, out) && next == n + 1 <= |out| && Run(r, BookSteps(o, out, n)) == Booked(s, o, out, n)
    ensures Run(r, BookSteps(o, out, next)) == Booked(s, o, out, next)
  {
    BookNext(s, o, out, n);
    RunJoins(r, BookSteps(o, out, n), [Do(o, BookRow(out[n]))]);
    RunOne(Booked(s, o, out, n), Do(o, BookRow(out[n])));
  }

  lemma {:induction false} BookingIsRun(s: System, o: string, out: seq<Key>, n: nat)
    requires ToBook(s, o, out) && n <= |out|
    ensures Run(s, BookSteps(o, out, n)) == Booked(s, o, out, n)
  {
    if n == 0 {
      BookedNone(s, o, out);
    } else {
      var m := n - 1;
      BookingIsRun(s, o, out, m);
      BookMore(s, s, o, out, m, n);
    }
  }

  lemma PollToBook(s: System, o: string, now: int, draws: map<Key, nat>, last: nat, out: seq<Key>)
    requires o in s.nodes && s.nodes[o].pc.Idle? && Legal(s.h.db, Dispatch(o, now, draws, last))
    requires Distinct(out) && draws.Keys == Elements(out)
    requires forall k | k in out :: k in Exec(s.h.db, Dispatch(o, now, draws, last)).rows
    ensures var s' := Next(s, Do(o, Poll(now, draws, last, Ok)));
      ToBook(s', o, out) && s'.h.db == Exec(s.h.db, Dispatch(o, now, draws, last))
          && s'.nodes[o].local == s.nodes[o].local
  {
    forall k | k in out ensures k in draws { assert k in Elements(out); }
  }

  lemma BooksAndDone(s: System, o: string, out: seq<Key>)
    requires ToBook(s, o, out)
    ensures var s' := Run(s, BookSteps(o, out, |out|) + [Do(o, BookDone)]);
      && s'.h == s.h && o in s'.nodes && s'.nodes[o].pc.Idle?
      && s'.nodes[o].local == C.BookAll(s.nodes[o].local, C.RowsFor(s.h.db, out), |out|)
  {
    RunJoins(s, BookSteps(o, out, |out|), [Do(o, BookDone)]);
    BookingIsRun(s, o, out, |out|);
    RunOne(Booked(s, o, out, |out|), Do(o, BookDone));
    BookedAll(s, o, out);
  }
}
