/** The queue score, scaled by 2^21 so that it is a whole number, and the backlog counts read from it. */
module QueueScore {
  const SCALE: int := 2097152
  const MAX_SEQ: int := 2097151

  /** A waiting request. */
  datatype Entry = Entry(deadline: int, enqueued: int)

  function Clamped(n: int): int { if n < 0 then 0 else if n > MAX_SEQ then MAX_SEQ else n }

  /** The dispatcher's score of a request. */
  function Score(e: Entry): int { e.deadline * SCALE + Clamped(e.enqueued) }

  /** The score the submit scripts write for the sequence number they drew. */
  function SubmitScore(deadline: int, drawn: int): int {
    deadline * SCALE + if drawn < MAX_SEQ then drawn else MAX_SEQ
  }

  /** A request keeps the score it was submitted with: drawn sequence numbers start at one. */
  lemma SubmitScoreAgrees(deadline: int, drawn: int)
    requires drawn >= 1
    ensures SubmitScore(deadline, drawn) == Score(Entry(deadline, drawn))
  {
  }

  /** Scores order exactly by deadline, then by clamped sequence. */
  lemma ScoreOrders(a: Entry, b: Entry)
    ensures Score(a) < Score(b) <==>
      || a.deadline < b.deadline
      || (a.deadline == b.deadline && Clamped(a.enqueued) < Clamped(b.enqueued))
    ensures Score(a) == Score(b) <==> a.deadline == b.deadline && Clamped(a.enqueued) == Clamped(b.enqueued)
  {
  }

  /** For deadlines below 2^32 the scaled score is below 2^53, so a binary64 number holds it exactly. */
  lemma ScoreIsExact(e: Entry)
    ensures 0 <= e.deadline < 0x1_0000_0000 ==> 0 <= Score(e) < 0x20_0000_0000_0000
  {
  }

  function CountBelow(queue: seq<Entry>, bound: int, n: nat): nat
    requires n <= |queue|
  {
    if n == 0 then 0 else CountBelow(queue, bound, n - 1) + if Score(queue[n - 1]) < bound then 1 else 0
  }

  function CountDue(queue: seq<Entry>, latest: int, n: nat): nat
    requires n <= |queue|
  {
    if n == 0 then 0 else CountDue(queue, latest, n - 1) + if queue[n - 1].deadline <= latest then 1 else 0
  }

  /** For every content of a queue, counting scores below the second after a window is counting deadlines within it. */
  lemma {:induction false} BacklogsAgree(queue: seq<Entry>, now: int, window: int, n: nat)
    requires n <= |queue|
    ensures CountBelow(queue, (now + window + 1) * SCALE, n) == CountDue(queue, now + window, n)
  {
    if n > 0 { BacklogsAgree(queue, now, window, n - 1); }
  }
}
