/** First-in first-out byte pipes, seen as queues of messages. */
module Pipes {

  /** A first-in first-out pipe, oldest message first. */
  datatype Pipe<+T> = Empty | Pending(head: T, rest: Pipe<T>)

  function Length<T>(q: Pipe<T>): nat {
    match q
    case Empty => 0
    case Pending(_, rest) => 1 + Length(rest)
  }

  function Write<T>(q: Pipe<T>, x: T): (r: Pipe<T>)
    ensures Length(r) == Length(q) + 1
  {
    match q
    case Empty => Pending(x, Empty)
    case Pending(h, rest) => Pending(h, Write(rest, x))
  }

  function One<T>(x: T): Pipe<T> {
    Pending(x, Empty)
  }

  predicate Carries<T(==)>(q: Pipe<T>, x: T) {
    q.Pending? && (q.head == x || Carries(q.rest, x))
  }

  /** What is left after `n` messages are taken. */
  function Skip<T>(q: Pipe<T>, n: nat): Pipe<T> {
    if n == 0 || q == Empty then q else Skip(q.rest, n - 1)
  }

  /** The first `n` messages. */
  function Taken<T>(q: Pipe<T>, n: nat): Pipe<T> {
    if n == 0 || q == Empty then Empty else Pending(q.head, Taken(q.rest, n - 1))
  }

  lemma {:induction false} SkipAndTaken<T>(q: Pipe<T>, n: nat)
    requires n <= Length(q)
    ensures Length(Skip(q, n)) == Length(q) - n
    ensures Length(Taken(q, n)) == n
  {
    if n > 0 {
      SkipAndTaken(q.rest, n - 1);
    }
  }
}
