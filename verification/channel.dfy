/** The buffered `changes` channel between the engine's watch loop and the
    change consumer, flattened to a bounded FIFO sequence. */
module Channel {
  import opened Wrappers
  import opened Config

  /** Capacity of the change channel created at start-up. */
  const ChangesBufferSize: nat := 10

  /** A value travelling on the `chan interface{}`: a configer, a nil
      interface (what a receive on a closed channel yields), or anything else. */
  datatype Event = Change(configer: Configer) | NilEvent | Foreign(name: string)

  /** A buffered channel: the values waiting, oldest first, and the buffer size. */
  datatype Queue<T> = Queue(items: seq<T>, cap: nat) {
    predicate HasRoom() {
      |items| < cap
    }
  }

  /** `make(chan T, cap)`: no values waiting, room for `cap`. */
  function Empty<T>(cap: nat): (q: Queue<T>)
    ensures q.items == [] && q.cap == cap
  {
    Queue([], cap)
  }

  /** The send arm of a `select` with a `default`: succeeds only when the
      buffer has room, and then appends at the back. */
  function TrySend<T>(q: Queue<T>, x: T): (r: Option<Queue<T>>)
    ensures r.Some? <==> |q.items| < q.cap
    ensures r.Some? ==> r.value.cap == q.cap && r.value.items == q.items + [x]
    ensures r.Some? ==> |r.value.items| <= q.cap
  {
    if q.HasRoom() then Some(q.(items := q.items + [x])) else None
  }

  /** A receive from a non-empty buffer: the oldest value, and the rest. */
  function Receive<T>(q: Queue<T>): (r: (T, Queue<T>))
    requires |q.items| > 0
    ensures [r.0] + r.1.items == q.items
    ensures r.1.cap == q.cap
  {
    (q.items[0], q.(items := q.items[1..]))
  }

  /** Non-blocking sends of `xs`, in order; `None` as soon as one finds the
      buffer full. */
  function SendAll<T>(q: Queue<T>, xs: seq<T>): Option<Queue<T>>
    decreases |xs|
  {
    if |xs| == 0 then Some(q)
    else
      match TrySend(q, xs[0])
      case None => None
      case Some(q1) => SendAll(q1, xs[1..])
  }

  /** On a channel within its buffer size, a run of non-blocking sends
      succeeds exactly when everything fits, and then the values wait behind
      the ones already queued, in order. */
  lemma {:induction false} SendAllFits<T>(q: Queue<T>, xs: seq<T>)
    requires |q.items| <= q.cap
    ensures SendAll(q, xs).Some? <==> |q.items| + |xs| <= q.cap
    ensures SendAll(q, xs).Some? ==> SendAll(q, xs).value == q.(items := q.items + xs)
    decreases |xs|
  {
    if |xs| == 0 {
      assert q.items + xs == q.items;
    } else if q.HasRoom() {
      var q1 := q.(items := q.items + [xs[0]]);
      SendAllFits(q1, xs[1..]);
      assert TrySend(q, xs[0]) == Some(q1);
      assert q1.items + xs[1..] == q.items + xs;
    } else {
      assert TrySend(q, xs[0]).None?;
    }
  }

  /** A fresh buffered channel of size `cap` takes exactly `cap` values
      without blocking. */
  lemma EmptyBuffersCap<T>(cap: nat, xs: seq<T>)
    ensures SendAll(Empty<T>(cap), xs).Some? <==> |xs| <= cap
    ensures |xs| <= cap ==> SendAll(Empty<T>(cap), xs) == Some(Queue(xs, cap))
  {
    SendAllFits(Empty<T>(cap), xs);
    assert [] + xs == xs;
  }
}
