/** `make_sloppy!`: the fault-injecting wrapper put around every handler in
    sloppy mode. The three `thread_rng` draws are parameters and the sleep is
    returned as its length in milliseconds instead of being waited out. */
module Sloppy {

  /** A first draw below this many (out of 0 to 99) fails the request. */
  const ErrorThreshold := 5

  /** The request fails, by the first draw (0 to 99). */
  predicate FailsRequest(first: int) {
    first < ErrorThreshold
  }

  /** The delay classes the second draw (0 to 99) selects. */
  datatype Bucket = Short | Long | Uniform

  function BucketOf(second: int): Bucket {
    if 0 <= second <= 59 then Short
    else if 60 <= second <= 69 then Long
    else Uniform
  }

  /** The sleep before the wrapped handler runs: 100 ms, 5 s, or the third
      draw (100 to 999) in milliseconds. */
  function DelayMs(second: int, third: nat): (ms: nat)
    ensures BucketOf(second) == Short ==> ms == 100
    ensures BucketOf(second) == Long ==> ms == 5000
    ensures BucketOf(second) == Uniform ==> ms == third
    ensures 100 <= third < 1000 ==> 100 <= ms <= 5000
  {
    match BucketOf(second)
    case Short => 100
    case Long => 5 * 1000
    case Uniform => third
  }

  /** What a client gets back: the injected bare 500 response, or the
      handler's response after a delay. */
  datatype Outcome<R> = InternalServerError | Served(delayMs: nat, response: R)

  /** A handler installed without the wrapper: its response, at once. */
  function Direct<Q, R>(handler: Q -> R, query: Q): (o: Outcome<R>)
    ensures o.Served? && o.delayMs == 0 && o.response == handler(query)
  {
    Served(0, handler(query))
  }

  /** The wrapped handler: either an error before the handler runs (no
      response of the handler's in the outcome), or the handler's response
      unchanged after the chosen delay. */
  function MakeSloppy<Q, R>(handler: Q -> R, query: Q, first: int, second: int, third: nat): (o: Outcome<R>)
    ensures o.InternalServerError? <==> FailsRequest(first)
    ensures o.Served? ==> o.response == handler(query)
    ensures o.Served? ==> o.delayMs == DelayMs(second, third)
  {
    if FailsRequest(first) then InternalServerError
    else
      var delay := DelayMs(second, third);
      Served(delay, handler(query))
  }

  /** How many of the draws lo, lo + 1, ..., hi - 1 the function f sends to v. */
  function CountDraws<T(==)>(lo: int, hi: int, f: int -> T, v: T): nat
    decreases hi - lo
  {
    if hi <= lo then 0 else CountDraws(lo, hi - 1, f, v) + (if f(hi - 1) == v then 1 else 0)
  }

  /** When f sends exactly the draws of [a, b) to v, it does so for b - a draws. */
  lemma {:induction false} CountInterval<T>(lo: int, hi: int, f: int -> T, v: T, a: int, b: int)
    requires lo <= a <= b <= hi
    requires forall x :: lo <= x < hi ==> (f(x) == v <==> a <= x < b)
    ensures CountDraws(lo, hi, f, v) == b - a
    decreases hi - lo
  {
    if lo < hi {
      var a', b' := if a < hi - 1 then a else hi - 1, if b < hi - 1 then b else hi - 1;
      CountInterval(lo, hi - 1, f, v, a', b');
    }
  }

  /** Exactly 5 of the 100 possible first draws fail the request, and the
      other 95 let it through. */
  lemma ErrorDrawCount()
    ensures CountDraws(0, 100, FailsRequest, true) == 5
    ensures CountDraws(0, 100, FailsRequest, false) == 95
  {
    CountInterval(0, 100, FailsRequest, true, 0, 5);
    CountInterval(0, 100, FailsRequest, false, 5, 100);
  }

  /** Of the 100 possible second draws, 60 pick the 100 ms delay, 10 the 5 s
      delay and 30 the uniform 100-999 ms delay, as the sloppy flag's help
      text promises (60% of 0.1 s, 10% of 5 s, 30% of 0.1-1.0 s). */
  lemma BucketSizes()
    ensures CountDraws(0, 100, BucketOf, Short) == 60
    ensures CountDraws(0, 100, BucketOf, Long) == 10
    ensures CountDraws(0, 100, BucketOf, Uniform) == 30
  {
    CountInterval(0, 100, BucketOf, Short, 0, 60);
    CountInterval(0, 100, BucketOf, Long, 60, 70);
    CountInterval(0, 100, BucketOf, Uniform, 70, 100);
  }

  /** With draws in their ranges, a served request waits between 100 ms and 5 s. */
  lemma ServedDelayBounds<Q, R>(handler: Q -> R, query: Q, first: int, second: int, third: nat)
    requires 0 <= first < 100 && 0 <= second < 100 && 100 <= third < 1000
    requires !FailsRequest(first)
    ensures MakeSloppy(handler, query, first, second, third) ==
      Served(DelayMs(second, third), handler(query))
    ensures 100 <= DelayMs(second, third) <= 5000
  {
  }
}
