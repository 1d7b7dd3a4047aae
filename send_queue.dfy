/** A client's outgoing channel, seen as the frames it holds: a send that
    finds the buffer full is dropped (the `select … default` of the Go
    hubs). */
module SendQueue {

  /** One non-blocking send. */
  function Offer<T>(buf: seq<T>, x: T, capacity: nat): (r: seq<T>)
    ensures |buf| < capacity ==> r == buf + [x]
    ensures |buf| >= capacity ==> r == buf
  {
    if |buf| < capacity then buf + [x] else buf
  }

  /** Several sends in order. */
  function OfferAll<T>(buf: seq<T>, xs: seq<T>, capacity: nat): seq<T>
    decreases |xs|
  {
    if xs == [] then buf else OfferAll(Offer(buf, xs[0], capacity), xs[1..], capacity)
  }

  function Min(a: int, b: int): int {
    if a < b then a else b
  }

  /** The buffer keeps everything it held and then as many of the new
      frames, in order, as there is room for; the rest are lost. */
  lemma {:induction false} OfferAllKeepsPrefix<T>(buf: seq<T>, xs: seq<T>, capacity: nat)
    requires |buf| <= capacity
    ensures OfferAll(buf, xs, capacity) == buf + xs[..Min(|xs|, capacity - |buf|)]
    decreases |xs|
  {
    if xs != [] {
      var next := Offer(buf, xs[0], capacity);
      OfferAllKeepsPrefix(next, xs[1..], capacity);
      if |buf| < capacity {
        assert next == buf + [xs[0]];
        assert xs[..Min(|xs|, capacity - |buf|)] == [xs[0]] + xs[1..][..Min(|xs| - 1, capacity - |buf| - 1)];
      } else {
        assert next == buf;
      }
    }
  }

  /** A buffer that starts within its capacity stays within it. */
  lemma OfferAllBounded<T>(buf: seq<T>, xs: seq<T>, capacity: nat)
    requires |buf| <= capacity
    ensures |buf| <= |OfferAll(buf, xs, capacity)| <= capacity
    ensures OfferAll(buf, xs, capacity)[..|buf|] == buf
  {
    OfferAllKeepsPrefix(buf, xs, capacity);
  }

  lemma {:induction false} OfferAllAppend<T>(buf: seq<T>, xs: seq<T>, ys: seq<T>, capacity: nat)
    ensures OfferAll(buf, xs + ys, capacity) == OfferAll(OfferAll(buf, xs, capacity), ys, capacity)
    decreases |xs|
  {
    if xs == [] {
      assert xs + ys == ys;
    } else {
      assert (xs + ys)[1..] == xs[1..] + ys;
      OfferAllAppend(Offer(buf, xs[0], capacity), xs[1..], ys, capacity);
    }
  }

  /** The same frame sent `n` times. */
  function OfferTimes<T>(buf: seq<T>, x: T, capacity: nat, n: nat): seq<T>
    decreases n
  {
    if n == 0 then buf else Offer(OfferTimes(buf, x, capacity, n - 1), x, capacity)
  }

  function Repeat<T>(x: T, n: nat): (r: seq<T>)
    ensures |r| == n
    ensures forall i :: 0 <= i < n ==> r[i] == x
    decreases n
  {
    if n == 0 then [] else Repeat(x, n - 1) + [x]
  }

  /** `n` sends of one frame leave it in the buffer `n` times when there is
      room, fewer when there is not. */
  lemma {:induction false} OfferTimesIsOfferAll<T>(buf: seq<T>, x: T, capacity: nat, n: nat)
    ensures OfferTimes(buf, x, capacity, n) == OfferAll(buf, Repeat(x, n), capacity)
    decreases n
  {
    if n > 0 {
      OfferTimesIsOfferAll(buf, x, capacity, n - 1);
      OfferAllAppend(buf, Repeat(x, n - 1), [x], capacity);
      assert OfferAll(OfferTimes(buf, x, capacity, n - 1), [x], capacity)
             == Offer(OfferTimes(buf, x, capacity, n - 1), x, capacity);
    }
  }
}
