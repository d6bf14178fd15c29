/**
 * Pending timers on a logical clock.
 *
 * A `setTimeout` call becomes an entry of a queue that carries the handle the
 * call returned, the instant it is due and the callback it will run. The
 * clock only moves when the caller says so; the next timer to fire is the one
 * that is due first, and among timers due at the same instant the one created
 * first (the queue keeps creation order).
 */
module Timers {
  import opened Wrappers

  datatype Timer<E> = Timer(id: nat, due: int, event: E)

  /** `clearTimeout(id)`: every pending timer with handle `id` is dropped and the others stay. */
  function Cancel<E>(q: seq<Timer<E>>, id: nat): (r: seq<Timer<E>>)
    ensures forall k :: 0 <= k < |r| ==> r[k] in q && r[k].id != id
    ensures forall k :: 0 <= k < |q| && q[k].id != id ==> q[k] in r
    ensures |r| <= |q|
    ensures (forall k :: 0 <= k < |q| ==> q[k].id != id) ==> r == q
  {
    if q == [] then []
    else if q[0].id == id then Cancel(q[1..], id)
    else [q[0]] + Cancel(q[1..], id)
  }

  /**
   * `if (ref)`: a slot is truthy when it holds a handle other than 0. A slot
   * holding `null`, or the handle 0, is skipped by the guard.
   */
  predicate Truthy(ref: Option<nat>)
  {
    ref.Some? && ref.value != 0
  }

  /** `if (ref) clearTimeout(ref)`: a slot that is not truthy cancels nothing. */
  function Clear<E>(q: seq<Timer<E>>, ref: Option<nat>): (r: seq<Timer<E>>)
    ensures forall k :: 0 <= k < |r| ==> r[k] in q && (Truthy(ref) ==> Some(r[k].id) != ref)
    ensures forall k :: 0 <= k < |q| && Some(q[k].id) != ref ==> q[k] in r
    ensures !Truthy(ref) ==> r == q
  {
    if Truthy(ref) then Cancel(q, ref.value) else q
  }

  /** Clearing a slot that names every pending timer, none of them with handle 0, leaves nothing. */
  lemma {:induction false} ClearOnly<E>(q: seq<Timer<E>>, b: Option<nat>)
    requires forall k :: 0 <= k < |q| ==> Some(q[k].id) == b && q[k].id != 0
    ensures Clear(q, b) == []
  {
    if q != [] {
      assert Some(q[0].id) == b && q[0].id != 0;
      ClearOnly(q[1..], b);
    }
  }

  /** Cancelling two handles that between them name every pending timer leaves nothing. */
  lemma {:induction false} CancelBoth<E>(q: seq<Timer<E>>, a: nat, b: nat)
    requires forall k :: 0 <= k < |q| ==> q[k].id == a || q[k].id == b
    ensures Cancel(Cancel(q, a), b) == []
  {
    if q != [] {
      CancelBoth(q[1..], a, b);
      if q[0].id != a {
        var rest := Cancel(q[1..], a);
        assert ([q[0]] + rest)[0] == q[0] && ([q[0]] + rest)[1..] == rest;
      }
    }
  }

  /**
   * Clearing both slots leaves nothing pending when every pending timer is
   * named by one of them and no pending handle is 0.
   */
  lemma ClearBoth<E>(q: seq<Timer<E>>, a: Option<nat>, b: Option<nat>)
    requires forall k :: 0 <= k < |q| ==> (Some(q[k].id) == a || Some(q[k].id) == b) && q[k].id != 0
    ensures Clear(Clear(q, a), b) == []
  {
    if Truthy(a) && Truthy(b) {
      CancelBoth(q, a.value, b.value);
    } else if Truthy(a) {
      ClearOnly(q, a);
    } else {
      ClearOnly(q, b);
    }
  }

  /** No pending timer is due before instant `t`. */
  predicate NotBefore<E>(q: seq<Timer<E>>, t: int)
  {
    forall k :: 0 <= k < |q| ==> t <= q[k].due
  }

  /** `q[k]` is the timer the event loop runs next: due first, created first among equals. */
  predicate IsNext<E>(q: seq<Timer<E>>, k: int)
  {
    && 0 <= k < |q|
    && NotBefore(q, q[k].due)
    && forall j :: 0 <= j < k ==> q[k].due < q[j].due
  }

  /** The queue once `q[k]` has run. */
  function Without<E>(q: seq<Timer<E>>, k: nat): (r: seq<Timer<E>>)
    requires k < |q|
    ensures |r| == |q| - 1
    ensures forall j :: 0 <= j < k ==> r[j] == q[j]
    ensures forall j :: k <= j < |r| ==> r[j] == q[j + 1]
  {
    q[..k] + q[k + 1..]
  }

  /** Handles in `q` are pairwise different. */
  predicate DistinctIds<E>(q: seq<Timer<E>>)
  {
    forall i, j :: 0 <= i < j < |q| ==> q[i].id != q[j].id
  }
}
