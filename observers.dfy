/**
 * Subscriber lists and notification rounds, shared by every store.
 * A callback is represented by an opaque identity; a notification round is
 * observable as the deliveries it makes, in order.
 */
module Observers {

  /** The identity of a subscriber callback (`===` on functions). */
  type SubscriberId = nat

  /** One call `callback(payload)`. */
  datatype Delivery<P> = Delivery(to: SubscriberId, payload: P)

  /** The deliveries of one round: every subscriber, in registration order, receives `payload`. */
  function Broadcast<P>(subs: seq<SubscriberId>, payload: P): (r: seq<Delivery<P>>)
    ensures |r| == |subs|
    ensures forall i :: 0 <= i < |r| ==> r[i] == Delivery(subs[i], payload)
  {
    if subs == [] then [] else [Delivery(subs[0], payload)] + Broadcast(subs[1..], payload)
  }

  /** `subscribers.forEach((callback) => callback(payload))`. */
  method NotifyAll<P>(subs: seq<SubscriberId>, payload: P) returns (sent: seq<Delivery<P>>)
    ensures sent == Broadcast(subs, payload)
  {
    sent := [];
    for i := 0 to |subs|
      invariant |sent| == i
      invariant forall k :: 0 <= k < i ==> sent[k] == Delivery(subs[k], payload)
    {
      sent := sent + [Delivery(subs[i], payload)];
    }
  }

  /** `subscribers.filter((sub) => sub !== callback)`: every registration of `s` goes. */
  function RemoveAll(subs: seq<SubscriberId>, s: SubscriberId): (r: seq<SubscriberId>)
    ensures |r| <= |subs|
    ensures forall x :: x in r <==> x in subs && x != s
    ensures s !in subs ==> r == subs
  {
    if subs == [] then []
    else if subs[0] == s then RemoveAll(subs[1..], s)
    else [subs[0]] + RemoveAll(subs[1..], s)
  }

  /** Removing every registration keeps the others in their order. */
  lemma {:induction false} RemoveAllKeepsOrder(a: seq<SubscriberId>, b: seq<SubscriberId>, s: SubscriberId)
    ensures RemoveAll(a + b, s) == RemoveAll(a, s) + RemoveAll(b, s)
  {
    if a == [] {
      assert a + b == b;
    } else {
      assert (a + b)[0] == a[0] && (a + b)[1..] == a[1..] + b;
      RemoveAllKeepsOrder(a[1..], b, s);
    }
  }

  /** Calling the unsubscribe function again changes nothing. */
  lemma RemoveAllIdempotent(subs: seq<SubscriberId>, s: SubscriberId)
    ensures RemoveAll(RemoveAll(subs, s), s) == RemoveAll(subs, s)
  {
  }

  /** `subscribers.indexOf(callback)`: the first position of `s`, or -1. */
  function IndexOf(subs: seq<SubscriberId>, s: SubscriberId): (r: int)
    ensures -1 <= r < |subs|
    ensures r == -1 <==> s !in subs
    ensures 0 <= r ==> subs[r] == s && s !in subs[..r]
  {
    if subs == [] then -1
    else if subs[0] == s then 0
    else
      var r := IndexOf(subs[1..], s);
      assert subs[1..][..r + 1] == subs[1..r + 2] by { assert r + 2 <= |subs| || r == -1; }
      if r == -1 then -1 else r + 1
  }

  /**
   * `if (index > -1) subscribers.splice(index, 1)`: the first registration of
   * `s` goes, and nothing else changes.
   */
  function RemoveFirst(subs: seq<SubscriberId>, s: SubscriberId): (r: seq<SubscriberId>)
    ensures s !in subs ==> r == subs
    ensures s in subs ==> |r| == |subs| - 1 && multiset(r) == multiset(subs) - multiset{s}
    ensures s in subs ==>
      exists i :: 0 <= i < |subs| && subs[i] == s && s !in subs[..i] && r == subs[..i] + subs[i + 1..]
  {
    var i := IndexOf(subs, s);
    if i == -1 then subs
    else
      assert subs == subs[..i] + [s] + subs[i + 1..];
      var r := subs[..i] + subs[i + 1..];
      assert subs[i] == s && s !in subs[..i] && r == subs[..i] + subs[i + 1..];
      r
  }

  /** Unsubscribing a callback registered once leaves no registration, so a second call is a no-op. */
  lemma RemoveFirstOnce(subs: seq<SubscriberId>, s: SubscriberId)
    requires multiset(subs)[s] <= 1
    ensures s !in RemoveFirst(subs, s)
    ensures RemoveFirst(RemoveFirst(subs, s), s) == RemoveFirst(subs, s)
  {
    var r := RemoveFirst(subs, s);
    assert s !in multiset(r);
  }
}
