/** What the bots of a fleet tell each other, and the in-process bus that carries it. */
module Bus {

  /** A skit is to begin, or one of its steps has been delivered. */
  datatype Event =
    | SkitStart(from: string, skit: string, nonce: string)
    | SkitAdvance(from: string, skit: string, step: nat, nonce: string)

  const INBOX: nat := 64

  /** An inbox takes an event unless it is full. */
  function Offered<T>(q: seq<T>, e: T): seq<T> {
    if |q| < INBOX then q + [e] else q
  }

  class MemBus {
    var subs: seq<seq<Event>>

    constructor ()
      ensures subs == []
    {
      subs := [];
    }

    method Subscribe() returns (id: nat)
      modifies this
      ensures subs == old(subs) + [[]] && id == |old(subs)|
    {
      id := |subs|;
      subs := subs + [[]];
    }

    /** One round of the loop that publishes. */
    method Offer(i: nat, e: Event)
      requires i < |subs|
      modifies this
      ensures subs == old(subs)[i := Offered(old(subs)[i], e)]
      ensures |old(subs)[i]| < 64 ==> subs[i] == old(subs)[i] + [e]
      ensures |old(subs)[i]| >= 64 ==> subs == old(subs)
    {
      if |subs[i]| < INBOX {
        subs := subs[i := subs[i] + [e]];
      }
    }

    /** A call that nothing comes between. What others do between two rounds is the matter
        of SkitFanout. */
    method Publish(e: Event)
      modifies this
      ensures |subs| == |old(subs)|
      ensures forall i :: 0 <= i < |subs| ==>
        subs[i] == if |old(subs)[i]| < 64 then old(subs)[i] + [e] else old(subs)[i]
    {
      for i := 0 to |subs|
        invariant |subs| == |old(subs)|
        invariant forall k :: 0 <= k < |subs| ==> subs[k] == if k < i then Offered(old(subs)[k], e) else old(subs)[k]
      {
        Offer(i, e);
      }
    }

    method Receive(id: nat) returns (e: Event)
      requires id < |subs| && subs[id] != []
      modifies this
      ensures subs == old(subs)[id := old(subs)[id][1..]] && e == old(subs)[id][0]
    {
      e := subs[id][0];
      subs := subs[id := subs[id][1..]];
    }
  }

  // --- One subscriber's view ---

  /** The subscriber is offered an event, or takes its next one. */
  datatype Act = Offer(e: Event) | Receive

  /** The inbox, everything offered since subscribing, and everything received. */
  datatype View = View(inbox: seq<Event>, offered: seq<Event>, received: seq<Event>)

  function Next(v: View, a: Act): View {
    match a
    case Offer(e) => View(Offered(v.inbox, e), v.offered + [e], v.received)
    case Receive => if v.inbox == [] then v else View(v.inbox[1..], v.offered, v.received + [v.inbox[0]])
  }

  function After(acts: seq<Act>): View {
    if acts == [] then View([], [], []) else Next(After(acts[..|acts| - 1]), acts[|acts| - 1])
  }

  /** The subscriber is never more than an inbox behind. */
  ghost predicate KeepsUp(acts: seq<Act>) {
    forall i :: 0 <= i <= |acts| ==>
      |After(acts[..i]).offered| - |After(acts[..i]).received| <= 64
  }

  /** A subscriber that keeps up loses nothing: what it has received and what is waiting
      are, in order, all that it was offered. The orders of two subscribers can differ. */
  lemma {:induction false} NothingIsLost(acts: seq<Act>)
    requires KeepsUp(acts)
    ensures After(acts).received + After(acts).inbox == After(acts).offered
  {
    if acts != [] {
      var n := |acts| - 1;
      var before := acts[..n];
      assert forall i :: 0 <= i <= n ==> before[..i] == acts[..i];
      NothingIsLost(before);
      assert acts[..n + 1] == acts;
      var v := After(before);
      assert |After(acts[..n + 1]).offered| - |After(acts[..n + 1]).received| <= INBOX;
      if acts[n].Receive? && v.inbox != [] {
        assert v.inbox == [v.inbox[0]] + v.inbox[1..];
      }
    }
  }
}
