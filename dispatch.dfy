/** The order in which a dispatch on the owning loop invokes listeners.
    A dispatch takes a snapshot of the queued listeners, empties the queue,
    invokes the snapshot, and repeats with whatever was queued meanwhile,
    until it finds the queue empty. */
module Dispatch {

  /** A registered completion callback; only its identity matters here. */
  datatype Listener = Listener(id: nat)

  /** The batches, concatenated in order. */
  function Flatten(batches: seq<seq<Listener>>): seq<Listener>
    decreases |batches|
  {
    if batches == [] then [] else batches[0] + Flatten(batches[1..])
  }

  /** The number of leading rounds during which some listener arrived: the
      dispatch stops after the first round during which none did. */
  function Busy(late: seq<seq<Listener>>): (k: nat)
    ensures k <= |late|
    ensures forall i :: 0 <= i < k ==> late[i] != []
    ensures k < |late| ==> late[k] == []
    decreases |late|
  {
    if late == [] || late[0] == [] then 0 else 1 + Busy(late[1..])
  }

  /** The listeners invoked, in order, by a dispatch that finds `queued` in
      the queue and during whose i-th round the batch `late[i]` is queued by
      other threads. An empty queue ends the dispatch at once. */
  function Order(queued: seq<Listener>, late: seq<seq<Listener>>): (r: seq<Listener>)
    ensures queued == [] ==> r == []
    ensures |queued| <= |r|
    decreases |late|
  {
    if queued == [] then []
    else queued + (if late == [] then [] else Order(late[0], late[1..]))
  }

  /** One round of a dispatch: the snapshot, then the dispatch of what
      arrived during it. */
  lemma OrderRound(batch: seq<Listener>, late: seq<seq<Listener>>)
    requires batch != []
    ensures late == [] ==> Order(batch, late) == batch + Order([], late)
    ensures late != [] ==> Order(batch, late) == batch + Order(late[0], late[1..])
  {
  }

  /** A dispatch invokes every listener queued before it and every listener
      queued during one of its busy rounds exactly once, in registration
      order, and no other. */
  lemma {:induction false} OrderIsRegistrationOrder(queued: seq<Listener>, late: seq<seq<Listener>>)
    requires queued != []
    ensures Order(queued, late) == queued + Flatten(late[..Busy(late)])
    decreases |late|
  {
    if late == [] {
    } else if late[0] == [] {
      assert late[..Busy(late)] == [];
    } else {
      OrderIsRegistrationOrder(late[0], late[1..]);
      assert late[..Busy(late)] == [late[0]] + late[1..][..Busy(late[1..])];
      assert Flatten(late[..Busy(late)]) == late[0] + Flatten(late[1..][..Busy(late[1..])]);
    }
  }

  /** When nothing is queued by others during the dispatch, exactly the
      queued listeners are invoked, in their order. */
  lemma OrderWithoutArrivals(queued: seq<Listener>, rounds: nat)
    ensures Order(queued, seq(rounds, _ => [])) == queued
  {
    if queued != [] && rounds > 0 {
      assert Order([], seq(rounds - 1, _ => [])) == [];
    }
  }
}
