/** libsmqttclient_mt/connection.c: waiting records and the search dequeue_by_type_and_id makes among them. */
module AckQueue {
  import opened Bytes
  import opened Frames
  import opened Queues

  /**
   * waiting_t. `context` stands for the callback and its context and tells records apart;
   * topic, msg and retain are used by PUBREL records only.
   */
  datatype Waiting = Waiting(
    messageType: nat, packetId: uint16, context: nat, topic: seq<byte>, msg: seq<byte>, retain: bool)

  datatype Found = NotFound | FoundAt(index: nat) | FoundUnset

  /** The record the search is after. */
  predicate Answers(w: Waiting, messageType: nat, packetId: uint16) {
    && w.messageType == messageType
    && (messageType == PINGRESP
        || (messageType in {PUBACK, PUBREC, PUBREL, PUBCOMP, SUBACK, UNSUBACK} && w.packetId == packetId))
  }

  /** The search ends here: at the record it is after, or at any SUBACK record when looking for one. */
  predicate Stops(w: Waiting, messageType: nat, packetId: uint16) {
    Answers(w, messageType, packetId) || (messageType == SUBACK && w.messageType == SUBACK)
  }

  /** The result of dequeue_by_type_and_id; FoundUnset is "true" without a record. */
  function Lookup(q: seq<Waiting>, messageType: nat, packetId: uint16): (r: Found)
    ensures r.NotFound? <==> forall i :: 0 <= i < |q| ==> !Stops(q[i], messageType, packetId)
    ensures r.FoundAt? ==>
              && r.index < |q| && Answers(q[r.index], messageType, packetId)
              && forall i :: 0 <= i < r.index ==> !Stops(q[i], messageType, packetId)
    ensures r.FoundUnset? <==> exists i :: FirstMismatch(q, messageType, packetId, i)
  {
    LookupFrom(q, messageType, packetId, 0)
  }

  ghost predicate FirstMismatch(q: seq<Waiting>, messageType: nat, packetId: uint16, i: nat) {
    && i < |q| && messageType == SUBACK == q[i].messageType && q[i].packetId != packetId
    && forall j :: 0 <= j < i ==> !Stops(q[j], messageType, packetId)
  }

  function LookupFrom(q: seq<Waiting>, messageType: nat, packetId: uint16, i: nat): (r: Found)
    requires i <= |q| && forall j :: 0 <= j < i ==> !Stops(q[j], messageType, packetId)
    ensures r.NotFound? <==> forall j :: 0 <= j < |q| ==> !Stops(q[j], messageType, packetId)
    ensures r.FoundAt? ==>
              && i <= r.index < |q| && Answers(q[r.index], messageType, packetId)
              && forall j :: 0 <= j < r.index ==> !Stops(q[j], messageType, packetId)
    ensures r.FoundUnset? <==> exists j :: FirstMismatch(q, messageType, packetId, j)
    decreases |q| - i
  {
    if i == |q| then NotFound
    else if Answers(q[i], messageType, packetId) then FoundAt(i)
    else if Stops(q[i], messageType, packetId) then
      assert FirstMismatch(q, messageType, packetId, i); FoundUnset
    else LookupFrom(q, messageType, packetId, i + 1)
  }

  function Without(q: seq<Waiting>, k: nat): seq<Waiting>
    requires k < |q|
  {
    q[..k] + q[k + 1..]
  }

  function AfterLookup(q: seq<Waiting>, messageType: nat, packetId: uint16): seq<Waiting> {
    var r := Lookup(q, messageType, packetId);
    if r.FoundAt? then Without(q, r.index) else q
  }

  /** Where the search first stops decides its result. */
  lemma LookupAt(q: seq<Waiting>, messageType: nat, packetId: uint16, k: nat)
    requires k < |q| && Stops(q[k], messageType, packetId)
    requires forall i :: 0 <= i < k ==> !Stops(q[i], messageType, packetId)
    ensures Lookup(q, messageType, packetId) == if Answers(q[k], messageType, packetId) then FoundAt(k) else FoundUnset
  {
    var r := Lookup(q, messageType, packetId);
    if r.FoundUnset? {
      var i :| FirstMismatch(q, messageType, packetId, i);
      assert i == k;
    }
  }

  /** The record found leaves the queue. */
  method TakeOut(queue: Queue<Waiting>, entry: Entry<Waiting>, messageType: nat, packetId: uint16, ghost k: nat)
    requires queue.Valid() && k < |queue.entries| && queue.entries[k] == entry
    requires Lookup(queue.Contents(), messageType, packetId) == FoundAt(k)
    modifies queue, queue.entries
    ensures queue.Valid()
    ensures queue.Contents() == AfterLookup(old(queue.Contents()), messageType, packetId)
    ensures forall e :: e in queue.entries ==> e in old(queue.entries)
  {
    queue.Remove(entry, k);
  }

  /** One step along the next pointers; `found` is the function's return value. */
  method DequeueByTypeAndId(queue: Queue<Waiting>, messageType: nat, packetId: uint16)
    returns (found: bool, waiting: Option<Waiting>)
    requires queue.Valid()
    modifies queue, queue.entries
    ensures queue.Valid()
    ensures queue.Contents() == AfterLookup(old(queue.Contents()), messageType, packetId)
    ensures forall e :: e in queue.entries ==> e in old(queue.entries)
    ensures var r := Lookup(old(queue.Contents()), messageType, packetId);
            && (found <==> !r.NotFound?)
            && waiting == if r.FoundAt? then Some(old(queue.Contents())[r.index]) else None
  {
    ghost var q := queue.Contents();
    var curr := queue.head;
    ghost var k: nat := 0;
    while curr != null
      invariant k <= |queue.entries| && queue.entries == old(queue.entries) && queue.Valid() && queue.Contents() == q
      invariant curr == if k < |queue.entries| then queue.entries[k] else null
      invariant forall j :: 0 <= j < k ==> !Stops(q[j], messageType, packetId)
      decreases |queue.entries| - k
    {
      var w := curr.payload;
      assert w == q[k];
      if w.messageType == messageType {
        var hasId := messageType in {PUBACK, PUBREC, PUBREL, PUBCOMP, SUBACK, UNSUBACK};
        if messageType == PINGRESP || (hasId && w.packetId == packetId) {
          LookupAt(q, messageType, packetId, k);
          TakeOut(queue, curr, messageType, packetId, k);
          return true, Some(w);
        }
        if messageType == SUBACK {
          LookupAt(q, messageType, packetId, k);
          return true, None;
        }
      }
      assert curr == queue.entries[k];
      curr := curr.next;
      k := k + 1;
    }
    return false, None;
  }
}
