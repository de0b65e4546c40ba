/** libsmqttclient_mt/connection.c: the linked queue behind free_queue, send_queue and ack_queue. */
module Queues {
  import opened Bytes

  class Entry<T> {
    const payload: T
    var previous: Entry?<T>
    var next: Entry?<T>

    constructor (payload: T)
      ensures this.payload == payload && previous == null && next == null
    {
      this.payload := payload;
      previous := null;
      next := null;
    }
  }

  class Queue<T> {
    var head: Entry?<T>
    var tail: Entry?<T>
    ghost var entries: seq<Entry<T>>

    /** Head, tail and the next pointers spell out `entries`; nothing is said about `previous`. */
    ghost predicate Forward()
      reads this, entries
    {
      && Distinct(entries)
      && (entries == [] ==> head == null && tail == null)
      && (entries != [] ==> head == entries[0] && tail == entries[|entries| - 1] && entries[|entries| - 1].next == null)
      && (forall i {:trigger entries[i].next} :: 0 <= i < |entries| - 1 ==> entries[i].next == entries[i + 1])
    }

    /** The previous pointers mirror the next pointers. */
    ghost predicate Backward()
      reads this, entries
    {
      BackwardOf(entries)
    }

    ghost predicate BackwardOf(was: seq<Entry<T>>)
      reads was
    {
      && (was != [] ==> was[0].previous == null)
      && (forall i {:trigger was[i].previous} :: 1 <= i < |was| ==> was[i].previous == was[i - 1])
    }

    ghost predicate Valid()
      reads this, entries
    {
      Forward() && Backward()
    }

    ghost function Contents(): seq<T>
      reads this
    {
      Payloads(entries)
    }

    /** init_queue */
    constructor ()
      ensures Valid() && entries == [] && Contents() == []
    {
      head := null;
      tail := null;
      entries := [];
    }

    /** The next pointers lead through `was` to a last entry behind it. */
    ghost predicate LinkedUpTo(was: seq<Entry<T>>, entry: Entry<T>, first: Entry?<T>, last: Entry?<T>)
      reads was, entry
    {
      && last == entry && entry.next == null && first == (if was == [] then entry else was[0])
      && entry.previous == (if was == [] then null else was[|was| - 1])
      && (forall i {:trigger was[i].next} :: 0 <= i < |was| - 1 ==> was[i].next == was[i + 1])
      && (was != [] ==> was[|was| - 1].next == entry)
    }

    /** enqueue on the pointers alone: a fresh entry is hung behind the tail. */
    method Link(entry: Entry<T>)
      requires Forward() && entry !in entries && entry.previous == null && entry.next == null
      modifies this, entries, entry
      ensures entries == old(entries) + [entry] && LinkedUpTo(old(entries), entry, head, tail)
      ensures old(Backward()) ==> BackwardOf(old(entries))
    {
      if head == null {
        head := entry;
        tail := entry;
      } else {
        entry.previous := tail;
        tail.next := entry;
        tail := entry;
        forall i {:trigger entries[i].next} | 0 <= i < |entries| - 1
          ensures entries[i].next == entries[i + 1]
        {
          assert entries[i] != entries[|entries| - 1];
          assert entries[i].next == old(entries[i].next);
        }
      }
      entries := entries + [entry];
    }

    method Enqueue(payload: T)
      requires Forward()
      modifies this, entries
      ensures Forward() && (old(Backward()) ==> Backward())
      ensures Contents() == old(Contents()) + [payload]
      ensures |entries| == |old(entries)| + 1 && entries == old(entries) + [entries[|old(entries)|]]
      ensures fresh(entries[|old(entries)|])
    {
      ghost var was := entries;
      var entry := new Entry<T>(payload);
      PayloadsAppend(was, entry);
      Link(entry);
      Extended(was, entry);
    }

    lemma Extended(was: seq<Entry<T>>, entry: Entry<T>)
      requires entries == was + [entry] && Distinct(was) && entry !in was && LinkedUpTo(was, entry, head, tail)
      ensures Forward() && (BackwardOf(was) ==> Backward())
    {
      forall i | 0 <= i < |entries| - 1
        ensures entries[i].next == entries[i + 1]
      {
        assert entries[i] == was[i];
      }
      if BackwardOf(was) {
        forall i | 1 <= i < |entries|
          ensures entries[i].previous == entries[i - 1]
        {
          assert i < |was| ==> entries[i] == was[i] && was[i].previous == was[i - 1];
        }
      }
    }

    /** The freed entry keeps its place in the heap; the queue forgets it. */
    method Dequeue() returns (payload: Option<T>)
      requires Forward()
      modifies this
      ensures Forward()
      ensures old(Contents()) == [] ==> payload == None && entries == old(entries)
      ensures old(Contents()) != [] ==>
                && payload == Some(old(Contents())[0])
                && entries == old(entries)[1..] && Contents() == old(Contents())[1..]
      ensures old(Valid()) ==> (Valid() <==> |old(entries)| <= 1)
    {
      if head == null {
        return None;
      }
      var first := head;
      if tail == head {
        head := null;
        tail := null;
      } else {
        head := head.next;
      }
      payload := Some(first.payload);
      entries := entries[1..];
    }

    /** The links lead past entry k, in both directions, from `first` to `last`. */
    ghost predicate LinkedPast(was: seq<Entry<T>>, k: nat, first: Entry?<T>, last: Entry?<T>)
      requires k < |was|
      reads was
    {
      && first == (if k > 0 then was[0] else if |was| > 1 then was[1] else null)
      && last == (if k + 1 < |was| then was[|was| - 1] else if k > 0 then was[k - 1] else null)
      && (forall i {:trigger was[i].next} :: 0 <= i < |was| - 1 && i != k - 1 ==> was[i].next == was[i + 1])
      && (forall i {:trigger was[i].previous} :: 1 <= i < |was| && i != k + 1 ==> was[i].previous == was[i - 1])
      && (k != |was| - 1 ==> was[|was| - 1].next == null)
      && (k != 0 ==> was[0].previous == null)
      && (k > 0 ==> was[k - 1].next == if k + 1 < |was| then was[k + 1] else null)
      && (k + 1 < |was| ==> was[k + 1].previous == if k > 0 then was[k - 1] else null)
    }

    /** remove_from_queue on the pointers alone: the neighbours of entry k are joined. */
    method Unlink(entry: Entry<T>, ghost k: nat)
      requires Valid()
      requires k < |entries| && entries[k] == entry
      modifies this, entries
      ensures entries == old(entries)[..k] + old(entries)[k + 1..] && LinkedPast(old(entries), k, head, tail)
    {
      assert k > 0 ==> entries[k].previous == entries[k - 1];
      assert k + 1 < |entries| ==> entries[k].next == entries[k + 1];
      if entry.previous == null {
        head := entry.next;
      } else {
        entry.previous.next := entry.next;
      }
      if entry.next == null {
        tail := entry.previous;
      } else {
        entry.next.previous := entry.previous;
      }
      entries := entries[..k] + entries[k + 1..];
    }

    /** remove_from_queue; `k` is the place of the entry. */
    method Remove(entry: Entry<T>, ghost k: nat)
      requires Valid()
      requires k < |entries| && entries[k] == entry
      modifies this, entries
      ensures Valid()
      ensures entries == old(entries)[..k] + old(entries)[k + 1..]
      ensures Contents() == old(Contents())[..k] + old(Contents())[k + 1..]
    {
      ghost var was := entries;
      PayloadsRemove(was, k);
      Unlink(entry, k);
      Rejoined(was, k);
    }

    lemma Rejoined(was: seq<Entry<T>>, k: nat)
      requires k < |was| && entries == was[..k] + was[k + 1..]
      requires Distinct(was)
      requires LinkedPast(was, k, head, tail)
      ensures Valid()
    {
      assert Distinct(entries) by {
        forall i, j | 0 <= i < j < |entries|
          ensures entries[i] != entries[j]
        {
          assert was[if i < k then i else i + 1] != was[if j < k then j else j + 1];
        }
      }
      forall i | 0 <= i < |entries| - 1
        ensures entries[i].next == entries[i + 1]
      {
        assert i >= k ==> was[i + 1].next == was[i + 2];
      }
      forall i | 1 <= i < |entries|
        ensures entries[i].previous == entries[i - 1]
      {
        assert i > k ==> was[i + 1].previous == was[i];
      }
    }
  }

  ghost predicate Distinct<T>(entries: seq<Entry<T>>) {
    forall i, j :: 0 <= i < j < |entries| ==> entries[i] != entries[j]
  }

  ghost function Payloads<T>(entries: seq<Entry<T>>): (s: seq<T>)
    ensures |s| == |entries| && forall i :: 0 <= i < |entries| ==> s[i] == entries[i].payload
  {
    seq(|entries|, i requires 0 <= i < |entries| => entries[i].payload)
  }

  lemma PayloadsRemove<T>(entries: seq<Entry<T>>, k: nat)
    requires k < |entries|
    ensures Payloads(entries[..k] + entries[k + 1..]) == Payloads(entries)[..k] + Payloads(entries)[k + 1..]
  {
    var kept := entries[..k] + entries[k + 1..];
    forall i | 0 <= i < |kept|
      ensures kept[i].payload == (Payloads(entries)[..k] + Payloads(entries)[k + 1..])[i]
    {
      assert kept[i] == entries[if i < k then i else i + 1];
    }
  }

  lemma PayloadsAppend<T>(entries: seq<Entry<T>>, last: Entry<T>)
    ensures Payloads(entries + [last]) == Payloads(entries) + [last.payload]
  {
    var left, right := Payloads(entries + [last]), Payloads(entries) + [last.payload];
    forall i | 0 <= i < |left|
      ensures left[i] == right[i]
    {
    }
  }
}
