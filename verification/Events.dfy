/** The event publisher: an append-only table of numbered events and the live queues of its streams. */
module Events {
  import opened Wrappers

  type ScanId = int
  type QueueId = nat

  datatype Event = Event(scan: ScanId, sequence: nat, payload: string)

  /** The table, who listens to which scan, and everything ever put on each queue. */
  datatype Hub = Hub(
    rows: seq<Event>,
    subscribers: map<ScanId, set<QueueId>>,
    queues: map<QueueId, seq<Event>>)

  function Rows(rows: seq<Event>, scan: ScanId): seq<Event> {
    if rows == [] then [] else
    var last := rows[|rows| - 1];
    Rows(rows[..|rows| - 1], scan) + (if last.scan == scan then [last] else [])
  }

  function Highest(rows: seq<Event>): nat {
    if rows == [] then 0 else
    var before, last := Highest(rows[..|rows| - 1]), rows[|rows| - 1].sequence;
    if before < last then last else before
  }

  /** The next number is above all stored ones, and no higher than it has to be. */
  lemma {:induction false} HighestIsTheMaximum(rows: seq<Event>)
    ensures forall i | 0 <= i < |rows| :: rows[i].sequence <= Highest(rows)
    ensures Highest(rows) == 0 || exists i | 0 <= i < |rows| :: rows[i].sequence == Highest(rows)
  {
    if rows != [] {
      var init := rows[..|rows| - 1];
      HighestIsTheMaximum(init);
      if i :| 0 <= i < |init| && init[i].sequence == Highest(init) {
        assert rows[i].sequence == Highest(init);
      }
      assert forall i | 0 <= i < |init| :: rows[i] == init[i];
    }
  }

  /** `_next_sequence` */
  function NextSequence(h: Hub, scan: ScanId): nat {
    Highest(Rows(h.rows, scan)) + 1
  }

  /** The unique constraint on scan and sequence. */
  predicate Taken(h: Hub, scan: ScanId, sequence: nat) {
    exists i | 0 <= i < |h.rows| :: h.rows[i].scan == scan && h.rows[i].sequence == sequence
  }

  function Inserted(h: Hub, e: Event): Hub {
    h.(rows := h.rows + [e])
  }

  function Listeners(h: Hub, scan: ScanId): set<QueueId> {
    if scan in h.subscribers then h.subscribers[scan] else {}
  }

  function Broadcasted(h: Hub, e: Event): Hub {
    h.(queues := map q | q in h.queues :: if q in Listeners(h, e.scan) then h.queues[q] + [e] else h.queues[q])
  }

  function Subscribed(h: Hub, scan: ScanId, q: QueueId): Hub {
    h.(subscribers := h.subscribers[scan := Listeners(h, scan) + {q}], queues := h.queues[q := []])
  }

  function Unsubscribed(h: Hub, scan: ScanId, q: QueueId): Hub {
    if scan !in h.subscribers then h else
    var left := h.subscribers[scan] - {q};
    h.(subscribers := if left == {} then h.subscribers - {scan} else h.subscribers[scan := left])
  }

  /** `events_since`, in the order of the table. */
  function After(rows: seq<Event>, sequence: nat): seq<Event> {
    if rows == [] then [] else
    var last := rows[|rows| - 1];
    After(rows[..|rows| - 1], sequence) + (if sequence < last.sequence then [last] else [])
  }

  function SinceIn(rows: seq<Event>, scan: ScanId, sequence: nat): seq<Event> {
    After(Rows(rows, scan), sequence)
  }

  function Since(h: Hub, scan: ScanId, sequence: nat): seq<Event> {
    SinceIn(h.rows, scan, sequence)
  }

  class EventPublisher {
    var rows: seq<Event>
    var subscribers: map<ScanId, set<QueueId>>
    var queues: map<QueueId, seq<Event>>

    constructor ()
      ensures View() == Hub([], map[], map[])
    {
      rows, subscribers, queues := [], map[], map[];
    }

    function View(): Hub
      reads this
    {
      Hub(rows, subscribers, queues)
    }

    /** `publish` when nothing comes between its awaits: number, insert, broadcast. A number already taken
        is refused by the unique constraint. */
    method Publish(scan: ScanId, payload: string) returns (r: Option<Event>)
      modifies this
      ensures var e := Event(scan, NextSequence(old(View()), scan), payload);
              if Taken(old(View()), scan, e.sequence) then r == None && View() == old(View())
              else r == Some(e) && View() == Broadcasted(Inserted(old(View()), e), e)
    {
      var e := Event(scan, NextSequence(View(), scan), payload);
      var inserted := Insert(e);
      if !inserted {
        return None;
      }
      Broadcast(e);
      return Some(e);
    }

    method Insert(e: Event) returns (inserted: bool)
      modifies this`rows
      ensures inserted == !Taken(old(View()), e.scan, e.sequence)
      ensures View() == if inserted then Inserted(old(View()), e) else old(View())
    {
      if Taken(View(), e.scan, e.sequence) {
        return false;
      }
      rows := rows + [e];
      return true;
    }

    method Broadcast(e: Event)
      modifies this`queues
      ensures View() == Broadcasted(old(View()), e)
    {
      var left := Listeners(View(), e.scan) * queues.Keys;
      ghost var all := left;
      ghost var before := queues;
      while left != {}
        invariant left <= all && queues.Keys == before.Keys
        invariant all == Listeners(View(), e.scan) * before.Keys
        invariant forall q | q in before ::
          queues[q] == if q in all - left then before[q] + [e] else before[q]
        decreases left
      {
        var q :| q in left;
        queues := queues[q := queues[q] + [e]];
        left := left - {q};
      }
    }

    method Subscribe(scan: ScanId, q: QueueId)
      requires q !in queues
      modifies this`subscribers, this`queues
      ensures View() == Subscribed(old(View()), scan, q)
    {
      subscribers := subscribers[scan := Listeners(View(), scan) + {q}];
      queues := queues[q := []];
    }

    method Unsubscribe(scan: ScanId, q: QueueId)
      modifies this`subscribers
      ensures View() == Unsubscribed(old(View()), scan, q)
    {
      if scan !in subscribers {
        return;
      }
      subscribers := subscribers[scan := subscribers[scan] - {q}];
      if subscribers[scan] == {} {
        subscribers := subscribers - {scan};
      }
    }

    /** Exactly the events of the scan above the number; once the numbers of the scan are consecutive, in
        ascending order without a gap. */
    method EventsSince(scan: ScanId, sequence: nat) returns (missed: seq<Event>)
      ensures missed == Since(View(), scan, sequence)
      ensures forall e :: e in missed <==> e in rows && e.scan == scan && sequence < e.sequence
      ensures Consecutive(Rows(rows, scan)) ==>
                forall a | 0 <= a < |missed| :: missed[a].sequence == sequence + 1 + a
    {
      missed := [];
      for k := 0 to |rows|
        invariant missed == SinceIn(rows[..k], scan, sequence)
      {
        assert rows[..k + 1] == rows[..k] + [rows[k]];
        SinceOneMore(rows[..k], rows[k], scan, sequence);
        if rows[k].scan == scan && sequence < rows[k].sequence {
          missed := missed + [rows[k]];
        }
      }
      assert rows[..|rows|] == rows;
      SinceMembers(rows, scan, sequence);
      if Consecutive(Rows(rows, scan)) {
        AfterIsSuffix(Rows(rows, scan), sequence);
      }
    }
  }

  lemma SinceOneMore(rows: seq<Event>, e: Event, scan: ScanId, sequence: nat)
    ensures SinceIn(rows + [e], scan, sequence) ==
            SinceIn(rows, scan, sequence) + if e.scan == scan && sequence < e.sequence then [e] else []
  {
    if e.scan == scan {
      AfterOneMore(Rows(rows, scan), e, sequence);
    } else {
      assert Rows(rows, scan) + [] == Rows(rows, scan);
    }
  }

  lemma {:induction false} AfterMembers(rows: seq<Event>, sequence: nat)
    ensures forall e :: e in After(rows, sequence) <==> e in rows && sequence < e.sequence
  {
    if rows != [] {
      var init, last := rows[..|rows| - 1], rows[|rows| - 1];
      AfterMembers(init, sequence);
      AfterOneMore(init, last, sequence);
      assert rows == init + [last];
    }
  }

  lemma SinceMembers(rows: seq<Event>, scan: ScanId, sequence: nat)
    ensures forall e :: e in SinceIn(rows, scan, sequence) <==> e in rows && e.scan == scan && sequence < e.sequence
  {
    AfterMembers(Rows(rows, scan), sequence);
    RowsMembers(rows, scan);
  }

  // ---- consecutive numbers ----

  /** The rows of a scan carry 1, 2, 3, ... in the order of their commits. */
  predicate Consecutive(rows: seq<Event>) {
    forall i | 0 <= i < |rows| :: rows[i].sequence == i + 1
  }

  lemma {:induction false} HighestIsLength(rows: seq<Event>)
    requires Consecutive(rows)
    ensures Highest(rows) == |rows|
  {
    if rows != [] {
      HighestIsLength(rows[..|rows| - 1]);
    }
  }

  lemma {:induction false} RowsMembers(rows: seq<Event>, scan: ScanId)
    ensures forall e :: e in Rows(rows, scan) <==> e in rows && e.scan == scan
  {
    if rows != [] {
      RowsMembers(rows[..|rows| - 1], scan);
      assert rows == rows[..|rows| - 1] + [rows[|rows| - 1]];
    }
  }

  /** On consecutive rows a number is taken exactly when it is in 1..n. */
  lemma TakenIsInRange(h: Hub, scan: ScanId, sequence: nat)
    requires Consecutive(Rows(h.rows, scan))
    ensures Taken(h, scan, sequence) <==> 1 <= sequence <= |Rows(h.rows, scan)|
  {
    var mine := Rows(h.rows, scan);
    RowsMembers(h.rows, scan);
    if Taken(h, scan, sequence) {
      var i :| 0 <= i < |h.rows| && h.rows[i].scan == scan && h.rows[i].sequence == sequence;
      assert h.rows[i] in mine;
    }
    if 1 <= sequence <= |mine| {
      assert mine[sequence - 1] in h.rows;
    }
  }

  lemma AfterOneMore(rows: seq<Event>, e: Event, sequence: nat)
    ensures After(rows + [e], sequence) == After(rows, sequence) + if sequence < e.sequence then [e] else []
  {
    assert (rows + [e])[..|rows|] == rows;
  }

  /** What a replay from `sequence` returns on consecutive rows: all of them from there on, in order. */
  lemma {:induction false} AfterIsSuffix(rows: seq<Event>, sequence: nat)
    requires Consecutive(rows)
    ensures After(rows, sequence) == if |rows| <= sequence then [] else rows[sequence..]
  {
    if rows != [] {
      var init, last := rows[..|rows| - 1], rows[|rows| - 1];
      AfterIsSuffix(init, sequence);
      AfterOneMore(init, last, sequence);
      assert rows == init + [last] && last.sequence == |rows|;
    }
  }

  // ---- the publisher on its own ----

  /** An uninterrupted publish always gets the next number, and leaves the numbers consecutive. */
  lemma PublishAlwaysSucceedsAlone(h: Hub, scan: ScanId)
    requires Consecutive(Rows(h.rows, scan))
    ensures !Taken(h, scan, NextSequence(h, scan)) && NextSequence(h, scan) == |Rows(h.rows, scan)| + 1
  {
    HighestIsLength(Rows(h.rows, scan));
    TakenIsInRange(h, scan, NextSequence(h, scan));
  }

  /** After subscribing and unsubscribing, nobody else's subscription has changed. */
  lemma UnsubscribeUndoesSubscribe(h: Hub, scan: ScanId, q: QueueId)
    requires q !in Listeners(h, scan) && (forall k | k in h.subscribers :: h.subscribers[k] != {})
    ensures Unsubscribed(Subscribed(h, scan, q), scan, q).subscribers == h.subscribers
  {
    assert Listeners(h, scan) + {q} - {q} == Listeners(h, scan);
  }
}
