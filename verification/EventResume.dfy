/** Reconnecting with the id of the last frame received. It replays everything newer than that id, so it
    loses exactly the older events that had not come yet. */
module EventResume {
  import opened Events
  import opened EventStream
  import opened EventDelivery

  /** What a live stream sends: the replay, then the queue. */
  function Frames(s: State, i: nat): seq<Event>
    requires i < |s.streams| && s.streams[i].phase.Live? && i in s.hub.queues
  {
    s.streams[i].phase.replay + s.hub.queues[i]
  }

  /** The id a client reconnects with after `n` frames. */
  function LastId(after: nat, frames: seq<Event>, n: nat): nat
    requires n <= |frames|
  {
    if n == 0 then after else frames[n - 1].sequence
  }

  /** The numbers on a queue that are newer than the replay, in queue order. */
  function Newer(queue: seq<Event>, seen: nat): seq<nat> {
    if queue == [] then [] else
    var last := queue[|queue| - 1];
    Newer(queue[..|queue| - 1], seen) + (if seen < last.sequence then [last.sequence] else [])
  }

  /** They are seen + 1, seen + 2, ... without a gap. */
  predicate InOrder(queue: seq<Event>, seen: nat) {
    forall j | 0 <= j < |Newer(queue, seen)| :: Newer(queue, seen)[j] == seen + 1 + j
  }

  predicate HasNumber(queue: seq<Event>, k: int) {
    exists a :: 0 <= a < |queue| && queue[a].sequence == k
  }

  lemma HasNumberAppend(queue: seq<Event>, e: Event, k: int)
    ensures HasNumber(queue + [e], k) <==> HasNumber(queue, k) || e.sequence == k
  {
    if HasNumber(queue, k) {
      var a :| 0 <= a < |queue| && queue[a].sequence == k;
      assert (queue + [e])[a].sequence == k;
    }
    assert (queue + [e])[|queue|] == e;
  }

  lemma {:induction false} NewerMembers(queue: seq<Event>, seen: nat)
    ensures forall k :: k in Newer(queue, seen) <==> seen < k && HasNumber(queue, k)
  {
    if queue != [] {
      var init, last := queue[..|queue| - 1], queue[|queue| - 1];
      NewerMembers(init, seen);
      forall k: int
        ensures HasNumber(queue, k) <==> HasNumber(init, k) || k == last.sequence
      {
        assert queue == init + [last];
        HasNumberAppend(init, last, k);
      }
    }
  }

  lemma {:induction false} NewerPrefix(queue: seq<Event>, seen: nat, m: nat)
    requires m <= |queue|
    ensures Newer(queue[..m], seen) <= Newer(queue, seen)
  {
    if m < |queue| {
      NewerPrefix(queue[..|queue| - 1], seen, m);
      assert queue[..|queue| - 1][..m] == queue[..m];
    } else {
      assert queue[..m] == queue;
    }
  }

  /** In an orderly queue, whatever precedes a new event on it is every event since the replay. */
  lemma PrefixHasAllBefore(queue: seq<Event>, seen: nat, m: nat, k: nat)
    requires InOrder(queue, seen) && 1 <= m <= |queue| && seen < k <= queue[m - 1].sequence
    ensures HasNumber(queue[..m], k)
  {
    var prefix := queue[..m];
    NewerPrefix(queue, seen, m);
    NewerMembers(prefix, seen);
    assert prefix[m - 1].sequence in Newer(prefix, seen);
    var last :| 0 <= last < |Newer(prefix, seen)| && Newer(prefix, seen)[last] == prefix[m - 1].sequence;
    assert Newer(prefix, seen)[k - seen - 1] == k;
    assert k in Newer(prefix, seen);
  }

  lemma NumberInPrefix(frames: seq<Event>, n: nat, a: nat, k: nat)
    requires a < n <= |frames| && frames[a].sequence == k
    ensures HasNumber(frames[..n], k)
  {
    assert frames[..n][a].sequence == k;
  }

  /** The same for the parts of a stream: a replay of the rows after `after` up to `seen`, then a queue. */
  lemma PartsLoseNothing(rows: seq<Event>, after: nat, seen: nat, queue: seq<Event>, n: nat, k: nat)
    requires Consecutive(rows) && seen <= |rows| && InOrder(queue, seen)
    requires var frames := After(rows[..seen], after) + queue;
             n <= |frames| && after < k <= LastId(after, frames, n)
    ensures HasNumber((After(rows[..seen], after) + queue)[..n], k)
  {
    var replay := After(rows[..seen], after);
    var frames := replay + queue;
    AfterIsSuffix(rows[..seen], after);
    if n <= |replay| || k <= seen {
      assert replay[k - 1 - after] == rows[k - 1];
      NumberInPrefix(frames, n, k - 1 - after, k);
    } else {
      var m := n - |replay|;
      assert frames[n - 1] == queue[m - 1];
      PrefixHasAllBefore(queue, seen, m, k);
      var a :| 0 <= a < m && queue[..m][a].sequence == k;
      NumberInPrefix(frames, n, |replay| + a, k);
    }
  }

  /** If the queue of a live stream is orderly, a client that reconnects after any number of frames has
      received every event up to the id it reconnects with: none is lost between the two streams. */
  lemma ResumeLosesNothing(s: State, i: nat, n: nat, k: nat)
    requires DeliveryKept(s) && i < |s.streams| && s.streams[i].phase.Live? && i in s.hub.queues
    requires InOrder(s.hub.queues[i], s.streams[i].phase.seen) && n <= |Frames(s, i)|
    requires s.streams[i].after < k <= LastId(s.streams[i].after, Frames(s, i), n)
    ensures HasNumber(Frames(s, i)[..n], k)
  {
    assert Hears(s, i) && LiveOk(s, i);
    var Stream(scan, after, Live(seen, replay)) := s.streams[i];
    assert Consecutive(Rows(s.hub.rows, scan));
    PartsLoseNothing(Rows(s.hub.rows, scan), after, seen, s.hub.queues[i], n, k);
  }

  // ---- which broadcasts keep the order ----

  /** Every event of the scan after the replay and before number `k` has been broadcast. */
  ghost predicate OlderBroadcast(s: State, scan: ScanId, seen: nat, k: nat) {
    forall older | seen < older < k :: Broadcast(s, scan, older)
  }

  lemma OnQueueMeansNumber(s: State, i: nat, k: int)
    requires DeliveryKept(s) && i < |s.streams| && s.streams[i].phase.Live?
    requires s.streams[i].phase.seen < k <= |Rows(s.hub.rows, s.streams[i].scan)|
    ensures Broadcast(s, s.streams[i].scan, k) <==> k in Newer(s.hub.queues[i], s.streams[i].phase.seen)
  {
    assert Hears(s, i) && LiveOk(s, i) && QueueOk(s, i);
    var scan := s.streams[i].scan;
    var queue, rows := s.hub.queues[i], Rows(s.hub.rows, scan);
    assert Consecutive(rows);
    NewerMembers(queue, s.streams[i].phase.seen);
    QueueIsNewerBroadcasts(s, i, k);
    if a :| 0 <= a < |queue| && queue[a].sequence == k {
      assert WasAnnounced(s, queue[a]);
      var p :| AnnouncedAs(s, p, queue[a]);
      assert Owns(s, p, scan, k);
    }
    if InQueue(s, i, k) {
      var a :| 0 <= a < |queue| && queue[a] == rows[k - 1];
      assert queue[a].sequence == k;
    }
  }

  lemma NotYetOnQueue(s: State, i: nat, p: nat)
    requires DeliveryKept(s) && Enabled(s, Announce(p)) && i < |s.streams| && s.streams[i].phase.Live?
    requires s.publishers[p].scan == s.streams[i].scan && s.streams[i].phase.seen < s.publishers[p].phase.sequence
    ensures s.publishers[p].phase.sequence <= |Rows(s.hub.rows, s.streams[i].scan)|
    ensures !Broadcast(s, s.streams[i].scan, s.publishers[p].phase.sequence)
  {
    var scan, k := s.streams[i].scan, s.publishers[p].phase.sequence;
    assert Owns(s, p, scan, k) && RowFits(s, p, scan, k);
  }

  /** A broadcast keeps the queue of a live stream orderly if and only if all older events of the scan
      since the stream's replay have been broadcast already. */
  lemma BroadcastKeepsOrderExactly(s: State, p: nat, i: nat)
    requires DeliveryKept(s) && Enabled(s, Announce(p)) && i < |s.streams| && s.streams[i].phase.Live?
    requires s.publishers[p].scan == s.streams[i].scan && s.streams[i].phase.seen < s.publishers[p].phase.sequence
    requires i in s.hub.queues && InOrder(s.hub.queues[i], s.streams[i].phase.seen)
    ensures i in Apply(s, Announce(p)).hub.queues
    ensures InOrder(Apply(s, Announce(p)).hub.queues[i], s.streams[i].phase.seen)
            <==> OlderBroadcast(s, s.streams[i].scan, s.streams[i].phase.seen, s.publishers[p].phase.sequence)
  {
    var e := EventOf(s.publishers[p]);
    var scan, seen, queue, k := s.streams[i].scan, s.streams[i].phase.seen, s.hub.queues[i], e.sequence;
    assert Hears(s, i);
    AnnounceQueueKept(s, p, i);
    NotYetOnQueue(s, i, p);
    var before := Newer(queue, seen);
    assert (queue + [e])[..|queue|] == queue;
    assert Newer(queue + [e], seen) == before + [k];
    forall older | seen < older <= k
      ensures Broadcast(s, scan, older) <==> seen < older <= seen + |before|
    {
      OnQueueMeansNumber(s, i, older);
      if seen < older <= seen + |before| {
        assert before[older - seen - 1] == older;
      }
    }
    assert forall j | 0 <= j < |before| :: (before + [k])[j] == before[j];
    assert (before + [k])[|before|] == k;
    if k > seen + |before| + 1 {
      assert !Broadcast(s, scan, k - 1);
    }
  }

  /** A broadcast in the order of the commits: every event of the scan that a publisher has committed with
      a smaller number has been broadcast. So it is when a publish of a scan ends before the next one
      starts. */
  ghost predicate OrderlyStep(s: State, step: Step) {
    step.Announce? && Enabled(s, step) ==>
      forall q, older | Owns(s, q, s.publishers[step.p].scan, older) && older < s.publishers[step.p].phase.sequence ::
        s.publishers[q].phase.Announced?
  }

  ghost predicate AllInOrder(s: State) {
    forall i: nat | i < |s.streams| && s.streams[i].phase.Live? && i in s.hub.queues ::
      InOrder(s.hub.queues[i], s.streams[i].phase.seen)
  }

  /** A stream that has just read its replay starts orderly: its queue holds nothing newer. */
  lemma ReplayStartsInOrder(s: State, i: nat)
    requires DeliveryKept(s) && Enabled(s, Replay(i))
    ensures i in s.hub.queues && InOrder(s.hub.queues[i], |Rows(s.hub.rows, s.streams[i].scan)|)
  {
    assert Hears(s, i) && QueueOk(s, i);
    var scan := s.streams[i].scan;
    var queue, seen := s.hub.queues[i], |Rows(s.hub.rows, scan)|;
    NewerMembers(queue, seen);
    if Newer(queue, seen) != [] {
      var k := Newer(queue, seen)[0];
      assert k in Newer(queue, seen);
      var a :| 0 <= a < |queue| && queue[a].sequence == k;
      assert WasAnnounced(s, queue[a]);
      var p :| AnnouncedAs(s, p, queue[a]);
      assert Owns(s, p, scan, k) && RowFits(s, p, scan, k);
    }
  }

  lemma StepKeepsOrder(s: State, step: Step)
    requires DeliveryKept(s) && Enabled(s, step) && AllInOrder(s) && OrderlyStep(s, step)
    ensures AllInOrder(Apply(s, step))
  {
    var after := Apply(s, step);
    forall i: nat | i < |after.streams| && after.streams[i].phase.Live? && i in after.hub.queues
      ensures InOrder(after.hub.queues[i], after.streams[i].phase.seen)
    {
      if step.Replay? && step.i == i {
        ReplayStartsInOrder(s, i);
      } else {
        assert Hears(s, i) && QueueOk(s, i);
        if step.Announce? && s.publishers[step.p].scan == s.streams[i].scan {
          AnnouncedInOrder(s, step.p, i);
        } else {
          IsBystander(s, step, i);
        }
      }
    }
  }

  lemma AnnouncedInOrder(s: State, p: nat, i: nat)
    requires DeliveryKept(s) && Enabled(s, Announce(p)) && AllInOrder(s) && OrderlyStep(s, Announce(p))
    requires i < |s.streams| && s.streams[i].phase.Live? && i in s.hub.queues &&
        s.publishers[p].scan == s.streams[i].scan
    ensures i in Apply(s, Announce(p)).hub.queues
    ensures InOrder(Apply(s, Announce(p)).hub.queues[i], s.streams[i].phase.seen)
  {
    var seen, queue, e := s.streams[i].phase.seen, s.hub.queues[i], EventOf(s.publishers[p]);
    assert Hears(s, i);
    AnnounceQueueKept(s, p, i);
    if seen < e.sequence {
      assert LiveOk(s, i) && Owns(s, p, e.scan, e.sequence) && RowFits(s, p, e.scan, e.sequence);
      forall older | seen < older < e.sequence
        ensures Broadcast(s, s.streams[i].scan, older)
      {
        assert HasOwner(s, e.scan, older);
      }
      BroadcastKeepsOrderExactly(s, p, i);
    } else {
      assert (queue + [e])[..|queue|] == queue;
      assert Newer(queue + [e], seen) == Newer(queue, seen);
    }
  }

  /** A run whose broadcasts of each scan come in the order of the commits. */
  ghost predicate OrderlyRun(init: State, steps: seq<Step>) {
    forall m | 0 <= m < |steps| && Run(init, steps[..m]).Some? :: OrderlyStep(Run(init, steps[..m]).value, steps[m])
  }

  /** With such a run, no reconnect ever loses an event, at any point of any stream. */
  lemma {:induction false} OrderlyRunsAreGapFree(init: State, steps: seq<Step>)
    requires Initial(init) && Run(init, steps).Some? && OrderlyRun(init, steps)
    ensures DeliveryKept(Run(init, steps).value) && AllInOrder(Run(init, steps).value)
  {
    DeliveryAlwaysKept(init, steps);
    if steps != [] {
      var earlier := steps[..|steps| - 1];
      assert forall m | 0 <= m < |earlier| :: earlier[..m] == steps[..m] && earlier[m] == steps[m];
      OrderlyRunsAreGapFree(init, earlier);
      StepKeepsOrder(Run(init, earlier).value, steps[|steps| - 1]);
    }
  }
}
