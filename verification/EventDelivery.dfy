/** What a stream receives: the replay and the queue together hold every event whose broadcast has
    happened, and exactly the events that are missing are characterised. */
module EventDelivery {
  import opened Events
  import opened EventStream

  predicate AnnouncedAs(s: State, p: int, e: Event) {
    0 <= p < |s.publishers| && s.publishers[p].phase.Announced? && EventOf(s.publishers[p]) == e
  }

  predicate Hears(s: State, i: int) {
    0 <= i < |s.streams| && (s.streams[i].phase.Listening? || s.streams[i].phase.Live?)
  }

  predicate NoRepeat(q: seq<Event>) {
    forall a, b | 0 <= a < b < |q| :: q[a] != q[b]
  }

  /** The queues and the subscriber sets belong to the open streams. */
  ghost predicate Wired(s: State) {
    && (forall i | 0 <= i < |s.streams| :: i in s.hub.queues <==> !s.streams[i].phase.Unopened?)
    && (forall i | 0 <= i < |s.streams| :: Hears(s, i) <==> i in Listeners(s.hub, s.streams[i].scan))
    && (forall scan, q :: ListenerFits(s, scan, q))
  }

  /** Whoever listens to a scan is a stream of that scan. */
  predicate ListenerFits(s: State, scan: ScanId, q: QueueId) {
    q in Listeners(s.hub, scan) ==> q < |s.streams| && s.streams[q].scan == scan
  }

  ghost predicate WasAnnounced(s: State, e: Event) {
    exists p :: AnnouncedAs(s, p, e)
  }

  ghost predicate HasOwner(s: State, scan: ScanId, k: int) {
    exists p :: Owns(s, p, scan, k)
  }

  /** A queue holds announced events of its scan, each once. */
  ghost predicate QueueOk(s: State, i: nat)
    requires i < |s.streams|
  {
    && i in s.hub.queues
    && (forall a | 0 <= a < |s.hub.queues[i]| ::
          s.hub.queues[i][a].scan == s.streams[i].scan && WasAnnounced(s, s.hub.queues[i][a]))
    && NoRepeat(s.hub.queues[i])
  }

  /** An announced row committed after the replay was read is on the queue. */
  predicate Queued(s: State, i: nat, p: int, k: int)
    requires i < |s.streams| && s.streams[i].phase.Live?
  {
    Owns(s, p, s.streams[i].scan, k) && s.streams[i].phase.seen < k && s.publishers[p].phase.Announced? ==>
      i in s.hub.queues && EventOf(s.publishers[p]) in s.hub.queues[i]
  }

  ghost predicate LiveOk(s: State, i: nat)
    requires i < |s.streams|
  {
    s.streams[i].phase.Live? ==>
      && var Stream(scan, after, Live(seen, replay)) := s.streams[i];
      && seen <= |Rows(s.hub.rows, scan)| && replay == After(Rows(s.hub.rows, scan)[..seen], after)
      && (forall p, k :: Queued(s, i, p, k))
      && (forall k | seen < k <= |Rows(s.hub.rows, scan)| :: HasOwner(s, scan, k))
  }

  ghost predicate DeliveryKept(s: State) {
    && TableKept(s) && Wired(s)
    && forall i: nat | i < |s.streams| && Hears(s, i) :: QueueOk(s, i) && LiveOk(s, i)
  }

  // ---- wiring ----

  lemma OpenKeepsWired(s: State, i: nat)
    requires Wired(s) && Enabled(s, Open(i))
    ensures Wired(Apply(s, Open(i)))
  {
    var after := Apply(s, Open(i));
    forall scan
      ensures Listeners(after.hub, scan) == Listeners(s.hub, scan) + if scan == s.streams[i].scan then {i} else {}
    {
    }
    assert |after.streams| == |s.streams|;
    assert forall k | 0 <= k < |s.streams| :: after.streams[k].scan == s.streams[k].scan;
    forall scan, q
      ensures ListenerFits(after, scan, q)
    {
      assert ListenerFits(s, scan, q);
    }
  }

  lemma CloseKeepsWired(s: State, i: nat)
    requires Wired(s) && Enabled(s, Close(i))
    ensures Wired(Apply(s, Close(i)))
  {
    var after := Apply(s, Close(i));
    forall scan
      ensures Listeners(after.hub, scan) == Listeners(s.hub, scan) - if scan == s.streams[i].scan then {i} else {}
    {
    }
    assert |after.streams| == |s.streams|;
    assert forall k | 0 <= k < |s.streams| :: after.streams[k].scan == s.streams[k].scan;
    forall scan, q
      ensures ListenerFits(after, scan, q)
    {
      assert ListenerFits(s, scan, q);
    }
  }

  lemma StepKeepsWired(s: State, step: Step)
    requires Wired(s) && Enabled(s, step)
    ensures Wired(Apply(s, step))
  {
    var after := Apply(s, step);
    match step
    case Open(i) => OpenKeepsWired(s, i);
    case Close(i) => CloseKeepsWired(s, i);
    case _ =>
      assert after.hub.subscribers == s.hub.subscribers;
      assert forall scan :: Listeners(after.hub, scan) == Listeners(s.hub, scan);
      forall scan, q
        ensures ListenerFits(after, scan, q)
      {
        assert ListenerFits(s, scan, q);
      }
  }

  // ---- one stream over one step ----

  /** A step that leaves the stream and its queue alone, announces nothing to it, and may commit one row. */
  ghost predicate Bystander(s: State, after: State, i: nat)
    requires i < |s.streams|
  {
    && i < |after.streams| && after.streams[i] == s.streams[i]
    && i in s.hub.queues && i in after.hub.queues && after.hub.queues[i] == s.hub.queues[i]
    && (forall p, e | AnnouncedAs(s, p, e) :: AnnouncedAs(after, p, e))
    && (forall p, e | AnnouncedAs(after, p, e) && e.scan == s.streams[i].scan :: AnnouncedAs(s, p, e))
    && (forall p, scan, k | Owns(s, p, scan, k) :: Owns(after, p, scan, k))
    && RowsGrow(s, after, s.streams[i].scan)
  }

  ghost predicate RowsGrow(s: State, after: State, scan: ScanId) {
    var rows, grown := Rows(s.hub.rows, scan), Rows(after.hub.rows, scan);
    grown == rows || (|grown| == |rows| + 1 && grown[..|rows|] == rows && HasOwner(after, scan, |grown|))
  }

  lemma BystanderQueueKept(s: State, after: State, i: nat)
    requires i < |s.streams| && QueueOk(s, i) && Bystander(s, after, i)
    ensures QueueOk(after, i)
  {
    forall a | 0 <= a < |s.hub.queues[i]|
      ensures WasAnnounced(after, s.hub.queues[i][a])
    {
      assert WasAnnounced(s, s.hub.queues[i][a]);
      var p :| AnnouncedAs(s, p, s.hub.queues[i][a]);
      assert AnnouncedAs(after, p, s.hub.queues[i][a]);
    }
  }

  lemma BystanderLiveKept(s: State, after: State, i: nat)
    requires i < |s.streams| && s.streams[i].phase.Live? && LiveOk(s, i) && Bystander(s, after, i)
    ensures LiveOk(after, i)
  {
    var Stream(scan, since, Live(seen, replay)) := s.streams[i];
    var rows, grown := Rows(s.hub.rows, scan), Rows(after.hub.rows, scan);
    assert grown[..seen] == rows[..seen];
    forall p, k
      ensures Queued(after, i, p, k)
    {
      assert Queued(s, i, p, k);
      if Owns(after, p, scan, k) && after.publishers[p].phase.Announced? {
        var e := EventOf(after.publishers[p]);
        assert AnnouncedAs(after, p, e);
        assert AnnouncedAs(s, p, e);
        assert Owns(s, p, scan, k);
      }
    }
    forall k | seen < k <= |grown|
      ensures HasOwner(after, scan, k)
    {
      if k <= |rows| {
        assert HasOwner(s, scan, k);
        var p :| Owns(s, p, scan, k);
        assert Owns(after, p, scan, k);
      }
    }
  }

  lemma AnnounceQueueKept(s: State, p: nat, i: nat)
    requires DeliveryKept(s) && Enabled(s, Announce(p)) && Hears(s, i) && s.streams[i].scan == s.publishers[p].scan
    ensures QueueOk(Apply(s, Announce(p)), i)
    ensures Apply(s, Announce(p)).hub.queues[i] == s.hub.queues[i] + [EventOf(s.publishers[p])]
  {
    var after, e := Apply(s, Announce(p)), EventOf(s.publishers[p]);
    assert QueueOk(s, i);
    var queue := s.hub.queues[i];
    assert AnnouncedAs(after, p, e);
    forall a | 0 <= a < |queue|
      ensures WasAnnounced(after, queue[a]) && queue[a] != e
    {
      assert WasAnnounced(s, queue[a]);
      var q :| AnnouncedAs(s, q, queue[a]);
      assert AnnouncedAs(after, q, queue[a]);
      if queue[a] == e {
        assert Owns(s, q, e.scan, e.sequence) && Owns(s, p, e.scan, e.sequence);
      }
    }
  }

  lemma AnnounceLiveKept(s: State, p: nat, i: nat)
    requires DeliveryKept(s) && Enabled(s, Announce(p)) && Hears(s, i) && s.streams[i].scan == s.publishers[p].scan
    requires s.streams[i].phase.Live?
    ensures LiveOk(Apply(s, Announce(p)), i)
  {
    var after, e := Apply(s, Announce(p)), EventOf(s.publishers[p]);
    AnnounceQueueKept(s, p, i);
    assert LiveOk(s, i);
    var scan := s.streams[i].scan;
    forall q, k
      ensures Queued(after, i, q, k)
    {
      assert Queued(s, i, q, k);
      assert q != p && Owns(after, q, scan, k) ==> Owns(s, q, scan, k);
    }
    forall k | s.streams[i].phase.seen < k <= |Rows(after.hub.rows, scan)|
      ensures HasOwner(after, scan, k)
    {
      assert HasOwner(s, scan, k);
      var q :| Owns(s, q, scan, k);
      assert Owns(after, q, scan, k);
    }
  }

  lemma ReplayKept(s: State, i: nat)
    requires DeliveryKept(s) && Enabled(s, Replay(i))
    ensures QueueOk(Apply(s, Replay(i)), i) && LiveOk(Apply(s, Replay(i)), i)
  {
    var after := Apply(s, Replay(i));
    assert Hears(s, i) && QueueOk(s, i);
    forall a | 0 <= a < |s.hub.queues[i]|
      ensures WasAnnounced(after, s.hub.queues[i][a])
    {
      assert WasAnnounced(s, s.hub.queues[i][a]);
      var p :| AnnouncedAs(s, p, s.hub.queues[i][a]);
      assert AnnouncedAs(after, p, s.hub.queues[i][a]);
    }
    var rows := Rows(s.hub.rows, s.streams[i].scan);
    assert rows[..|rows|] == rows;
    forall p, k
      ensures Queued(after, i, p, k)
    {
      assert RowFits(s, p, s.streams[i].scan, k);
      assert Owns(after, p, s.streams[i].scan, k) ==> Owns(s, p, s.streams[i].scan, k);
    }
  }

  lemma IsBystander(s: State, step: Step, i: nat)
    requires DeliveryKept(s) && Enabled(s, step) && Hears(s, i)
    requires (step.Open? || step.Replay? || step.Close?) ==> step.i != i
    requires step.Announce? ==> s.publishers[step.p].scan != s.streams[i].scan
    ensures Bystander(s, Apply(s, step), i)
  {
    var after := Apply(s, step);
    var scan := s.streams[i].scan;
    assert QueueOk(s, i);
    assert after.hub.queues[i] == s.hub.queues[i] by {
      if step.Announce? {
        assert ListenerFits(s, s.publishers[step.p].scan, i);
        assert i !in Listeners(s.hub, s.publishers[step.p].scan);
      }
    }
    RowsAcross(s, step, scan);
  }

  lemma RowsAcross(s: State, step: Step, scan: ScanId)
    requires TableKept(s) && Enabled(s, step)
    ensures RowsGrow(s, Apply(s, step), scan)
  {
    if step.Commit? && !Taken(s.hub, s.publishers[step.p].scan, s.publishers[step.p].phase.sequence) {
      var after := Apply(s, step);
      CommitIsNext(s, step.p);
      if scan == s.publishers[step.p].scan {
        assert Owns(after, step.p, scan, |Rows(after.hub.rows, scan)|);
      }
    }
  }

  lemma StepKeepsDelivery(s: State, step: Step)
    requires DeliveryKept(s) && Enabled(s, step)
    ensures DeliveryKept(Apply(s, step))
  {
    var after := Apply(s, step);
    StepKeepsTable(s, step);
    StepKeepsWired(s, step);
    forall i: nat | i < |after.streams| && Hears(after, i)
      ensures QueueOk(after, i) && LiveOk(after, i)
    {
      if step.Replay? && step.i == i {
        ReplayKept(s, i);
      } else if step.Open? && step.i == i {
      } else {
        assert Hears(s, i);
        if step.Announce? && s.publishers[step.p].scan == s.streams[i].scan {
          AnnounceQueueKept(s, step.p, i);
          if s.streams[i].phase.Live? {
            AnnounceLiveKept(s, step.p, i);
          }
        } else {
          IsBystander(s, step, i);
          BystanderQueueKept(s, after, i);
          if s.streams[i].phase.Live? {
            BystanderLiveKept(s, after, i);
          }
        }
      }
    }
  }

  lemma {:induction false} DeliveryAlwaysKept(init: State, steps: seq<Step>)
    requires Initial(init) && Run(init, steps).Some?
    ensures DeliveryKept(Run(init, steps).value)
  {
    if steps == [] {
      forall p, scan, k
        ensures !Owns(init, p, scan, k)
      {
      }
    } else {
      DeliveryAlwaysKept(init, steps[..|steps| - 1]);
      StepKeepsDelivery(Run(init, steps[..|steps| - 1]).value, steps[|steps| - 1]);
    }
  }

  // ---- the theorem ----

  /** Event number `k` of the stream's scan: in the replay or not, on the queue or not. */
  predicate InReplay(s: State, i: nat, k: int)
    requires i < |s.streams| && s.streams[i].phase.Live? && 1 <= k <= |Rows(s.hub.rows, s.streams[i].scan)|
  {
    Rows(s.hub.rows, s.streams[i].scan)[k - 1] in s.streams[i].phase.replay
  }

  predicate InQueue(s: State, i: nat, k: int)
    requires i < |s.streams| && 1 <= k <= |Rows(s.hub.rows, s.streams[i].scan)|
  {
    i in s.hub.queues && Rows(s.hub.rows, s.streams[i].scan)[k - 1] in s.hub.queues[i]
  }

  /** The publisher of event `k` has put it on the live queues. */
  ghost predicate Broadcast(s: State, scan: ScanId, k: int) {
    exists p :: Owns(s, p, scan, k) && s.publishers[p].phase.Announced?
  }

  lemma ReplayIsOlderRows(s: State, i: nat, k: int)
    requires DeliveryKept(s) && i < |s.streams| && s.streams[i].phase.Live?
    requires s.streams[i].after < k <= |Rows(s.hub.rows, s.streams[i].scan)|
    ensures InReplay(s, i, k) <==> k <= s.streams[i].phase.seen
  {
    assert Hears(s, i) && LiveOk(s, i);
    var Stream(scan, after, Live(seen, replay)) := s.streams[i];
    var rows := Rows(s.hub.rows, scan);
    assert Consecutive(rows);
    AfterIsSuffix(rows[..seen], after);
    if k <= seen {
      assert replay[k - 1 - after] == rows[k - 1];
    }
  }

  lemma QueueIsNewerBroadcasts(s: State, i: nat, k: int)
    requires DeliveryKept(s) && i < |s.streams| && s.streams[i].phase.Live?
    requires s.streams[i].phase.seen < k <= |Rows(s.hub.rows, s.streams[i].scan)|
    ensures InQueue(s, i, k) <==> Broadcast(s, s.streams[i].scan, k)
  {
    assert Hears(s, i) && LiveOk(s, i) && QueueOk(s, i);
    var scan := s.streams[i].scan;
    var e := Rows(s.hub.rows, scan)[k - 1];
    assert Consecutive(Rows(s.hub.rows, scan));
    RowsMembers(s.hub.rows, scan);
    assert e in Rows(s.hub.rows, scan);
    if InQueue(s, i, k) {
      assert WasAnnounced(s, e);
      var p :| AnnouncedAs(s, p, e);
      assert Owns(s, p, scan, k);
    }
    if p :| Owns(s, p, scan, k) && s.publishers[p].phase.Announced? {
      assert Queued(s, i, p, k) && RowFits(s, p, scan, k);
    }
  }

  /** In every reachable state, for every live stream and every committed event newer than the id it was
      opened with: the event is in the replay exactly when it was committed before the replay was read;
      a later one is on the queue exactly when its publisher has broadcast it; and no queue holds an event
      twice. So an event is missing only while, or because, its publisher stopped between its commit,
      made after the replay, and its broadcast. */
  lemma NoEventLost(init: State, steps: seq<Step>, i: nat, k: nat)
    requires Initial(init) && Run(init, steps).Some?
    requires var s := Run(init, steps).value;
             && i < |s.streams| && s.streams[i].phase.Live?
             && s.streams[i].after < k <= |Rows(s.hub.rows, s.streams[i].scan)|
    ensures var s := Run(init, steps).value;
            var seen := s.streams[i].phase.seen;
            && Rows(s.hub.rows, s.streams[i].scan)[k - 1].sequence == k
            && (InReplay(s, i, k) <==> k <= seen)
            && (seen < k ==> (InQueue(s, i, k) <==> Broadcast(s, s.streams[i].scan, k)))
            && i in s.hub.queues && NoRepeat(s.hub.queues[i])
  {
    DeliveryAlwaysKept(init, steps);
    var s := Run(init, steps).value;
    assert Hears(s, i) && QueueOk(s, i);
    assert Consecutive(Rows(s.hub.rows, s.streams[i].scan));
    ReplayIsOlderRows(s, i, k);
    if s.streams[i].phase.seen < k {
      QueueIsNewerBroadcasts(s, i, k);
    }
  }
}
