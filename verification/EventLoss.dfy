/** Reconnecting while publishers are between their commit and their broadcast. What a stream is given is
    determined by the moment it opens: its queue holds exactly the broadcasts since then. An older event
    is lost to a client exactly if its publisher was past its broadcast, or dropped it, by that moment. */
module EventLoss {
  import opened Wrappers
  import opened Events
  import opened EventStream
  import opened EventDelivery
  import opened EventResume

  predicate HasAnnounced(s: State, p: int) {
    0 <= p < |s.publishers| && s.publishers[p].phase.Announced?
  }

  /** The publisher has broadcast its event, or never will. */
  predicate Settled(s: State, p: int) {
    0 <= p < |s.publishers| && (s.publishers[p].phase.Announced? || s.publishers[p].phase.Dropped?)
  }

  predicate OnQueue(s: State, i: nat, e: Event) {
    i in s.hub.queues && e in s.hub.queues[i]
  }

  // ---- the queue holds exactly the broadcasts since the stream was opened ----

  /** `s` is where stream `i` was opened, `t` is later. */
  predicate QueuedSince(s: State, t: State, i: nat, p: int)
    requires i < |t.streams|
  {
    HasAnnounced(t, p) && t.publishers[p].scan == t.streams[i].scan ==>
      (OnQueue(t, i, EventOf(t.publishers[p])) <==> !HasAnnounced(s, p))
  }

  /** Nothing that was fixed at `s` has changed at `t`. */
  ghost predicate Later(s: State, t: State, i: nat) {
    && i < |s.streams| == |t.streams| && |s.publishers| == |t.publishers|
    && t.streams[i].scan == s.streams[i].scan && t.streams[i].after == s.streams[i].after
    && !t.streams[i].phase.Unopened?
    && (forall p :: Settled(s, p) ==> Settled(t, p) && t.publishers[p] == s.publishers[p])
  }

  ghost predicate GivenSince(s: State, t: State, i: nat) {
    && Later(s, t, i)
    && (Hears(t, i) ==> forall p :: QueuedSince(s, t, i, p))
  }

  lemma StepKeepsLater(s: State, t: State, step: Step, i: nat)
    requires Later(s, t, i) && Enabled(t, step)
    ensures Later(s, Apply(t, step), i)
    ensures Hears(Apply(t, step), i) ==> Hears(t, i)
  {
    var after := Apply(t, step);
    forall p | Settled(s, p)
      ensures Settled(after, p) && after.publishers[p] == s.publishers[p]
    {
      assert Settled(t, p);
    }
  }

  lemma AnnouncingKeepsSince(s: State, t: State, q: nat, i: nat)
    requires GivenSince(s, t, i) && DeliveryKept(t) && Enabled(t, Announce(q)) && Hears(t, i)
    requires t.publishers[q].scan == t.streams[i].scan
    ensures forall p :: QueuedSince(s, Apply(t, Announce(q)), i, p)
  {
    var after, e := Apply(t, Announce(q)), EventOf(t.publishers[q]);
    AnnounceQueueKept(t, q, i);
    assert after.hub.queues[i] == t.hub.queues[i] + [e];
    forall p
      ensures QueuedSince(s, after, i, p)
    {
      if p == q {
        assert !Settled(t, q);
        assert !Settled(s, q);
        assert after.hub.queues[i][|t.hub.queues[i]|] == e;
      } else {
        assert QueuedSince(s, t, i, p);
        if HasAnnounced(t, p) && t.publishers[p].scan == e.scan {
          assert Owns(t, p, e.scan, t.publishers[p].phase.sequence) && Owns(t, q, e.scan, e.sequence);
        }
      }
    }
  }

  lemma StepKeepsSince(s: State, t: State, step: Step, i: nat)
    requires GivenSince(s, t, i) && DeliveryKept(t) && Enabled(t, step)
    ensures GivenSince(s, Apply(t, step), i)
  {
    var after := Apply(t, step);
    StepKeepsLater(s, t, step, i);
    if Hears(after, i) {
      if step.Announce? && t.publishers[step.p].scan == t.streams[i].scan {
        AnnouncingKeepsSince(s, t, step.p, i);
      } else {
        OtherStepIsQuiet(t, step, i);
        QuietKeepsQueued(s, t, after, i);
      }
    }
  }

  /** The queue of stream `i` stays as it is, and nothing is broadcast for its scan. */
  ghost predicate Quiet(t: State, after: State, i: nat) {
    && i < |t.streams| == |after.streams| && after.streams[i].scan == t.streams[i].scan
    && i in t.hub.queues && i in after.hub.queues && after.hub.queues[i] == t.hub.queues[i]
    && forall p | HasAnnounced(after, p) && after.publishers[p].scan == t.streams[i].scan ::
         HasAnnounced(t, p) && after.publishers[p] == t.publishers[p]
  }

  lemma QuietKeepsQueued(s: State, t: State, after: State, i: nat)
    requires Quiet(t, after, i) && forall p :: QueuedSince(s, t, i, p)
    ensures forall p :: QueuedSince(s, after, i, p)
  {
    forall p
      ensures QueuedSince(s, after, i, p)
    {
      assert QueuedSince(s, t, i, p);
    }
  }

  lemma OtherStepIsQuiet(t: State, step: Step, i: nat)
    requires DeliveryKept(t) && Enabled(t, step) && Hears(t, i) && Hears(Apply(t, step), i)
    requires step.Announce? ==> t.publishers[step.p].scan != t.streams[i].scan
    ensures Quiet(t, Apply(t, step), i)
  {
    if step == Replay(i) {
      assert QueueOk(t, i);
    } else {
      IsBystander(t, step, i);
    }
    PublishersStay(t, step);
  }

  lemma PublishersStay(t: State, step: Step)
    requires Enabled(t, step)
    ensures forall p | HasAnnounced(Apply(t, step), p) ::
              step == Announce(p) || (HasAnnounced(t, p) && Apply(t, step).publishers[p] == t.publishers[p])
    ensures forall p | 0 <= p < |t.publishers| :: Apply(t, step).publishers[p].scan == t.publishers[p].scan
  {
  }

  lemma OpenStartsSince(s: State, i: nat)
    requires DeliveryKept(s) && Enabled(s, Open(i))
    ensures DeliveryKept(Apply(s, Open(i))) && GivenSince(s, Apply(s, Open(i)), i)
  {
    StepKeepsDelivery(s, Open(i));
  }

  lemma {:induction false} RunsKeepSince(s: State, i: nat, more: seq<Step>)
    requires DeliveryKept(s) && Enabled(s, Open(i)) && Run(Apply(s, Open(i)), more).Some?
    ensures DeliveryKept(Run(Apply(s, Open(i)), more).value)
    ensures GivenSince(s, Run(Apply(s, Open(i)), more).value, i)
  {
    if more == [] {
      OpenStartsSince(s, i);
    } else {
      var earlier, step := more[..|more| - 1], more[|more| - 1];
      RunsKeepSince(s, i, earlier);
      var t := Run(Apply(s, Open(i)), earlier).value;
      StepKeepsDelivery(t, step);
      StepKeepsSince(s, t, step, i);
    }
  }

  ghost predicate Reachable(s: State) {
    exists init, steps :: Initial(init) && Run(init, steps) == Some(s)
  }

  lemma ReachableIsKept(s: State)
    requires Reachable(s)
    ensures DeliveryKept(s)
  {
    var init, steps :| Initial(init) && Run(init, steps) == Some(s);
    DeliveryAlwaysKept(init, steps);
  }

  /** At `s` stream `i` opens, and `more` steps later the state is `t`. */
  predicate OpensInto(s: State, i: nat, more: seq<Step>, t: State) {
    Enabled(s, Open(i)) && Run(Apply(s, Open(i)), more) == Some(t)
  }

  /** The stream is open, and the publisher has committed an event of its scan. */
  predicate Concerns(t: State, i: nat, p: nat) {
    Hears(t, i) && HasEvent(t, p) && t.publishers[p].scan == t.streams[i].scan
  }

  /** From every reachable state, however the run goes on once stream `i` opens: while the stream is open, an
      event of its scan is on its queue exactly if it was broadcast, and that after the stream had opened. */
  lemma QueueIsTheBroadcastsSinceOpening(s: State, i: nat, more: seq<Step>, t: State, p: nat)
    requires Reachable(s) && OpensInto(s, i, more, t) && Concerns(t, i, p)
    ensures OnQueue(t, i, EventOf(t.publishers[p])) <==> HasAnnounced(t, p) && !HasAnnounced(s, p)
  {
    ReachableIsKept(s);
    RunsKeepSince(s, i, more);
    assert QueuedSince(s, t, i, p);
    if OnQueue(t, i, EventOf(t.publishers[p])) {
      QueuedIsAnnounced(t, i, p);
    }
  }

  /** The publisher has committed its row. */
  predicate HasEvent(s: State, p: int) {
    && 0 <= p < |s.publishers|
    && (s.publishers[p].phase.Committed? || s.publishers[p].phase.Announced? || s.publishers[p].phase.Dropped?)
  }

  lemma QueuedIsAnnounced(t: State, i: nat, p: nat)
    requires DeliveryKept(t) && Hears(t, i) && HasEvent(t, p) && OnQueue(t, i, EventOf(t.publishers[p]))
    ensures HasAnnounced(t, p)
  {
    var e := EventOf(t.publishers[p]);
    assert QueueOk(t, i);
    assert WasAnnounced(t, e);
    var q :| AnnouncedAs(t, q, e);
    assert Owns(t, q, e.scan, e.sequence) && Owns(t, p, e.scan, e.sequence);
  }

  /** An event newer than the id the stream was opened with is given twice, by the replay and on the queue,
      exactly if it was committed before the replay was read and broadcast after the stream had opened. */
  lemma GivenTwiceExactly(s: State, i: nat, more: seq<Step>, t: State, p: nat)
    requires Reachable(s) && OpensInto(s, i, more, t) && Concerns(t, i, p)
    requires t.streams[i].phase.Live? && t.streams[i].after < t.publishers[p].phase.sequence
    ensures var e := EventOf(t.publishers[p]);
            e in t.streams[i].phase.replay && OnQueue(t, i, e) <==>
              e.sequence <= t.streams[i].phase.seen && HasAnnounced(t, p) && !HasAnnounced(s, p)
  {
    QueueIsTheBroadcastsSinceOpening(s, i, more, t, p);
    ReachableIsKept(s);
    RunsKeepSince(s, i, more);
    var k := t.publishers[p].phase.sequence;
    assert Owns(t, p, t.streams[i].scan, k) && RowFits(t, p, t.streams[i].scan, k);
    ReplayIsOlderRows(t, i, k);
  }

  // ---- what a reconnecting client never gets ----

  /** The client of stream `i` has been sent the event, or it waits on the queue for it. */
  predicate Delivers(t: State, i: nat, e: Event) {
    i < |t.streams| && t.streams[i].phase.Live? && i in t.hub.queues && e in Frames(t, i)
  }

  /** However the run goes on after stream `i` is opened, the stream does not deliver the event. */
  ghost predicate MissedForGood(s: State, i: nat, e: Event)
    requires Enabled(s, Open(i))
  {
    forall more | Run(Apply(s, Open(i)), more).Some? :: !Delivers(Run(Apply(s, Open(i)), more).value, i, e)
  }

  lemma ReplayIsNewer(t: State, i: nat, e: Event)
    requires DeliveryKept(t) && i < |t.streams| && t.streams[i].phase.Live? && e in t.streams[i].phase.replay
    ensures t.streams[i].after < e.sequence
  {
    assert Hears(t, i) && LiveOk(t, i);
    var Stream(scan, after, Live(seen, replay)) := t.streams[i];
    assert Consecutive(Rows(t.hub.rows, scan));
    AfterIsSuffix(Rows(t.hub.rows, scan)[..seen], after);
  }

  lemma SettledIsMissed(s: State, i: nat, p: nat)
    requires DeliveryKept(s) && Enabled(s, Open(i)) && Settled(s, p)
    requires s.publishers[p].scan == s.streams[i].scan && s.publishers[p].phase.sequence <= s.streams[i].after
    ensures MissedForGood(s, i, EventOf(s.publishers[p]))
  {
    var e := EventOf(s.publishers[p]);
    forall more | Run(Apply(s, Open(i)), more).Some?
      ensures !Delivers(Run(Apply(s, Open(i)), more).value, i, e)
    {
      RunsKeepSince(s, i, more);
      var t := Run(Apply(s, Open(i)), more).value;
      if Delivers(t, i, e) {
        assert Settled(s, p);
        if e in t.streams[i].phase.replay {
          ReplayIsNewer(t, i, e);
        }
        assert Hears(t, i) && QueuedSince(s, t, i, p);
        QueuedIsAnnounced(t, i, p);
      }
    }
  }

  lemma AnnouncingDelivers(s: State, i: nat, p: nat)
    requires DeliveryKept(s) && Enabled(s, Announce(p)) && i < |s.streams| && s.streams[i].phase.Live?
    requires s.publishers[p].scan == s.streams[i].scan
    ensures Delivers(Apply(s, Announce(p)), i, EventOf(s.publishers[p]))
  {
    var t, e := Apply(s, Announce(p)), EventOf(s.publishers[p]);
    assert Hears(s, i) && QueueOk(s, i);
    AnnounceQueueKept(s, p, i);
    assert t.hub.queues[i][|s.hub.queues[i]|] == e;
  }

  /** The stream opened, with its replay read. */
  lemma OpenAndReplay(s: State, i: nat) returns (t: State)
    requires DeliveryKept(s) && Enabled(s, Open(i))
    ensures Run(Apply(s, Open(i)), [] + [Replay(i)]) == Some(t) && DeliveryKept(t)
    ensures t.publishers == s.publishers
    ensures i < |t.streams| && t.streams[i].phase.Live? && t.streams[i].scan == s.streams[i].scan
  {
    var opening := Apply(s, Open(i));
    StepKeepsDelivery(s, Open(i));
    t := Apply(opening, Replay(i));
    StepKeepsDelivery(opening, Replay(i));
    RunOn(opening, [], opening, Replay(i), t);
  }

  lemma PendingIsNotMissed(s: State, i: nat, p: nat)
    requires DeliveryKept(s) && Enabled(s, Open(i)) && p < |s.publishers| && s.publishers[p].phase.Committed?
    requires s.publishers[p].scan == s.streams[i].scan
    ensures !MissedForGood(s, i, EventOf(s.publishers[p]))
  {
    var t := OpenAndReplay(s, i);
    AnnouncingDelivers(t, i, p);
    RunOn(Apply(s, Open(i)), [] + [Replay(i)], t, Announce(p), Apply(t, Announce(p)));
  }

  /** An event no newer than the id a stream is opened with is missed for good by that stream exactly if its
      publisher has broadcast it, or dropped it, before the stream opens. */
  lemma MissedForGoodExactly(s: State, i: nat, p: nat)
    requires Reachable(s) && Enabled(s, Open(i)) && HasEvent(s, p) && s.publishers[p].scan == s.streams[i].scan
    requires s.publishers[p].phase.sequence <= s.streams[i].after
    ensures MissedForGood(s, i, EventOf(s.publishers[p])) <==>
              s.publishers[p].phase.Announced? || s.publishers[p].phase.Dropped?
  {
    ReachableIsKept(s);
    if Settled(s, p) {
      SettledIsMissed(s, i, p);
    } else {
      PendingIsNotMissed(s, i, p);
    }
  }

  // ---- a run in which a client loses an event ----

  lemma RunOn(init: State, steps: seq<Step>, s: State, step: Step, after: State)
    requires Run(init, steps) == Some(s) && Enabled(s, step) && Apply(s, step) == after
    ensures Run(init, steps + [step]) == Some(after)
  {
    assert (steps + [step])[..|steps|] == steps;
  }

  const ONE := Event(7, 1, "a")
  const TWO := Event(7, 2, "b")

  /** Two publishes of scan 7, a client that listens to it from the start, and its next connection, which
      it will open with id 2. */
  function Scene(rows: seq<Event>, first: PublishPhase, second: PublishPhase, client: StreamPhase, queue: seq<Event>)
    : State
  {
    State(Hub(rows, if client.Closed? then map[] else map[7 := {0}], map[0 := queue]),
          [Publisher(7, "a", first), Publisher(7, "b", second)], [Stream(7, 0, client), Stream(7, 2, Unopened)])
  }

  function Start(): State {
    State(Hub([], map[], map[]), [Publisher(7, "a", Waiting), Publisher(7, "b", Waiting)],
          [Stream(7, 0, Unopened), Stream(7, 2, Unopened)])
  }

  lemma SceneRows()
    ensures Rows([], 7) == [] && Rows([ONE], 7) == [ONE] && Rows([ONE, TWO], 7) == [ONE, TWO]
    ensures Highest([]) == 0 && Highest([ONE]) == 1
  {
    assert [ONE][..0] == [] && [ONE, TWO][..1] == [ONE];
  }

  lemma SceneOpens() returns (steps: seq<Step>)
    ensures Run(Start(), steps) == Some(Scene([], Waiting, Waiting, Live(0, []), []))
  {
    var init := Start();
    var nobody: set<nat> := {};
    assert nobody + {0} == {0};
    assert Listeners(init.hub, 7) == nobody;
    assert Apply(init, Open(0)).hub.subscribers == map[7 := {0}];
    var listening := Scene([], Waiting, Waiting, Listening, []);
    RunOn(init, [], init, Open(0), listening);
    RunOn(init, [] + [Open(0)], listening, Replay(0), Scene([], Waiting, Waiting, Live(0, []), []));
    steps := [] + [Open(0)] + [Replay(0)];
  }

  lemma SceneCommitsFirst(before: seq<Step>) returns (steps: seq<Step>)
    requires Run(Start(), before) == Some(Scene([], Waiting, Waiting, Live(0, []), []))
    ensures Run(Start(), steps) == Some(Scene([ONE], Committed(1), Waiting, Live(0, []), []))
  {
    SceneRows();
    var waiting := Scene([], Waiting, Waiting, Live(0, []), []);
    var numbered := Scene([], Numbered(1), Waiting, Live(0, []), []);
    RunOn(Start(), before, waiting, Number(0), numbered);
    assert [] + [ONE] == [ONE];
    RunOn(Start(), before + [Number(0)], numbered, Commit(0), Scene([ONE], Committed(1), Waiting, Live(0, []), []));
    steps := before + [Number(0)] + [Commit(0)];
  }

  lemma SceneCommitsSecond(before: seq<Step>) returns (steps: seq<Step>)
    requires Run(Start(), before) == Some(Scene([ONE], Committed(1), Waiting, Live(0, []), []))
    ensures Run(Start(), steps) == Some(Scene([ONE, TWO], Committed(1), Committed(2), Live(0, []), []))
  {
    SceneRows();
    var waiting := Scene([ONE], Committed(1), Waiting, Live(0, []), []);
    var numbered := Scene([ONE], Committed(1), Numbered(2), Live(0, []), []);
    RunOn(Start(), before, waiting, Number(1), numbered);
    assert [ONE] + [TWO] == [ONE, TWO];
    assert !Taken(numbered.hub, 7, 2);
    RunOn(Start(), before + [Number(1)], numbered, Commit(1),
          Scene([ONE, TWO], Committed(1), Committed(2), Live(0, []), []));
    steps := before + [Number(1)] + [Commit(1)];
  }

  lemma SceneAnnouncesSecond(before: seq<Step>) returns (steps: seq<Step>)
    requires Run(Start(), before) == Some(Scene([ONE, TWO], Committed(1), Committed(2), Live(0, []), []))
    ensures Run(Start(), steps) == Some(Scene([ONE, TWO], Committed(1), Announced(2), Live(0, []), [TWO]))
  {
    var s := Scene([ONE, TWO], Committed(1), Committed(2), Live(0, []), []);
    assert EventOf(s.publishers[1]) == TWO && 0 in Listeners(s.hub, 7);
    var queues := Broadcasted(s.hub, TWO).queues;
    assert queues[0] == [] + [TWO] == [TWO];
    assert queues.Keys == {0};
    assert queues == map[0 := [TWO]];
    RunOn(Start(), before, s, Announce(1), Scene([ONE, TWO], Committed(1), Announced(2), Live(0, []), [TWO]));
    steps := before + [Announce(1)];
  }

  /** The client goes away, and only then is the first event broadcast: to nobody. */
  lemma SceneAnnouncesFirst(before: seq<Step>)
    requires Run(Start(), before) == Some(Scene([ONE, TWO], Committed(1), Announced(2), Live(0, []), [TWO]))
    ensures Run(Start(), before + [Close(0)] + [Announce(0)])
         == Some(Scene([ONE, TWO], Announced(1), Announced(2), Closed, [TWO]))
  {
    var s := Scene([ONE, TWO], Committed(1), Announced(2), Live(0, []), [TWO]);
    var gone := Scene([ONE, TWO], Committed(1), Announced(2), Closed, [TWO]);
    var nobody: set<nat> := {};
    assert {0} - {0} == nobody;
    assert Unsubscribed(s.hub, 7, 0).subscribers == map[];
    RunOn(Start(), before, s, Close(0), gone);
    assert Broadcasted(gone.hub, ONE).queues == map[0 := [TWO]];
    RunOn(Start(), before + [Close(0)], gone, Announce(0),
          Scene([ONE, TWO], Announced(1), Announced(2), Closed, [TWO]));
  }

  /** The client has received event 2 and nothing else, and would come back with its number. */
  predicate HasOnlySeenTwo(s: State) {
    && |s.streams| == 2 && s.streams[0].phase.Live? && 0 in s.hub.queues
    && Frames(s, 0) == [TWO] && LastId(s.streams[0].after, Frames(s, 0), 1) == s.streams[1].after
  }

  /** Both events are committed, and the next connection of the client never gets the first. */
  ghost predicate WillNeverSeeOne(s: State) {
    && |s.streams| == 2 && s.streams[1].scan == 7 && Rows(s.hub.rows, 7) == [ONE, TWO]
    && Enabled(s, Open(1)) && MissedForGood(s, 1, ONE)
  }

  /** Two publishes of one scan overlap: the second commits and broadcasts while the first is between its
      commit and its broadcast. The client has then received one frame, event 2, and goes away; the first
      publish ends. When the client comes back with id 2, it never gets event 1, which it has not got
      before either. */
  lemma ReconnectCanLoseAnEvent() returns (watching: seq<Step>, away: seq<Step>, before: State, after: State)
    ensures Initial(Start()) && Run(Start(), watching) == Some(before) && HasOnlySeenTwo(before)
    ensures Run(Start(), watching + [Close(0)] + away) == Some(after) && WillNeverSeeOne(after)
  {
    watching := SceneOpens();
    watching := SceneCommitsFirst(watching);
    watching := SceneCommitsSecond(watching);
    watching := SceneAnnouncesSecond(watching);
    before := Scene([ONE, TWO], Committed(1), Announced(2), Live(0, []), [TWO]);
    assert [] + [TWO] == [TWO];
    away := [Announce(0)];
    SceneAnnouncesFirst(watching);
    after := Scene([ONE, TWO], Announced(1), Announced(2), Closed, [TWO]);
    SceneMisses(watching + [Close(0)] + away);
  }

  lemma SceneMisses(gone: seq<Step>)
    requires Run(Start(), gone) == Some(Scene([ONE, TWO], Announced(1), Announced(2), Closed, [TWO]))
    ensures WillNeverSeeOne(Run(Start(), gone).value)
  {
    SceneRows();
    assert Reachable(Run(Start(), gone).value);
    MissedForGoodExactly(Run(Start(), gone).value, 1, 0);
  }
}
