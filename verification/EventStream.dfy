/** Publishers and streams over one event table. Publishing takes three steps with awaits between them:
    read the next number, commit the row, put the event on the live queues. A stream subscribes first and
    reads its replay afterwards. Every interleaving of steps is a run. */
module EventStream {
  import opened Wrappers
  import opened Events

  datatype PublishPhase =
    | Waiting
    | Numbered(sequence: nat)
    | Committed(sequence: nat)
    | Announced(sequence: nat)
    | Dropped(sequence: nat)   // cancelled between commit and broadcast
    | Failed                   // refused by the unique constraint, or cancelled before the commit

  datatype Publisher = Publisher(scan: ScanId, payload: string, phase: PublishPhase)

  datatype StreamPhase = Unopened | Listening | Live(seen: nat, replay: seq<Event>) | Closed

  /** A stream of `scan` opened with last event id `after`; its index is the id of its queue. `seen` is the
      number of rows its replay query found in the table for that scan. */
  datatype Stream = Stream(scan: ScanId, after: nat, phase: StreamPhase)

  datatype State = State(hub: Hub, publishers: seq<Publisher>, streams: seq<Stream>)

  datatype Step =
    | Number(p: nat)
    | Commit(p: nat)
    | Announce(p: nat)
    | Drop(p: nat)
    | Open(i: nat)
    | Replay(i: nat)
    | Close(i: nat)

  function EventOf(p: Publisher): Event
    requires p.phase.Numbered? || p.phase.Committed? || p.phase.Announced? || p.phase.Dropped?
  {
    Event(p.scan, p.phase.sequence, p.payload)
  }

  predicate Enabled(s: State, step: Step) {
    match step
    case Number(p) => p < |s.publishers| && s.publishers[p].phase.Waiting?
    case Commit(p) => p < |s.publishers| && s.publishers[p].phase.Numbered?
    case Announce(p) => p < |s.publishers| && s.publishers[p].phase.Committed?
    case Drop(p) => p < |s.publishers| &&
                    var phase := s.publishers[p].phase;
                    phase.Waiting? || phase.Numbered? || phase.Committed?
    case Open(i) => i < |s.streams| && s.streams[i].phase.Unopened?
    case Replay(i) => i < |s.streams| && s.streams[i].phase.Listening?
    case Close(i) => i < |s.streams| && (s.streams[i].phase.Listening? || s.streams[i].phase.Live?)
  }

  function Published(s: State, p: nat, phase: PublishPhase): seq<Publisher>
    requires p < |s.publishers|
  {
    s.publishers[p := s.publishers[p].(phase := phase)]
  }

  function Streamed(s: State, i: nat, phase: StreamPhase): seq<Stream>
    requires i < |s.streams|
  {
    s.streams[i := s.streams[i].(phase := phase)]
  }

  function Apply(s: State, step: Step): State
    requires Enabled(s, step)
  {
    match step
    case Number(p) => s.(publishers := Published(s, p, Numbered(NextSequence(s.hub, s.publishers[p].scan))))
    case Commit(p) =>
      var e := EventOf(s.publishers[p]);
      if Taken(s.hub, e.scan, e.sequence) then s.(publishers := Published(s, p, Failed))
      else s.(hub := Inserted(s.hub, e), publishers := Published(s, p, Committed(e.sequence)))
    case Announce(p) =>
      var e := EventOf(s.publishers[p]);
      s.(hub := Broadcasted(s.hub, e), publishers := Published(s, p, Announced(e.sequence)))
    case Drop(p) =>
      var phase := s.publishers[p].phase;
      s.(publishers := Published(s, p, if phase.Committed? then Dropped(phase.sequence) else Failed))
    case Open(i) =>
      s.(hub := Subscribed(s.hub, s.streams[i].scan, i), streams := Streamed(s, i, Listening))
    case Replay(i) =>
      var t := s.streams[i];
      s.(streams := Streamed(s, i, Live(|Rows(s.hub.rows, t.scan)|, Since(s.hub, t.scan, t.after))))
    case Close(i) =>
      s.(hub := Unsubscribed(s.hub, s.streams[i].scan, i), streams := Streamed(s, i, Closed))
  }

  function Run(s: State, steps: seq<Step>): Option<State> {
    if steps == [] then Some(s) else
    match Run(s, steps[..|steps| - 1])
    case None => None
    case Some(before) =>
      if Enabled(before, steps[|steps| - 1]) then Some(Apply(before, steps[|steps| - 1])) else None
  }

  /** Any stored history, nobody listening, any number of publishes and streams to come. */
  ghost predicate Initial(s: State) {
    && (forall scan :: Consecutive(Rows(s.hub.rows, scan)))
    && s.hub.subscribers == map[] && s.hub.queues == map[]
    && (forall p | 0 <= p < |s.publishers| :: s.publishers[p].phase.Waiting?)
    && (forall i | 0 <= i < |s.streams| :: s.streams[i].phase.Unopened?)
  }

  // ---- one publish ----

  /** Of two publishes with the same number, the first to commit is stored and the other fails. */
  lemma PublishRaceHasOneWinner(s: State, p: nat, q: nat)
    requires p != q && Enabled(s, Commit(p)) && Enabled(s, Commit(q))
    requires s.publishers[p].scan == s.publishers[q].scan
    requires s.publishers[p].phase == s.publishers[q].phase
    requires !Taken(s.hub, s.publishers[p].scan, s.publishers[p].phase.sequence)
    ensures Enabled(Apply(s, Commit(p)), Commit(q))
    ensures var t, e := Apply(Apply(s, Commit(p)), Commit(q)), EventOf(s.publishers[p]);
            && t.hub == Inserted(s.hub, e)
            && |t.publishers| == |s.publishers|
            && t.publishers[p].phase == Committed(e.sequence) && t.publishers[q].phase == Failed
  {
    var e := EventOf(s.publishers[p]);
    assert Inserted(s.hub, e).rows[|s.hub.rows|] == e;
  }

  /** A publish that was cancelled, or has failed or been broadcast, takes no further step. */
  lemma OverIsOver(s: State, p: nat, step: Step)
    requires p < |s.publishers| && Enabled(s, step)
    requires s.publishers[p].phase.Failed? || s.publishers[p].phase.Dropped? || s.publishers[p].phase.Announced?
    ensures |Apply(s, step).publishers| == |s.publishers| && Apply(s, step).publishers[p] == s.publishers[p]
  {
  }

  /** A cancel ends a publish at once: before its commit nothing of it is stored, after it the event stays. */
  lemma CancelEndsPublish(s: State, p: nat)
    requires Enabled(s, Drop(p))
    ensures Apply(s, Drop(p)).hub == s.hub && |Apply(s, Drop(p)).publishers| == |s.publishers|
    ensures var phase := s.publishers[p].phase;
            Apply(s, Drop(p)).publishers[p].phase == if phase.Committed? then Dropped(phase.sequence) else Failed
  {
  }

  // ---- the table ----

  /** Publisher `p` has committed row number `k` of the scan. */
  predicate Owns(s: State, p: int, scan: ScanId, k: int) {
    && 0 <= p < |s.publishers| && s.publishers[p].scan == scan
    && var phase := s.publishers[p].phase;
    && (phase.Committed? || phase.Announced? || phase.Dropped?) && phase.sequence == k
  }

  predicate NumberFits(s: State, p: int) {
    0 <= p < |s.publishers| && s.publishers[p].phase.Numbered? ==>
      1 <= s.publishers[p].phase.sequence <= |Rows(s.hub.rows, s.publishers[p].scan)| + 1
  }

  predicate RowFits(s: State, p: int, scan: ScanId, k: int) {
    Owns(s, p, scan, k) ==>
      1 <= k <= |Rows(s.hub.rows, scan)| && Rows(s.hub.rows, scan)[k - 1] == EventOf(s.publishers[p])
  }

  ghost predicate TableKept(s: State) {
    && (forall scan :: Consecutive(Rows(s.hub.rows, scan)))
    && (forall p :: NumberFits(s, p))
    && (forall p, scan, k :: RowFits(s, p, scan, k))
    && (forall p, q, scan, k | Owns(s, p, scan, k) && Owns(s, q, scan, k) :: p == q)
  }

  /** A commit that the unique constraint lets through has the next number. */
  lemma CommitIsNext(s: State, p: nat)
    requires TableKept(s) && Enabled(s, Commit(p))
    requires !Taken(s.hub, s.publishers[p].scan, s.publishers[p].phase.sequence)
    ensures s.publishers[p].phase.sequence == |Rows(s.hub.rows, s.publishers[p].scan)| + 1
  {
    assert NumberFits(s, p);
    TakenIsInRange(s.hub, s.publishers[p].scan, s.publishers[p].phase.sequence);
  }

  lemma InsertKeepsTable(s: State, after: State, p: nat)
    requires TableKept(s) && Enabled(s, Commit(p))
    requires var e := EventOf(s.publishers[p]);
             && e.sequence == |Rows(s.hub.rows, e.scan)| + 1
             && after.hub.rows == s.hub.rows + [e]
             && after.publishers == Published(s, p, Committed(e.sequence))
    ensures TableKept(after)
  {
    var e := EventOf(s.publishers[p]);
    forall scan
      ensures Rows(after.hub.rows, scan) == Rows(s.hub.rows, scan) + if e.scan == scan then [e] else []
      ensures Consecutive(Rows(after.hub.rows, scan))
    {
      assert Consecutive(Rows(s.hub.rows, scan));
    }
    forall q
      ensures NumberFits(after, q)
    {
      assert NumberFits(s, q);
    }
    forall q, scan, k
      ensures RowFits(after, q, scan, k)
      ensures Owns(after, q, scan, k) ==> if q == p then scan == e.scan && k == e.sequence else Owns(s, q, scan, k)
      ensures Owns(s, q, scan, k) ==> k < |Rows(s.hub.rows, scan)| + 1
    {
      assert RowFits(s, q, scan, k);
    }
  }

  lemma OtherStepKeepsTable(s: State, after: State)
    requires TableKept(s) && after.hub.rows == s.hub.rows && |after.publishers| == |s.publishers|
    requires forall q | 0 <= q < |s.publishers| ::
               && after.publishers[q].scan == s.publishers[q].scan
               && after.publishers[q].payload == s.publishers[q].payload
               && NumberFits(after, q)
               && (forall scan, k :: Owns(after, q, scan, k) ==> Owns(s, q, scan, k))
    ensures TableKept(after)
  {
    forall q, scan, k
      ensures RowFits(after, q, scan, k)
      ensures Owns(after, q, scan, k) ==> Owns(s, q, scan, k)
    {
      assert RowFits(s, q, scan, k);
      if Owns(after, q, scan, k) {
        assert Owns(s, q, scan, k);
      }
    }
  }

  lemma StepKeepsTable(s: State, step: Step)
    requires TableKept(s) && Enabled(s, step)
    ensures TableKept(Apply(s, step))
  {
    var after := Apply(s, step);
    if step.Commit? && !Taken(s.hub, s.publishers[step.p].scan, s.publishers[step.p].phase.sequence) {
      CommitIsNext(s, step.p);
      InsertKeepsTable(s, after, step.p);
    } else {
      forall q | 0 <= q < |s.publishers|
        ensures && after.publishers[q].scan == s.publishers[q].scan
                && after.publishers[q].payload == s.publishers[q].payload
                && NumberFits(after, q)
                && (forall scan, k :: Owns(after, q, scan, k) ==> Owns(s, q, scan, k))
      {
        assert NumberFits(s, q);
        HighestIsLength(Rows(s.hub.rows, s.publishers[q].scan));
      }
      OtherStepKeepsTable(s, after);
    }
  }

  /** Under every interleaving the committed rows of every scan are numbered exactly 1..n. */
  lemma {:induction false} NumbersAreConsecutive(init: State, steps: seq<Step>)
    requires Initial(init) && Run(init, steps).Some?
    ensures TableKept(Run(init, steps).value)
  {
    if steps != [] {
      NumbersAreConsecutive(init, steps[..|steps| - 1]);
      StepKeepsTable(Run(init, steps[..|steps| - 1]).value, steps[|steps| - 1]);
    }
  }
}
