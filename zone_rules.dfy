/** The decisions ZoneService takes for one subzone: which irrigation requests
    are pending, which of them is dispatched, whether the sensors call for an
    automatic request, and how dispatch marks requests executed. */
module ZoneRules {
  import opened Entities

  /** Not executed and requested strictly after `now` minus one day: the
      `ExecutedFalseAndRequestedAtAfter` part of the repository query. */
  predicate IsOpen(r: IrrigationRequest, now: Instant)
  {
    !r.executed && r.requestedAt > now - DAY
  }

  predicate IsPending(r: IrrigationRequest, subZoneId: int, now: Instant)
  {
    r.subZoneId == subZoneId && IsOpen(r, now)
  }

  /** getPendingIrrigationRequests: the pending requests of one subzone, in
      table order. */
  function PendingRequests(rs: seq<IrrigationRequest>, subZoneId: int, now: Instant): (ps: seq<IrrigationRequest>)
    ensures |ps| <= |rs|
    ensures forall r :: r in ps <==> r in rs && IsPending(r, subZoneId, now)
  {
    if rs == [] then []
    else (if IsPending(rs[0], subZoneId, now) then [rs[0]] else []) + PendingRequests(rs[1..], subZoneId, now)
  }

  lemma {:induction false} PendingOfConcat(a: seq<IrrigationRequest>, b: seq<IrrigationRequest>, subZoneId: int, now: Instant)
    ensures PendingRequests(a + b, subZoneId, now) == PendingRequests(a, subZoneId, now) + PendingRequests(b, subZoneId, now)
  {
    if a == [] {
      assert a + b == b;
    } else {
      assert (a + b)[1..] == a[1..] + b;
      PendingOfConcat(a[1..], b, subZoneId, now);
    }
  }

  lemma NoPendingIff(rs: seq<IrrigationRequest>, subZoneId: int, now: Instant)
    ensures PendingRequests(rs, subZoneId, now) == [] <==> forall r :: r in rs ==> !IsPending(r, subZoneId, now)
  {
    var ps := PendingRequests(rs, subZoneId, now);
    if ps != [] {
      assert ps[0] in ps;
    }
  }

  /** The fold behind `stream().max(comparing(requestedAt))`: an element
      replaces the running maximum only when strictly later. */
  function LaterOf(best: IrrigationRequest, rest: seq<IrrigationRequest>): (r: IrrigationRequest)
    ensures r == best || r in rest
    ensures best.requestedAt <= r.requestedAt
    ensures forall p :: p in rest ==> p.requestedAt <= r.requestedAt
    decreases |rest|
  {
    if rest == [] then best
    else LaterOf(if best.requestedAt >= rest[0].requestedAt then best else rest[0], rest[1..])
  }

  /** The latest of the given requests, if any. */
  function LatestRequest(ps: seq<IrrigationRequest>): (r: Option<IrrigationRequest>)
    ensures r.None? <==> ps == []
    ensures r.Some? ==> r.value in ps && forall p :: p in ps ==> p.requestedAt <= r.value.requestedAt
  {
    if ps == [] then None else Some(LaterOf(ps[0], ps[1..]))
  }

  /** The position the running maximum ends at: every request before it
      is strictly earlier. */
  lemma {:induction false} LaterOfPosition(ps: seq<IrrigationRequest>) returns (i: nat)
    requires ps != []
    ensures i < |ps| && ps[i] == LaterOf(ps[0], ps[1..])
    ensures forall j :: 0 <= j < i ==> ps[j].requestedAt < ps[i].requestedAt
    decreases |ps|
  {
    if |ps| == 1 {
      i := 0;
    } else {
      var keep := ps[0].requestedAt >= ps[1].requestedAt;
      var nb := if keep then ps[0] else ps[1];
      var tail := ps[2..];
      var shifted := [nb] + tail;
      assert ps[1..][0] == ps[1] && ps[1..][1..] == tail;
      assert shifted[0] == nb && shifted[1..] == tail;
      var r := LaterOf(nb, tail);
      assert LaterOf(ps[0], ps[1..]) == r;
      var k := LaterOfPosition(shifted);
      assert shifted[k] == r;
      if k == 0 {
        i := if keep then 0 else 1;
      } else {
        i := k + 1;
        EarlierBeforeShifted(ps, shifted, k);
      }
    }
  }

  /** Positions of `ps` and of `shifted`, its first two requests replaced
      by one no earlier than either, correspond one further along. */
  lemma EarlierBeforeShifted(ps: seq<IrrigationRequest>, shifted: seq<IrrigationRequest>, k: int)
    requires |ps| >= 2 && shifted != [] && shifted == [shifted[0]] + ps[2..]
    requires ps[0].requestedAt <= shifted[0].requestedAt && ps[1].requestedAt <= shifted[0].requestedAt
    requires 1 <= k < |shifted|
    requires forall j :: 0 <= j < k ==> shifted[j].requestedAt < shifted[k].requestedAt
    ensures ps[k + 1] == shifted[k]
    ensures forall j :: 0 <= j < k + 1 ==> ps[j].requestedAt < shifted[k].requestedAt
  {
    assert ps[k + 1] == ps[2..][k - 1] == shifted[k];
    forall j | 0 <= j < k + 1
      ensures ps[j].requestedAt < shifted[k].requestedAt
    {
      if j >= 2 {
        assert ps[j] == ps[2..][j - 2] == shifted[j - 1];
      }
    }
  }

  /** On equal request times the earliest one in table order is chosen. */
  lemma LatestIsFirstMaximal(ps: seq<IrrigationRequest>)
    requires ps != []
    ensures exists i :: (0 <= i < |ps| && ps[i] == LatestRequest(ps).value &&
                         forall j :: 0 <= j < i ==> ps[j].requestedAt < ps[i].requestedAt)
  {
    var i := LaterOfPosition(ps);
  }

  /** The latest irrigation start recorded for a subzone, if any. */
  function LastIrrigationStart(hs: seq<IrrigationHistory>, subZoneId: int): (r: Option<Instant>)
    ensures r.None? <==> forall h :: h in hs ==> h.subZoneId != subZoneId
    ensures r.Some? ==> exists h :: h in hs && h.subZoneId == subZoneId && h.startTime == r.value
    ensures r.Some? ==> forall h :: h in hs && h.subZoneId == subZoneId ==> h.startTime <= r.value
  {
    if hs == [] then None
    else
      var rest := LastIrrigationStart(hs[1..], subZoneId);
      if hs[0].subZoneId != subZoneId then rest
      else match rest
        case None => Some(hs[0].startTime)
        case Some(t) => Some(if hs[0].startTime >= t then hs[0].startTime else t)
  }

  /** The latest irrigation of the subzone started after `now` minus one hour. */
  predicate RecentlyIrrigated(hs: seq<IrrigationHistory>, subZoneId: int, now: Instant)
  {
    var last := LastIrrigationStart(hs, subZoneId);
    last.Some? && last.value > now - HOUR
  }

  lemma RecentlyIrrigatedIff(hs: seq<IrrigationHistory>, subZoneId: int, now: Instant)
    ensures RecentlyIrrigated(hs, subZoneId, now) <==>
      exists h :: h in hs && h.subZoneId == subZoneId && h.startTime > now - HOUR
  {
    var last := LastIrrigationStart(hs, subZoneId);
    if last.Some? && last.value > now - HOUR {
      var h :| h in hs && h.subZoneId == subZoneId && h.startTime == last.value;
    }
  }

  /** A null issue flag reads as false. */
  function IssueFlag(flag: Option<bool>): bool
  {
    match flag
    case Some(b) => b
    case None => false
  }

  /** The adaptive rule of sensor ingestion, in the order the service tests it. */
  predicate AutoIrrigationDue(sz: SubZone, subZoneId: int, e: SubzoneData,
                              requests: seq<IrrigationRequest>, history: seq<IrrigationHistory>, now: Instant)
  {
    match sz.plantType
    case None => false
    case Some(plant) =>
      && e.soilMoisturePercent < plant.optimalMoistureMin
      && !e.rainDetected
      && !IssueFlag(sz.hasIrrigationIssue)
      && PendingRequests(requests, subZoneId, now) == []
      && !RecentlyIrrigated(history, subZoneId, now)
  }

  /** The rule holds exactly when all of its conditions hold. */
  lemma AutoIrrigationRule(sz: SubZone, subZoneId: int, e: SubzoneData,
                           requests: seq<IrrigationRequest>, history: seq<IrrigationHistory>, now: Instant)
    ensures AutoIrrigationDue(sz, subZoneId, e, requests, history, now) <==>
      && sz.plantType.Some?
      && e.soilMoisturePercent < sz.plantType.value.optimalMoistureMin
      && !e.rainDetected
      && sz.hasIrrigationIssue != Some(true)
      && (forall r :: r in requests ==> !IsPending(r, subZoneId, now))
      && (forall h :: h in history && h.subZoneId == subZoneId ==> h.startTime <= now - HOUR)
  {
    NoPendingIff(requests, subZoneId, now);
    RecentlyIrrigatedIff(history, subZoneId, now);
  }

  /** The automatic request the rule creates. */
  function AutoRequest(subZoneId: int, sz: SubZone, now: Instant): IrrigationRequest
  {
    IrrigationRequest(subZoneId, now, sz.defaultIrrigationDurationInSeconds, false, Auto)
  }

  /** What dispatch does to one request when the subzones `ids` are planned. */
  function Mark(r: IrrigationRequest, ids: seq<int>, now: Instant): IrrigationRequest
  {
    if r.subZoneId in ids && IsOpen(r, now) then r.(executed := true) else r
  }

  /** Every request pending for one of `ids` becomes executed. */
  function MarkExecuted(rs: seq<IrrigationRequest>, ids: seq<int>, now: Instant): (ms: seq<IrrigationRequest>)
    ensures |ms| == |rs|
    ensures forall k :: 0 <= k < |rs| ==> ms[k].(executed := rs[k].executed) == rs[k]
    ensures forall k :: 0 <= k < |rs| ==>
      (ms[k].executed <==> rs[k].executed || (IsPending(rs[k], rs[k].subZoneId, now) && rs[k].subZoneId in ids))
  {
    seq(|rs|, k requires 0 <= k < |rs| => Mark(rs[k], ids, now))
  }

  lemma MarkExecutedTwice(rs: seq<IrrigationRequest>, a: seq<int>, b: seq<int>, now: Instant)
    ensures MarkExecuted(MarkExecuted(rs, a, now), b, now) == MarkExecuted(rs, a + b, now)
  {
    var lhs := MarkExecuted(MarkExecuted(rs, a, now), b, now);
    var rhs := MarkExecuted(rs, a + b, now);
    assert forall k :: 0 <= k < |rs| ==> lhs[k] == rhs[k];
  }

  /** Marking other subzones leaves a subzone's pending requests as they were. */
  lemma {:induction false} PendingUnaffected(rs: seq<IrrigationRequest>, ids: seq<int>, subZoneId: int, now: Instant)
    requires subZoneId !in ids
    ensures PendingRequests(MarkExecuted(rs, ids, now), subZoneId, now) == PendingRequests(rs, subZoneId, now)
  {
    if rs != [] {
      var ms := MarkExecuted(rs, ids, now);
      assert ms[1..] == MarkExecuted(rs[1..], ids, now);
      assert IsPending(ms[0], subZoneId, now) <==> IsPending(rs[0], subZoneId, now);
      PendingUnaffected(rs[1..], ids, subZoneId, now);
    }
  }

  /** After marking, a marked subzone has nothing pending, then or later. */
  lemma NothingPendingAfterMark(rs: seq<IrrigationRequest>, ids: seq<int>, subZoneId: int, now: Instant, later: Instant)
    requires subZoneId in ids
    requires now <= later
    ensures PendingRequests(MarkExecuted(rs, ids, now), subZoneId, later) == []
  {
    var ms := MarkExecuted(rs, ids, now);
    forall r | r in ms
      ensures !IsPending(r, subZoneId, later)
    {
      var k :| 0 <= k < |ms| && ms[k] == r;
      assert r == Mark(rs[k], ids, now);
    }
    NoPendingIff(ms, subZoneId, later);
  }

  /** The duration dispatched to a subzone: that of its latest pending
      request, or 0 when it has none. */
  function PlannedDuration(rs: seq<IrrigationRequest>, subZoneId: int, now: Instant): int
  {
    match LatestRequest(PendingRequests(rs, subZoneId, now))
    case None => 0
    case Some(r) => r.durationSeconds
  }

  lemma PlannedDurationIsLatestPending(rs: seq<IrrigationRequest>, subZoneId: int, now: Instant)
    ensures (forall r :: r in rs ==> !IsPending(r, subZoneId, now)) ==> PlannedDuration(rs, subZoneId, now) == 0
    ensures (exists r :: r in rs && IsPending(r, subZoneId, now)) ==>
      exists p :: p in rs && IsPending(p, subZoneId, now)
        && PlannedDuration(rs, subZoneId, now) == p.durationSeconds
        && forall q :: q in rs && IsPending(q, subZoneId, now) ==> q.requestedAt <= p.requestedAt
  {
    NoPendingIff(rs, subZoneId, now);
  }

  /** The history row dispatch writes for a subzone: none without a pending
      request, otherwise one starting now with the planned duration and the
      origin of the latest pending request. */
  function HistoryRow(rs: seq<IrrigationRequest>, subZoneId: int, now: Instant): (h: Option<IrrigationHistory>)
    ensures h.None? <==> PendingRequests(rs, subZoneId, now) == []
    ensures h.Some? ==>
      && h.value.subZoneId == subZoneId
      && h.value.startTime == now
      && h.value.durationSeconds == PlannedDuration(rs, subZoneId, now)
      && h.value.triggeredBy == LatestRequest(PendingRequests(rs, subZoneId, now)).value.triggeredBy
  {
    match LatestRequest(PendingRequests(rs, subZoneId, now))
    case None => None
    case Some(r) => Some(IrrigationHistory(subZoneId, now, r.durationSeconds, r.triggeredBy))
  }

  /** The history rows dispatch writes for the subzones `ids`, in order:
      each is the row of a listed subzone, one per subzone. */
  function HistoryRows(rs: seq<IrrigationRequest>, ids: seq<int>, now: Instant): (hs: seq<IrrigationHistory>)
    ensures |hs| <= |ids|
    ensures forall h :: h in hs ==> h.subZoneId in ids && HistoryRow(rs, h.subZoneId, now) == Some(h)
    ensures (forall i, j :: 0 <= i < j < |ids| ==> ids[i] != ids[j]) ==>
      forall i, j :: 0 <= i < j < |hs| ==> hs[i].subZoneId != hs[j].subZoneId
  {
    if ids == [] then []
    else
      var last := ids[|ids| - 1];
      var init := ids[..|ids| - 1];
      assert forall s :: s in init ==> s in ids;
      assert (forall i, j :: 0 <= i < j < |ids| ==> ids[i] != ids[j]) ==>
        (forall i, j :: 0 <= i < j < |init| ==> init[i] != init[j]) && last !in init;
      HistoryRows(rs, init, now) + match HistoryRow(rs, last, now) case None => [] case Some(h) => [h]
  }

  /** The rows follow the order of the subzones: one more subzone adds its
      row, if any, after all the others. */
  lemma HistoryRowsSnoc(rs: seq<IrrigationRequest>, ids: seq<int>, s: int, now: Instant)
    ensures HistoryRows(rs, ids + [s], now) ==
      HistoryRows(rs, ids, now) + match HistoryRow(rs, s, now) case None => [] case Some(h) => [h]
  {
    assert (ids + [s])[..|ids|] == ids;
  }

  lemma {:induction false} HistoryRowForEachPending(rs: seq<IrrigationRequest>, ids: seq<int>, subZoneId: int, now: Instant)
    requires subZoneId in ids
    requires PendingRequests(rs, subZoneId, now) != []
    ensures exists h :: h in HistoryRows(rs, ids, now) && h.subZoneId == subZoneId
  {
    var last := ids[|ids| - 1];
    if last == subZoneId {
      var h := HistoryRow(rs, last, now).value;
      assert h in HistoryRows(rs, ids, now);
    } else {
      assert ids == ids[..|ids| - 1] + [last];
      HistoryRowForEachPending(rs, ids[..|ids| - 1], subZoneId, now);
    }
  }
}
