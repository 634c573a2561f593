/** What a crossing says of the detections it was made of, and where each detection's id ends up. */
module Crossings {
  import opened Bytes
  import opened Wrappers
  import opened EventModel
  import opened CrossingProcessors

  // ---- one crossing ----

  /** The detection carries a loop transponder's signal reading of `v` dBm. */
  predicate Reads(d: Detection, v: int) {
    d.sensor.LoopTransponder? && d.sensor.rssiDbm.Some? && d.sensor.rssiDbm.value == v
  }

  /** The reading that counts for the detection: its own, or the weakest there is. */
  predicate Counts(d: Detection, v: int) {
    if d.sensor.LoopTransponder? && d.sensor.rssiDbm.Some? then Reads(d, v) else v == -32768
  }

  /**
   * The peak of a group: if any detection has a reading, the last of those whose reading is the strongest; otherwise
   * the first of the earliest.
   */
  ghost predicate IsPeak(ds: Group, r: nat) {
    && r < |ds|
    && if exists d, v :: d in ds && Reads(d, v) then
         exists v ::
           && Counts(ds[r], v)
           && forall i, w :: 0 <= i < |ds| && Counts(ds[i], w) ==> w <= v && (i > r ==> w < v)
       else
         forall i :: 0 <= i < |ds| ==>
           ds[r].detectedAtNs <= ds[i].detectedAtNs && (i < r ==> ds[r].detectedAtNs < ds[i].detectedAtNs)
  }

  /** `u` is the larger of the peak's own uncertainty and the span of the group; none if there is neither. */
  ghost predicate Covers(ds: Group, own: Option<u64>, u: Option<u64>) {
    match u
    case None => own.None? && forall i, j :: 0 <= i < |ds| && 0 <= j < |ds| ==> ds[i].detectedAtNs == ds[j].detectedAtNs
    case Some(u) =>
      && (forall i, j :: 0 <= i < |ds| && 0 <= j < |ds| ==> ds[i].detectedAtNs - ds[j].detectedAtNs <= u)
      && (own.Some? ==> own.value <= u)
      && (own == Some(u) ||
          exists i, j :: 0 <= i < |ds| && 0 <= j < |ds| && ds[i].detectedAtNs - ds[j].detectedAtNs == u > 0)
  }

  lemma {:induction false} PeakIsPeak(ds: Group)
    ensures IsPeak(ds, PickPeakIndex(ds))
  {
    hide PickPeakIndex;
    var r := PickPeakIndex(ds);
    assert (exists d, v :: d in ds && Reads(d, v)) ==> AnyRssi(ds);
    if AnyRssi(ds) {
      var i :| 0 <= i < |ds| && HasRssi(ds[i]);
      assert ds[i] in ds && Reads(ds[i], ds[i].sensor.rssiDbm.value);
      assert Counts(ds[r], Rssi(ds[r]));
      forall i, w | 0 <= i < |ds| && Counts(ds[i], w)
        ensures w == Rssi(ds[i])
      {
      }
    }
  }

  lemma {:induction false} UncertaintyCovers(ds: Group, own: Option<u64>)
    ensures Covers(ds, own, Uncertainty(own, Span(ds)))
  {
    hide Earliest, Latest;
    var first, last :| 0 <= first < |ds| && ds[first].detectedAtNs == Earliest(ds) && 0 <= last < |ds|
                       && ds[last].detectedAtNs == Latest(ds);
    assert Span(ds) == ds[last].detectedAtNs - ds[first].detectedAtNs;
    forall i, j | 0 <= i < |ds| && 0 <= j < |ds|
      ensures ds[i].detectedAtNs - ds[j].detectedAtNs <= Span(ds)
    {
    }
  }

  /**
   * A crossing has the time, timebase, timestamping method and attestation of its group's peak, the larger of the
   * peak's uncertainty and the group's span, and the ids of the detections in the order they arrived.
   */
  lemma {:induction false} CrossingMeans(ds: Group)
    ensures var c := CrossingOf(ds);
            exists r: nat ::
              && IsPeak(ds, r)
              && c.crossedAtNs == ds[r].detectedAtNs && c.timebaseId == ds[r].timebaseId
              && c.timestampingMethod == ds[r].timestampingMethod && c.sourceAttestation == ds[r].sourceAttestation
              && Covers(ds, ds[r].detectedAtUncertaintyNs, c.crossedAtUncertaintyNs)
    ensures |CrossingOf(ds).detectionIds| == |ds|
    ensures forall i :: 0 <= i < |ds| ==> CrossingOf(ds).detectionIds[i] == ds[i].detectionId
  {
    hide PickPeakIndex, Uncertainty, Span, IsPeak, Covers;
    var r := PickPeakIndex(ds);
    PeakIsPeak(ds);
    UncertaintyCovers(ds, ds[r].detectedAtUncertaintyNs);
  }

  // ---- the groups of a run ----

  /** The detection is of this subject at this timing point. */
  predicate IsOf(d: Detection, point: string, subject: Option<string>) {
    d.timingPointId == point && d.subjectId == subject
  }

  ghost predicate AllOf(ds: seq<Detection>, point: string, subject: Option<string>) {
    forall d :: d in ds ==> IsOf(d, point, subject)
  }

  /** Open groups are filed under their own timing point and subject. */
  ghost predicate FiledRight(pending: Pending) {
    forall k :: k in pending ==> AllOf(pending[k], k.0, Some(k.1))
  }

  /** A group closes on a detection of its own timing point and subject. */
  lemma {:induction false} ClosesOwn(window: nat, pending: Pending, d: Detection)
    requires FiledRight(pending)
    ensures |Closes(window, pending, d)| <= 1
    ensures forall g :: g in Closes(window, pending, d) ==> AllOf(g, d.timingPointId, d.subjectId)
    ensures FiledRight(Opens(window, pending, d))
  {
  }

  /** In every run all detections of a group, closed or open, are of the timing point and subject its crossing names. */
  lemma {:induction false} GroupsAreOfOne(window: nat, ds: seq<Detection>)
    ensures FiledRight(Stream(window, ds).pending)
    ensures forall g :: g in Stream(window, ds).closed ==>
        AllOf(g, CrossingOf(g).timingPointId, CrossingOf(g).subjectId)
    decreases |ds|
  {
    hide Closes, Opens;
    if ds != [] {
      var before, d := ds[..|ds| - 1], ds[|ds| - 1];
      GroupsAreOfOne(window, before);
      ClosesOwn(window, Stream(window, before).pending, d);
      hide Stream;
      forall g | g in Closes(window, Stream(window, before).pending, d)
        ensures AllOf(g, CrossingOf(g).timingPointId, CrossingOf(g).subjectId)
      {
        assert g[0] in g;
      }
    }
  }

  /**
   * A detection joins the open group of its timing point and subject exactly if it is no later than the window after
   * the group's first; one that is earlier than the first joins too. Otherwise that group is closed and it starts
   * another.
   */
  lemma {:induction false} JoinsExactlyWhen(window: nat, pending: Pending, d: Detection, subject: string)
    requires d.subjectId == Some(subject) && (d.timingPointId, subject) in pending
    ensures var k := (d.timingPointId, subject);
            var g := pending[k];
            if d.detectedAtNs <= g[0].detectedAtNs + window then
              Closes(window, pending, d) == [] && Opens(window, pending, d) == pending[k := g + [d]]
            else
              Closes(window, pending, d) == [g] && Opens(window, pending, d) == pending[k := [d]]
  {
  }

  /** With no open group, a detection with a subject starts one; without a subject it is a group of its own at once. */
  lemma {:induction false} StartsExactlyWhen(window: nat, pending: Pending, d: Detection)
    ensures d.subjectId.None? ==> Closes(window, pending, d) == [[d]] && Opens(window, pending, d) == pending
    ensures d.subjectId.Some? && (d.timingPointId, d.subjectId.value) !in pending ==>
              && Closes(window, pending, d) == []
              && Opens(window, pending, d) == pending[(d.timingPointId, d.subjectId.value) := [d]]
  {
  }

  // ---- where the ids end up ----

  /** The ids in the crossings that name this timing point and subject, in order. */
  function IdsIn(cs: seq<CrossingEvent>, point: string, subject: Option<string>): seq<string> {
    if cs == [] then []
    else
      var c := cs[|cs| - 1];
      IdsIn(cs[..|cs| - 1], point, subject)
      + (if c.timingPointId == point && c.subjectId == subject then c.detectionIds else [])
  }

  /** The ids of the detections of this subject at this timing point, in order of arrival. */
  function IdsOf(ds: seq<Detection>, point: string, subject: Option<string>): seq<string> {
    if ds == [] then []
    else
      var d := ds[|ds| - 1];
      IdsOf(ds[..|ds| - 1], point, subject) + (if IsOf(d, point, subject) then [d.detectionId] else [])
  }

  /** The ids still in the open group of this timing point and subject. */
  function OpenIds(pending: Pending, point: string, subject: Option<string>): seq<string> {
    if subject.Some? && (point, subject.value) in pending then CrossingOf(pending[(point, subject.value)]).detectionIds
    else []
  }

  lemma {:induction false} IdsInMore(cs: seq<CrossingEvent>, more: seq<CrossingEvent>, point: string,
                                     subject: Option<string>)
    requires |more| <= 1
    ensures IdsIn(cs + more, point, subject) ==
            IdsIn(cs, point, subject)
            + (if more != [] && more[0].timingPointId == point && more[0].subjectId == subject
               then more[0].detectionIds else [])
  {
    if more == [] {
      assert cs + more == cs;
    } else {
      assert (cs + more)[..|cs|] == cs && (cs + more)[|cs|] == more[0];
    }
  }

  lemma {:induction false} CrossingsMore(a: seq<Group>, b: seq<Group>)
    ensures CrossingsOf(a + b) == CrossingsOf(a) + CrossingsOf(b)
  {
    hide CrossingOf;
  }

  lemma IdsMore(ds: Group, d: Detection)
    ensures Ids(ds + [d]) == Ids(ds) + [d.detectionId]
    ensures CrossingOf(ds).detectionIds == Ids(ds) && CrossingOf([d]).detectionIds == [d.detectionId]
  {
    hide PickPeakIndex, Uncertainty, Span;
  }

  /** One more detection adds its id, to the open group or to a crossing. */
  lemma {:induction false} OneMoreId(window: nat, pending: Pending, d: Detection, point: string,
                                     subject: Option<string>)
    requires FiledRight(pending)
    ensures var done := CrossingsOf(Closes(window, pending, d));
            |done| <= 1
            && (if done != [] && done[0].timingPointId == point && done[0].subjectId == subject
                then done[0].detectionIds else [])
               + OpenIds(Opens(window, pending, d), point, subject)
               == OpenIds(pending, point, subject) + (if IsOf(d, point, subject) then [d.detectionId] else [])
  {
    hide CrossingOf, OutsideWindow;
    ClosesOwn(window, pending, d);
    CrossingNames([d]);
    IdsMore([d], d);
    if d.subjectId.Some? && (d.timingPointId, d.subjectId.value) in pending {
      var g := pending[(d.timingPointId, d.subjectId.value)];
      assert g[0] in g;
      CrossingNames(g);
      IdsMore(g, d);
      IdsMore(g + [d], d);
      assert CrossingOf(g).detectionIds + [d.detectionId] == CrossingOf(g + [d]).detectionIds;
    }
  }

  lemma CrossingNames(g: Group)
    ensures CrossingOf(g).timingPointId == g[0].timingPointId && CrossingOf(g).subjectId == g[0].subjectId
  {
    hide PickPeakIndex, Uncertainty, Span, Ids;
  }

  lemma Regroup<T>(a: seq<T>, x: seq<T>, after: seq<T>, before: seq<T>, y: seq<T>)
    requires x + after == before + y
    ensures (a + x) + after == (a + before) + y
  {
    assert (a + x) + after == a + (x + after) && a + (before + y) == (a + before) + y;
  }

  lemma {:induction false} StreamMore(window: nat, ds: seq<Detection>)
    requires ds != []
    ensures var s, d := Stream(window, ds[..|ds| - 1]), ds[|ds| - 1];
            Stream(window, ds) ==
            Streamed(s.closed + Closes(window, s.pending, d), Opens(window, s.pending, d))
  {
    hide Closes, Opens;
  }

  /**
   * In every run the ids of a subject's detections at a timing point are exactly those in its crossings and its open
   * group: each once, in order of arrival, and in no other crossing.
   */
  lemma {:induction false} EveryIdOnce(window: nat, ds: seq<Detection>, point: string, subject: Option<string>)
    ensures var s := Stream(window, ds);
            IdsIn(CrossingsOf(s.closed), point, subject) + OpenIds(s.pending, point, subject)
            == IdsOf(ds, point, subject)
    decreases |ds|
  {
    if ds != [] {
      hide Closes, Opens, OpenIds, CrossingOf, Stream, IdsIn, CrossingsOf, FiledRight;
      var before, d := ds[..|ds| - 1], ds[|ds| - 1];
      var s := Stream(window, before);
      EveryIdOnce(window, before, point, subject);
      GroupsAreOfOne(window, before);
      StreamMore(window, ds);
      CrossingsMore(s.closed, Closes(window, s.pending, d));
      OneMoreId(window, s.pending, d, point, subject);
      var done := CrossingsOf(Closes(window, s.pending, d));
      IdsInMore(CrossingsOf(s.closed), done, point, subject);
      Regroup(IdsIn(CrossingsOf(s.closed), point, subject),
              if done != [] && done[0].timingPointId == point && done[0].subjectId == subject then done[0].detectionIds
              else [],
              OpenIds(Opens(window, s.pending, d), point, subject), OpenIds(s.pending, point, subject),
              if IsOf(d, point, subject) then [d.detectionId] else []);
    }
  }

  // ---- flushing ----

  /** Of the crossings flush returns, in whatever order of the keys, those of one key have the ids of its open group. */
  lemma {:induction false} FlushedIds(pending: Pending, order: seq<GroupKey>, cs: seq<CrossingEvent>, point: string,
                                      subject: Option<string>)
    requires FiledRight(pending) && |order| == |cs| && multiset(order) <= multiset(pending.Keys)
    requires forall i :: 0 <= i < |order| ==> order[i] in pending && cs[i] == CrossingOf(pending[order[i]])
    ensures IdsIn(cs, point, subject) ==
            if subject.Some? && (point, subject.value) in order then OpenIds(pending, point, subject) else []
    decreases |cs|
  {
    hide CrossingOf, FiledRight;
    if cs != [] {
      var n := |cs| - 1;
      var k := order[n];
      assert order == order[..n] + [k];
      assert multiset(order) == multiset(order[..n]) + multiset{k};
      FlushedIds(pending, order[..n], cs[..n], point, subject);
      OpenNames(pending, k);
      assert multiset(pending.Keys)[k] == 1;
      assert k !in multiset(order[..n]);
    }
  }

  lemma OpenNames(pending: Pending, k: GroupKey)
    requires FiledRight(pending) && k in pending
    ensures CrossingOf(pending[k]).timingPointId == k.0 && CrossingOf(pending[k]).subjectId == Some(k.1)
  {
    hide CrossingOf;
    assert pending[k][0] in pending[k];
    CrossingNames(pending[k]);
  }

  /**
   * A run and a flush: the crossings returned, one by one and by the flush, hold the id of each detection of a subject
   * at a timing point once, in order of arrival, in crossings that name these.
   */
  lemma {:induction false} EveryIdFlushed(window: nat, ds: seq<Detection>, order: seq<GroupKey>,
                                          flushed: seq<CrossingEvent>, point: string, subject: Option<string>)
    requires var pending := Stream(window, ds).pending;
             && multiset(order) == multiset(pending.Keys) && |order| == |flushed|
             && forall i :: 0 <= i < |order| ==> order[i] in pending && flushed[i] == CrossingOf(pending[order[i]])
    ensures IdsIn(CrossingsOf(Stream(window, ds).closed), point, subject) + IdsIn(flushed, point, subject)
         == IdsOf(ds, point, subject)
  {
    hide CrossingOf, Stream, IdsIn, IdsOf, FiledRight;
    var pending := Stream(window, ds).pending;
    GroupsAreOfOne(window, ds);
    FlushedIds(pending, order, flushed, point, subject);
    EveryIdOnce(window, ds, point, subject);
    if subject.Some? {
      assert (point, subject.value) in order <==> (point, subject.value) in multiset(order);
    }
  }
}
