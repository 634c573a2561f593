/** Groups detections of one subject at one timing point into crossings. */
module CrossingProcessors {
  import opened Bytes
  import opened Wrappers
  import opened EventModel
  import opened EventLogPort

  /** (timing point, subject). */
  type GroupKey = (string, string)

  type Group = ds: seq<Detection> | ds != [] witness [
    Detection("", "", "", None, 0, None, None, AdapterReceiveTime, "", RuntimeDiscovered, 0, BeamBreak)]

  function KeyOf(d: Detection): Option<GroupKey> {
    match d.subjectId
    case None => None
    case Some(subject) => Some((d.timingPointId, subject))
  }

  // ---- one group to one crossing ----

  predicate HasRssi(d: Detection) {
    d.sensor.LoopTransponder? && d.sensor.rssiDbm.Some?
  }

  /** Signal strength for comparison: a missing reading is the weakest. */
  function Rssi(d: Detection): i16 {
    if HasRssi(d) then d.sensor.rssiDbm.value else I16_MIN
  }

  function Earliest(ds: Group): (t: u64)
    ensures exists i :: 0 <= i < |ds| && ds[i].detectedAtNs == t
    ensures forall i :: 0 <= i < |ds| ==> t <= ds[i].detectedAtNs
  {
    if |ds| == 1 then ds[0].detectedAtNs
    else
      var t := Earliest(ds[1..]);
      if ds[0].detectedAtNs < t then ds[0].detectedAtNs else t
  }

  function Latest(ds: Group): (t: u64)
    ensures exists i :: 0 <= i < |ds| && ds[i].detectedAtNs == t
    ensures forall i :: 0 <= i < |ds| ==> ds[i].detectedAtNs <= t
  {
    if |ds| == 1 then ds[0].detectedAtNs
    else
      var t := Latest(ds[1..]);
      if ds[0].detectedAtNs > t then ds[0].detectedAtNs else t
  }

  /** Index of the strongest detection; among equals the last. */
  function LastStrongest(ds: Group): (r: nat)
    ensures r < |ds|
    ensures forall i :: 0 <= i < |ds| ==> Rssi(ds[i]) <= Rssi(ds[r])
    ensures forall i :: r < i < |ds| ==> Rssi(ds[i]) < Rssi(ds[r])
  {
    if |ds| == 1 then 0
    else
      var r := LastStrongest(ds[1..]) + 1;
      if Rssi(ds[0]) > Rssi(ds[r]) then 0 else r
  }

  /** Index of the earliest timestamp; among equals the first. */
  function FirstEarliest(ds: Group): (r: nat)
    ensures r < |ds|
    ensures forall i :: 0 <= i < |ds| ==> ds[r].detectedAtNs <= ds[i].detectedAtNs
    ensures forall i :: 0 <= i < r ==> ds[r].detectedAtNs < ds[i].detectedAtNs
  {
    if |ds| == 1 then 0
    else
      var r := FirstEarliest(ds[1..]) + 1;
      if ds[0].detectedAtNs <= ds[r].detectedAtNs then 0 else r
  }

  predicate AnyRssi(ds: Group) {
    exists i :: 0 <= i < |ds| && HasRssi(ds[i])
  }

  /** With any signal reading the last strongest detection is the peak, otherwise the first earliest. */
  function PickPeakIndex(ds: Group): (r: nat)
    ensures r < |ds|
    ensures AnyRssi(ds) ==> forall i ::
        0 <= i < |ds| ==> Rssi(ds[i]) <= Rssi(ds[r]) && (i > r ==> Rssi(ds[i]) < Rssi(ds[r]))
    ensures !AnyRssi(ds) ==> forall i :: 0 <= i < |ds| ==>
              ds[r].detectedAtNs <= ds[i].detectedAtNs && (i < r ==> ds[r].detectedAtNs < ds[i].detectedAtNs)
  {
    if AnyRssi(ds) then LastStrongest(ds) else FirstEarliest(ds)
  }

  /** A detection without a reading is the peak only when every reading is the weakest possible. */
  lemma PeakHasReading(ds: Group)
    requires AnyRssi(ds) && !HasRssi(ds[PickPeakIndex(ds)])
    ensures forall i :: 0 <= i < |ds| && HasRssi(ds[i]) ==>
        ds[i].sensor.rssiDbm == Some(I16_MIN) && i < PickPeakIndex(ds)
  {
    hide PickPeakIndex;
    var r := PickPeakIndex(ds);
    forall i | 0 <= i < |ds| && HasRssi(ds[i])
      ensures ds[i].sensor.rssiDbm == Some(I16_MIN) && i < r
    {
      assert Rssi(ds[i]) <= Rssi(ds[r]);
    }
  }

  function Span(ds: Group): nat {
    SaturatingSub(Latest(ds), Earliest(ds))
  }

  function Uncertainty(peak: Option<u64>, span: u64): Option<u64> {
    match peak
    case Some(u) => Some(if span > 0 && span > u then span else u)
    case None => if span > 0 then Some(span) else None
  }

  function Ids(ds: seq<Detection>): (ids: seq<string>)
    ensures |ids| == |ds| && forall i :: 0 <= i < |ds| ==> ids[i] == ds[i].detectionId
  {
    seq(|ds|, i requires 0 <= i < |ds| => ds[i].detectionId)
  }

  /** The crossing a completed group becomes. */
  function CrossingOf(ds: Group): CrossingEvent {
    var peak := ds[PickPeakIndex(ds)];
    CrossingEvent(ds[0].timingPointId, ds[0].subjectId, peak.detectedAtNs,
                  Uncertainty(peak.detectedAtUncertaintyNs, Span(ds)),
                  peak.timebaseId, peak.timestampingMethod, peak.sourceAttestation, Ids(ds))
  }

  function CrossingsOf(groups: seq<Group>): (cs: seq<CrossingEvent>)
    ensures |cs| == |groups| && forall i :: 0 <= i < |cs| ==> cs[i] == CrossingOf(groups[i])
  {
    seq(|groups|, i requires 0 <= i < |groups| => CrossingOf(groups[i]))
  }

  /**
   * Every contributing timestamp lies within crossedAt plus or minus the uncertainty; with none given they are all
   * equal.
   */
  lemma UncertaintyIsSound(ds: Group, i: nat)
    requires i < |ds|
    ensures var c := CrossingOf(ds);
            match c.crossedAtUncertaintyNs
            case Some(u) => c.crossedAtNs - u <= ds[i].detectedAtNs <= c.crossedAtNs + u
            case None => ds[i].detectedAtNs == c.crossedAtNs
  {
    hide PickPeakIndex, Earliest, Latest, Ids;
    var p := PickPeakIndex(ds);
    assert Earliest(ds) <= ds[i].detectedAtNs <= Latest(ds);
    assert Earliest(ds) <= ds[p].detectedAtNs <= Latest(ds);
  }

  /** The reported uncertainty is never below the peak detection's own. */
  lemma UncertaintyCoversPeak(ds: Group)
    ensures var own := ds[PickPeakIndex(ds)].detectedAtUncertaintyNs;
            own.Some? ==>
              CrossingOf(ds).crossedAtUncertaintyNs.Some? && own.value <= CrossingOf(ds).crossedAtUncertaintyNs.value
  {
    hide PickPeakIndex, Earliest, Latest, Ids;
  }

  // ---- the streaming processor ----

  type Pending = map<GroupKey, Group>

  /** A detection is outside a group's window when it is later than the group's first by more than the window. */
  predicate OutsideWindow(window: nat, first: Detection, d: Detection) {
    SaturatingSub(d.detectedAtNs, first.detectedAtNs) > window
  }

  /** The groups a detection completes. */
  function Closes(window: nat, pending: Pending, d: Detection): seq<Group> {
    match KeyOf(d)
    case None => [[d]]
    case Some(k) => if k in pending && OutsideWindow(window, pending[k][0], d) then [pending[k]] else []
  }

  /** The groups still open after a detection. */
  function Opens(window: nat, pending: Pending, d: Detection): Pending {
    match KeyOf(d)
    case None => pending
    case Some(k) =>
      if k in pending && !OutsideWindow(window, pending[k][0], d) then pending[k := pending[k] + [d]]
      else pending[k := [d]]
  }

  class CrossingProcessor {
    const groupingWindowNs: u64
    var pending: Pending

    constructor (groupingWindowNs: u64)
      ensures pending == map[] && this.groupingWindowNs == groupingWindowNs
    {
      this.groupingWindowNs := groupingWindowNs;
      pending := map[];
    }

    method PeekDetection(det: Detection) returns (crossings: seq<CrossingEvent>)
      ensures crossings == CrossingsOf(Closes(groupingWindowNs, pending, det))
    {
      hide CrossingOf;
      if det.subjectId.None? {
        return [CrossingOf([det])];
      }
      var key := (det.timingPointId, det.subjectId.value);
      var outsideWindow := key in pending
        && SaturatingSub(det.detectedAtNs, pending[key][0].detectedAtNs) > groupingWindowNs;
      if outsideWindow {
        return [CrossingOf(pending[key])];
      }
      return [];
    }

    method CommitDetection(det: Detection) returns (crossings: seq<CrossingEvent>)
      modifies this
      ensures crossings == CrossingsOf(Closes(groupingWindowNs, old(pending), det))
      ensures pending == Opens(groupingWindowNs, old(pending), det)
    {
      hide CrossingOf;
      if det.subjectId.None? {
        return [CrossingOf([det])];
      }
      var key := (det.timingPointId, det.subjectId.value);
      var outsideWindow := key in pending
        && SaturatingSub(det.detectedAtNs, pending[key][0].detectedAtNs) > groupingWindowNs;
      crossings := [];
      if outsideWindow {
        var oldGroup := pending[key];
        pending := pending - {key};
        crossings := crossings + [CrossingOf(oldGroup)];
        assert pending[key := [det]] == old(pending)[key := [det]];
        assert [] + [det] == [det];
      }
      pending := pending[key := (if key in pending then pending[key] else []) + [det]];
    }

    /** Every pending group becomes exactly one crossing, in some order of the keys, and nothing stays pending. */
    method Flush() returns (crossings: seq<CrossingEvent>, ghost order: seq<GroupKey>)
      modifies this
      ensures pending == map[]
      ensures multiset(order) == multiset(old(pending).Keys)
      ensures |order| == |crossings|
      ensures forall i :: 0 <= i < |order| ==>
          order[i] in old(pending) && crossings[i] == CrossingOf(old(pending)[order[i]])
    {
      crossings, order := DrainGroups(pending);
      pending := map[];
    }
  }

  /** Take the groups out of the map one by one, in no particular order. */
  method DrainGroups(pending: Pending) returns (crossings: seq<CrossingEvent>, ghost order: seq<GroupKey>)
    ensures multiset(order) == multiset(pending.Keys)
    ensures |order| == |crossings|
    ensures forall i :: 0 <= i < |order| ==> order[i] in pending && crossings[i] == CrossingOf(pending[order[i]])
  {
    hide CrossingOf;
    crossings, order := [], [];
    var left := pending.Keys;
    while left != {}
      invariant left <= pending.Keys && |order| == |crossings|
      invariant multiset(order) + multiset(left) == multiset(pending.Keys)
      invariant forall i :: 0 <= i < |order| ==> order[i] in pending && crossings[i] == CrossingOf(pending[order[i]])
      decreases left
    {
      var key :| key in left;
      crossings := crossings + [CrossingOf(pending[key])];
      order := order + [key];
      left := left - {key};
    }
  }

  // ---- streaming against batch ----

  /** The detections of one key, in arrival order; None stands for the anonymous ones. */
  function Filter(ds: seq<Detection>, k: Option<GroupKey>): seq<Detection> {
    if ds == [] then []
    else
      var d := ds[|ds| - 1];
      Filter(ds[..|ds| - 1], k) + (if KeyOf(d) == k then [d] else [])
  }

  /** How many detections at the front fall in the window of the first. */
  function WindowLength(window: nat, ds: Group): (n: nat)
    ensures 1 <= n <= |ds|
    ensures forall i :: 1 <= i < n ==> !OutsideWindow(window, ds[0], ds[i])
    ensures n < |ds| ==> OutsideWindow(window, ds[0], ds[n])
  {
    WindowFrom(window, ds, 1)
  }

  function WindowFrom(window: nat, ds: Group, n: nat): (r: nat)
    requires 1 <= n <= |ds|
    ensures n <= r <= |ds|
    ensures forall i :: n <= i < r ==> !OutsideWindow(window, ds[0], ds[i])
    ensures r < |ds| ==> OutsideWindow(window, ds[0], ds[r])
    decreases |ds| - n
  {
    if n < |ds| && !OutsideWindow(window, ds[0], ds[n]) then WindowFrom(window, ds, n + 1) else n
  }

  /** The batch definition: cut one key's detections, from the front, into the longest windows. */
  function Partition(window: nat, ds: seq<Detection>): (groups: seq<Group>)
    ensures ds == [] <==> groups == []
    decreases |ds|
  {
    if ds == [] then [] else
      var n := WindowLength(window, ds);
      [ds[..n]] + Partition(window, ds[n..])
  }

  /** All detections of the groups, group by group. */
  function Members(groups: seq<Group>): seq<Detection> {
    if groups == [] then [] else groups[0] + Members(groups[1..])
  }

  /** The batch groups lose nothing, add nothing and keep arrival order. */
  lemma {:induction false} PartitionMembers(window: nat, ds: seq<Detection>)
    ensures Members(Partition(window, ds)) == ds
    decreases |ds|
  {
    hide WindowLength, OutsideWindow;
    if ds != [] {
      var n := WindowLength(window, ds);
      PartitionMembers(window, ds[n..]);
      assert Partition(window, ds)[1..] == Partition(window, ds[n..]);
      assert ds == ds[..n] + ds[n..];
    }
  }

  lemma WindowLengthUnique(window: nat, ds: Group, n: nat)
    requires 1 <= n <= |ds|
    requires forall i :: 1 <= i < n ==> !OutsideWindow(window, ds[0], ds[i])
    requires n < |ds| ==> OutsideWindow(window, ds[0], ds[n])
    ensures WindowLength(window, ds) == n
  {
  }

  /** The window rule determines the cut. */
  lemma PartitionCut(window: nat, ds: Group, n: nat)
    requires 1 <= n <= |ds|
    requires forall i :: 1 <= i < n ==> !OutsideWindow(window, ds[0], ds[i])
    requires n < |ds| ==> OutsideWindow(window, ds[0], ds[n])
    ensures Partition(window, ds) == [ds[..n]] + Partition(window, ds[n..])
  {
    hide WindowLength;
    WindowLengthUnique(window, ds, n);
  }

  lemma PartitionOfWindow(window: nat, ds: Group)
    requires forall i :: 1 <= i < |ds| ==> !OutsideWindow(window, ds[0], ds[i])
    ensures Partition(window, ds) == [ds]
  {
    PartitionCut(window, ds, |ds|);
    assert ds[..|ds|] == ds && ds[|ds|..] == [];
  }

  /** How one more detection changes a batch partition: it joins the last group or starts a new one. */
  function Extend(window: nat, parts: seq<Group>, d: Detection): seq<Group> {
    if parts != [] && !OutsideWindow(window, parts[|parts| - 1][0], d)
    then parts[..|parts| - 1] + [parts[|parts| - 1] + [d]]
    else parts + [[d]]
  }

  lemma ExtendTail(window: nat, g: Group, rest: seq<Group>, d: Detection)
    requires rest != []
    ensures Extend(window, [g] + rest, d) == [g] + Extend(window, rest, d)
  {
  }

  lemma ExtendLast(window: nat, g: Group, d: Detection)
    ensures Extend(window, [g], d) == if OutsideWindow(window, g[0], d) then [g] + [[d]] else [g + [d]]
  {
    assert [g][..0] + [g + [d]] == [g + [d]];
  }

  lemma AppendToOnlyWindow(window: nat, ds: Group, d: Detection)
    requires forall i :: 1 <= i < |ds| ==> !OutsideWindow(window, ds[0], ds[i])
    ensures Partition(window, ds + [d]) == Extend(window, Partition(window, ds), d)
  {
    hide OutsideWindow, Partition, Extend;
    var all := ds + [d];
    PartitionOfWindow(window, ds);
    ExtendLast(window, ds, d);
    if OutsideWindow(window, ds[0], d) {
      PartitionCut(window, all, |ds|);
      assert all[..|ds|] == ds && all[|ds|..] == [d];
      PartitionOfWindow(window, [d]);
    } else {
      PartitionOfWindow(window, all);
    }
  }

  lemma AppendBehindWindow(window: nat, ds: Group, d: Detection, n: nat)
    requires n < |ds| && n == WindowLength(window, ds)
    requires Partition(window, ds[n..] + [d]) == Extend(window, Partition(window, ds[n..]), d)
    ensures Partition(window, ds + [d]) == Extend(window, Partition(window, ds), d)
  {
    hide OutsideWindow, WindowLength, Partition, Extend;
    var all := ds + [d];
    PartitionCut(window, ds, n);
    PartitionCut(window, all, n);
    assert all[..n] == ds[..n] && all[n..] == ds[n..] + [d];
    ExtendTail(window, ds[..n], Partition(window, ds[n..]), d);
  }

  lemma {:induction false} PartitionAppend(window: nat, ds: seq<Detection>, d: Detection)
    ensures Partition(window, ds + [d]) == Extend(window, Partition(window, ds), d)
    decreases |ds|
  {
    hide OutsideWindow, WindowLength, Extend;
    if ds == [] {
      assert [] + [d] == [d];
      PartitionOfWindow(window, [d]);
      ExtendNothing(window, d);
    } else {
      hide Partition;
      var n := WindowLength(window, ds);
      if n == |ds| {
        AppendToOnlyWindow(window, ds, d);
      } else {
        PartitionAppend(window, ds[n..], d);
        AppendBehindWindow(window, ds, d, n);
      }
    }
  }

  lemma ExtendNothing(window: nat, d: Detection)
    ensures Extend(window, [], d) == [[d]]
  {
  }

  /** The processor run over a list of arrivals from the start. */
  datatype Streamed = Streamed(closed: seq<Group>, pending: Pending)

  function Stream(window: nat, ds: seq<Detection>): Streamed {
    if ds == [] then Streamed([], map[])
    else
      var s := Stream(window, ds[..|ds| - 1]);
      var d := ds[|ds| - 1];
      Streamed(s.closed + Closes(window, s.pending, d), Opens(window, s.pending, d))
  }

  /** The batch groups of one key among the arrivals. */
  function Batch(window: nat, ds: seq<Detection>, k: GroupKey): seq<Group> {
    Partition(window, Filter(ds, Some(k)))
  }

  /**
   * The crossings a batch computation emits, in order: an anonymous detection at once, a group when the detection
   * arrives that starts the next group of its key.
   */
  function BatchClosed(window: nat, ds: seq<Detection>): seq<Group> {
    if ds == [] then []
    else
      var before := ds[..|ds| - 1];
      BatchClosed(window, before) +
      match KeyOf(ds[|ds| - 1])
      case None => [[ds[|ds| - 1]]]
      case Some(k) =>
        var parts := Batch(window, before, k);
        if parts != [] && |Batch(window, ds, k)| > |parts| then [parts[|parts| - 1]] else []
  }

  /** What is pending for a key is its last batch group. */
  lemma {:induction false} PendingIsLastBatchGroup(window: nat, ds: seq<Detection>, k: GroupKey)
    ensures var parts := Batch(window, ds, k);
            var pending := Stream(window, ds).pending;
            (k in pending <==> parts != []) && (k in pending ==> pending[k] == parts[|parts| - 1])
    decreases |ds|
  {
    hide Partition, OutsideWindow;
    if ds != [] {
      var before, d := ds[..|ds| - 1], ds[|ds| - 1];
      PendingIsLastBatchGroup(window, before, k);
      if KeyOf(d) == Some(k) {
        PartitionAppend(window, Filter(before, Some(k)), d);
      } else {
        assert Filter(ds, Some(k)) == Filter(before, Some(k));
      }
    }
  }

  /** Streaming emits exactly the batch crossings, in the batch order, for any arrivals. */
  lemma {:induction false} StreamingIsBatch(window: nat, ds: seq<Detection>)
    ensures Stream(window, ds).closed == BatchClosed(window, ds)
    decreases |ds|
  {
    hide Partition, OutsideWindow;
    if ds != [] {
      var before, d := ds[..|ds| - 1], ds[|ds| - 1];
      StreamingIsBatch(window, before);
      if KeyOf(d).Some? {
        var k := KeyOf(d).value;
        PendingIsLastBatchGroup(window, before, k);
        PartitionAppend(window, Filter(before, Some(k)), d);
      }
    }
  }

  /** The emitted groups of one key, in order. */
  function ClosedOf(groups: seq<Group>, k: Option<GroupKey>): seq<Group> {
    if groups == [] then []
    else
      var g := groups[|groups| - 1];
      ClosedOf(groups[..|groups| - 1], k) + (if KeyOf(g[0]) == k then [g] else [])
  }

  lemma ClosedOfOneMore(groups: seq<Group>, g: Group, k: Option<GroupKey>)
    ensures ClosedOf(groups + [g], k) == ClosedOf(groups, k) + (if KeyOf(g[0]) == k then [g] else [])
  {
    assert (groups + [g])[..|groups|] == groups;
  }

  lemma {:induction false} FilterHasKey(ds: seq<Detection>, k: Option<GroupKey>)
    ensures forall d :: d in Filter(ds, k) ==> KeyOf(d) == k
    decreases |ds|
  {
    if ds != [] {
      FilterHasKey(ds[..|ds| - 1], k);
    }
  }

  lemma {:induction false} PartitionGroupsAreMembers(window: nat, ds: seq<Detection>)
    ensures forall i :: 0 <= i < |Partition(window, ds)| ==> Partition(window, ds)[i][0] in ds
    decreases |ds|
  {
    if ds != [] {
      PartitionGroupsAreMembers(window, ds[WindowLength(window, ds)..]);
    }
  }

  lemma BatchGroupsHaveKey(window: nat, ds: seq<Detection>, k: GroupKey)
    ensures forall i :: 0 <= i < |Batch(window, ds, k)| ==> KeyOf(Batch(window, ds, k)[i][0]) == Some(k)
  {
    hide Partition, Filter;
    FilterHasKey(ds, Some(k));
    PartitionGroupsAreMembers(window, Filter(ds, Some(k)));
  }

  /** Everything a detection closes has the detection's own key. */
  lemma ClosesOwnKey(window: nat, ds: seq<Detection>, d: Detection)
    ensures var done := Closes(window, Stream(window, ds).pending, d);
            |done| <= 1 && (done != [] ==> KeyOf(done[0][0]) == KeyOf(d))
  {
    hide Partition, OutsideWindow, Stream;
    if KeyOf(d).Some? {
      PendingIsLastBatchGroup(window, ds, KeyOf(d).value);
      BatchGroupsHaveKey(window, ds, KeyOf(d).value);
    }
  }

  lemma ClosedOfStep(groups: seq<Group>, done: seq<Group>, own: Option<GroupKey>, k: Option<GroupKey>)
    requires |done| <= 1 && (done != [] ==> KeyOf(done[0][0]) == own)
    ensures ClosedOf(groups + done, k) == ClosedOf(groups, k) + (if own == k then done else [])
  {
    if done == [] {
      assert groups + done == groups;
    } else {
      assert done == [done[0]];
      ClosedOfOneMore(groups, done[0], k);
    }
  }

  lemma EmittedStep(window: nat, ds: seq<Detection>, k: Option<GroupKey>)
    requires ds != []
    ensures var before, d := ds[..|ds| - 1], ds[|ds| - 1];
            ClosedOf(Stream(window, ds).closed, k) ==
            ClosedOf(Stream(window, before).closed, k)
            + (if KeyOf(d) == k then Closes(window, Stream(window, before).pending, d) else [])
  {
    hide Closes, ClosedOf, KeyOf;
    var before, d := ds[..|ds| - 1], ds[|ds| - 1];
    ClosesOwnKey(window, before, d);
    ClosedOfStep(Stream(window, before).closed, Closes(window, Stream(window, before).pending, d), KeyOf(d), k);
  }

  function AllButLast(parts: seq<Group>): seq<Group> {
    if parts == [] then [] else parts[..|parts| - 1]
  }

  lemma ExtendEmits(window: nat, parts: seq<Group>, d: Detection)
    ensures AllButLast(Extend(window, parts, d)) == AllButLast(parts)
            + (if parts != [] && OutsideWindow(window, parts[|parts| - 1][0], d) then [parts[|parts| - 1]] else [])
  {
    if parts != [] && OutsideWindow(window, parts[|parts| - 1][0], d) {
      assert parts == parts[..|parts| - 1] + [parts[|parts| - 1]];
    }
  }

  lemma ClosesLastGroup(window: nat, ds: seq<Detection>, d: Detection, k: GroupKey)
    requires KeyOf(d) == Some(k)
    ensures var parts := Batch(window, ds, k);
            Closes(window, Stream(window, ds).pending, d) ==
            if parts != [] && OutsideWindow(window, parts[|parts| - 1][0], d) then [parts[|parts| - 1]] else []
  {
    hide Batch, OutsideWindow, Stream;
    PendingIsLastBatchGroup(window, ds, k);
  }

  lemma FilterStep(ds: seq<Detection>, k: Option<GroupKey>)
    requires ds != []
    ensures Filter(ds, k) == Filter(ds[..|ds| - 1], k) + (if KeyOf(ds[|ds| - 1]) == k then [ds[|ds| - 1]] else [])
  {
  }

  /** Per key: emitted so far are all batch groups but the last, which is pending and so what flush adds. */
  lemma {:induction false} EmittedAreBatchGroups(window: nat, ds: seq<Detection>, k: GroupKey)
    ensures ClosedOf(Stream(window, ds).closed, Some(k)) == AllButLast(Batch(window, ds, k))
    ensures var pending := Stream(window, ds).pending;
            ClosedOf(Stream(window, ds).closed, Some(k)) + (if k in pending then [pending[k]] else [])
            == Batch(window, ds, k)
    decreases |ds|
  {
    PendingIsLastBatchGroup(window, ds, k);
    if ds != [] {
      hide Partition, OutsideWindow, ClosedOf, Stream, Filter, Closes, AllButLast, KeyOf;
      var before, d := ds[..|ds| - 1], ds[|ds| - 1];
      EmittedAreBatchGroups(window, before, k);
      EmittedStep(window, ds, Some(k));
      FilterStep(ds, Some(k));
      if KeyOf(d) == Some(k) {
        ClosesLastGroup(window, before, d, k);
        PartitionAppend(window, Filter(before, Some(k)), d);
        ExtendEmits(window, Batch(window, before, k), d);
      } else {
        assert Filter(before, Some(k)) + [] == Filter(before, Some(k));
      }
    }
  }

  lemma MembersOne(g: Group)
    ensures Members([g]) == g
  {
    assert [g][1..] == [] && g + [] == g;
  }

  lemma {:induction false} MembersAppend(a: seq<Group>, b: seq<Group>)
    ensures Members(a + b) == Members(a) + Members(b)
    decreases |a|
  {
    if a == [] {
      assert a + b == b;
    } else {
      assert (a + b)[1..] == a[1..] + b;
      MembersAppend(a[1..], b);
    }
  }

  /** Anonymous detections are emitted at once, each on its own. */
  lemma {:induction false} EmittedAnonymous(window: nat, ds: seq<Detection>)
    ensures Members(ClosedOf(Stream(window, ds).closed, None)) == Filter(ds, None)
    decreases |ds|
  {
    if ds != [] {
      hide OutsideWindow, ClosedOf, Stream, Filter, Members;
      var before, d := ds[..|ds| - 1], ds[|ds| - 1];
      EmittedAnonymous(window, before);
      EmittedStep(window, ds, None);
      FilterStep(ds, None);
      if KeyOf(d).None? {
        MembersAppend(ClosedOf(Stream(window, before).closed, None), [[d]]);
        MembersOne([d]);
      } else {
        assert ClosedOf(Stream(window, before).closed, None) + [] == ClosedOf(Stream(window, before).closed, None);
        assert Filter(before, None) + [] == Filter(before, None);
      }
    }
  }

  /**
   * Conservation: for each key (and for the anonymous detections) the emitted groups followed by what is still pending
   * are exactly its detections, each once and in arrival order.
   */
  lemma EveryDetectionOnce(window: nat, ds: seq<Detection>, k: Option<GroupKey>)
    ensures var s := Stream(window, ds);
            Members(ClosedOf(s.closed, k)) + (if k.Some? && k.value in s.pending then s.pending[k.value] else [])
            == Filter(ds, k)
  {
    hide Filter, Stream, ClosedOf, Partition, Members;
    if k.None? {
      EmittedAnonymous(window, ds);
      assert Filter(ds, k) + [] == Filter(ds, k);
    } else {
      var parts := Batch(window, ds, k.value);
      EmittedAreBatchGroups(window, ds, k.value);
      PendingIsLastBatchGroup(window, ds, k.value);
      PartitionMembers(window, Filter(ds, k));
      if parts == [] {
        assert Members(parts) + [] == Members(parts);
      } else {
        var n := |parts| - 1;
        assert parts == parts[..n] + [parts[n]];
        MembersAppend(parts[..n], [parts[n]]);
        MembersOne(parts[n]);
      }
    }
  }

  /** Timestamps never go back along the list. */
  ghost predicate Ordered(ds: seq<Detection>) {
    forall i, j :: 0 <= i < j < |ds| ==> ds[i].detectedAtNs <= ds[j].detectedAtNs
  }

  lemma OrderedSpan(window: nat, ds: Group, n: nat)
    requires Ordered(ds) && 1 <= n <= |ds|
    requires forall i :: 1 <= i < n ==> !OutsideWindow(window, ds[0], ds[i])
    ensures Span(ds[..n]) <= window
  {
    hide Latest, Earliest;
    var g := ds[..n];
    var i :| 0 <= i < |g| && g[i].detectedAtNs == Latest(g);
    var j :| 0 <= j < |g| && g[j].detectedAtNs == Earliest(g);
    assert g[0] == ds[0] && g[i] == ds[i] && g[j] == ds[j];
  }

  /** Every group spans at most the window, and consecutive groups start more than a window apart. */
  ghost predicate WellSpaced(window: nat, parts: seq<Group>) {
    && (forall i :: 0 <= i < |parts| ==> Span(parts[i]) <= window)
    && (forall i :: 0 < i < |parts| ==> parts[i][0].detectedAtNs - parts[i - 1][0].detectedAtNs > window)
  }

  lemma WellSpacedCons(window: nat, g: Group, rest: seq<Group>)
    requires Span(g) <= window && WellSpaced(window, rest)
    requires rest != [] ==> rest[0][0].detectedAtNs - g[0].detectedAtNs > window
    ensures WellSpaced(window, [g] + rest)
  {
    hide Span;
    var parts := [g] + rest;
    forall i | 0 < i < |parts|
      ensures parts[i][0].detectedAtNs - parts[i - 1][0].detectedAtNs > window
    {
      assert parts[i] == rest[i - 1];
      assert i > 1 ==> parts[i - 1] == rest[i - 2];
    }
  }

  lemma FirstOfPartition(window: nat, ds: Group)
    ensures Partition(window, ds) != [] && Partition(window, ds)[0][0] == ds[0]
  {
    hide WindowLength;
  }

  /** With one key's arrivals in timestamp order, its groups are well spaced. */
  lemma {:induction false} OrderedGroups(window: nat, ds: seq<Detection>)
    requires Ordered(ds)
    ensures WellSpaced(window, Partition(window, ds))
    decreases |ds|
  {
    hide Span, WellSpaced, WindowLength;
    if ds == [] {
      NoGroupsWellSpaced(window);
    } else {
      var n := WindowLength(window, ds);
      OrderedSpan(window, ds, n);
      OrderedGroups(window, ds[n..]);
      if n < |ds| {
        FirstOfPartition(window, ds[n..]);
      }
      WellSpacedCons(window, ds[..n], Partition(window, ds[n..]));
    }
  }

  lemma NoGroupsWellSpaced(window: nat)
    ensures WellSpaced(window, [])
  {
  }
}
