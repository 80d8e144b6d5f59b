/** The order status tracker component: from the current status key, the list of steps
    and the timestamp map, it derives for every step whether it is completed, active or
    future, whether a connector follows it, whether the spinner replaces its icon and
    which timestamp it shows. */
module StatusTracker {
  import opened Optional
  import opened Seqs

  datatype StatusKey = Pending | Confirmed | Preparing | OutForDelivery | Delivered | Cancelled

  /** The key as the source spells it. */
  function KeyName(k: StatusKey): string {
    match k
    case Pending => "PENDING"
    case Confirmed => "CONFIRMED"
    case Preparing => "PREPARING"
    case OutForDelivery => "OUT_FOR_DELIVERY"
    case Delivered => "DELIVERED"
    case Cancelled => "CANCELLED"
  }

  /** A step of the tracker; `caption` is the source's `label` (a keyword here), the icon is left out. */
  datatype Step = Step(key: StatusKey, caption: string)

  function DefaultStatuses(): seq<Step> {
    [ Step(Confirmed, "Order Confirmed"),
      Step(Preparing, "Preparing Food"),
      Step(OutForDelivery, "Out for Delivery"),
      Step(Delivered, "Delivered") ]
  }

  function CancelledStep(): Step {
    Step(Cancelled, "Order Cancelled")
  }

  /** `activeStatuses`: the single cancelled step when the order is cancelled, otherwise
      the `statuses` prop, which defaults to the four standard steps. */
  function ActiveStatuses(current: StatusKey, statuses: Option<seq<Step>>): (r: seq<Step>)
    ensures current == Cancelled ==> r == [CancelledStep()]
    ensures current != Cancelled && statuses.None? ==> r == DefaultStatuses()
    ensures current != Cancelled && statuses.Some? ==> r == statuses.value
  {
    if current == Cancelled then [CancelledStep()] else statuses.GetOr(DefaultStatuses())
  }

  function Keys(steps: seq<Step>): (r: seq<StatusKey>)
    ensures |r| == |steps| && forall i :: 0 <= i < |steps| ==> r[i] == steps[i].key
  {
    seq(|steps|, i requires 0 <= i < |steps| => steps[i].key)
  }

  /** The position of the first step whose key is the current status, -1 when none is. */
  function CurrentStatusIndex(current: StatusKey, steps: seq<Step>): (r: int)
    ensures -1 <= r < |steps|
    ensures r == -1 <==> forall i :: 0 <= i < |steps| ==> steps[i].key != current
    ensures 0 <= r ==> steps[r].key == current && forall j :: 0 <= j < r ==> steps[j].key != current
  {
    var r := IndexOf(Keys(steps), current);
    assert r == -1 ==> forall i :: 0 <= i < |steps| ==> Keys(steps)[i] != current;
    r
  }

  /** What the tracker draws for one step. */
  datatype StepView = StepView(
    key: StatusKey,
    caption: string,
    isCompleted: bool,
    isActive: bool,
    isFuture: bool,
    hasConnector: bool,
    showsSpinner: bool,
    timestamp: Option<string>)

  /** The flags of the step at `index` of `steps`, computed as the component does. */
  function ViewStep(current: StatusKey, steps: seq<Step>, index: nat, timestamps: map<StatusKey, string>): (v: StepView)
    requires index < |steps|
    ensures v.key == steps[index].key && v.caption == steps[index].caption
    ensures v.hasConnector <==> index < |steps| - 1 && current != Cancelled
    ensures v.showsSpinner <==> v.isActive && v.key != Delivered && v.key != Cancelled
    ensures v.timestamp.Some? <==> v.key in timestamps && timestamps[v.key] != ""
    ensures v.timestamp.Some? ==> v.timestamp.value == timestamps[v.key]
    ensures v.isActive <==> v.key == current
    ensures !(v.isCompleted && v.isFuture)
    ensures current == Cancelled ==> !v.isFuture && (v.isCompleted <==> v.key == Cancelled)
    ensures current != Cancelled ==>
      (v.isCompleted <==> index < CurrentStatusIndex(current, steps)) &&
      (v.isFuture <==> index > CurrentStatusIndex(current, steps))
    ensures current != Cancelled && current !in Keys(steps) ==> !v.isCompleted && !v.isActive && v.isFuture
  {
    var currentStatusIndex := CurrentStatusIndex(current, steps);
    var step := steps[index];
    var isCompleted := if current == Cancelled then step.key == Cancelled else index < currentStatusIndex;
    var isActive := step.key == current;
    var isFuture := index > currentStatusIndex && current != Cancelled;
    StepView(
      step.key,
      step.caption,
      isCompleted,
      isActive,
      isFuture,
      index < |steps| - 1 && current != Cancelled,
      isActive && step.key != Delivered && step.key != Cancelled,
      // an absent or empty timestamp entry shows nothing
      if step.key in timestamps && timestamps[step.key] != "" then Some(timestamps[step.key]) else None)
  }

  /** The whole tracker: one view per active step, in order. */
  function Render(current: StatusKey, statuses: Option<seq<Step>>, timestamps: Option<map<StatusKey, string>>): (r: seq<StepView>)
    ensures var steps := ActiveStatuses(current, statuses);
      |r| == |steps| && forall i :: 0 <= i < |r| ==> r[i].key == steps[i].key && r[i].caption == steps[i].caption
    ensures forall i :: 0 <= i < |r| ==> (r[i].hasConnector <==> i < |r| - 1 && current != Cancelled)
    ensures forall i :: 0 <= i < |r| ==>
      (r[i].showsSpinner <==> r[i].isActive && r[i].key != Delivered && r[i].key != Cancelled)
    ensures forall i :: 0 <= i < |r| ==>
      (r[i].timestamp.Some? <==> timestamps.Some? && r[i].key in timestamps.value && timestamps.value[r[i].key] != "")
    ensures forall i :: 0 <= i < |r| && r[i].timestamp.Some? ==> r[i].timestamp.value == timestamps.value[r[i].key]
  {
    var steps := ActiveStatuses(current, statuses);
    var ts := timestamps.GetOr(map[]);
    var r := seq(|steps|, i requires 0 <= i < |steps| => ViewStep(current, steps, i, ts));
    assert forall i :: 0 <= i < |r| ==> r[i] == ViewStep(current, steps, i, ts);
    r
  }

  /** A cancelled order shows the single cancelled step, completed and active at once,
      not future and without a connector, whatever steps were passed in. */
  lemma CancelledShowsOneFinishedStep(statuses: Option<seq<Step>>, timestamps: Option<map<StatusKey, string>>)
    ensures var r := Render(Cancelled, statuses, timestamps);
      |r| == 1 && r[0].key == Cancelled && r[0].caption == "Order Cancelled" &&
      r[0].isCompleted && r[0].isActive && !r[0].isFuture && !r[0].hasConnector && !r[0].showsSpinner
  {
    var steps := ActiveStatuses(Cancelled, statuses);
    var r := Render(Cancelled, statuses, timestamps);
    assert CurrentStatusIndex(Cancelled, steps) == 0;
    assert r[0] == ViewStep(Cancelled, steps, 0, timestamps.GetOr(map[]));
  }

  predicate DistinctKeys(steps: seq<Step>) {
    forall i, j :: 0 <= i < j < |steps| ==> steps[i].key != steps[j].key
  }

  /** For a status that is in the list (and not cancelled), every step plays exactly one
      role: completed before the current one, active at it, future after it. */
  lemma PresentKeyPartition(current: StatusKey, statuses: Option<seq<Step>>, timestamps: Option<map<StatusKey, string>>)
    requires current != Cancelled
    requires DistinctKeys(ActiveStatuses(current, statuses))
    requires current in Keys(ActiveStatuses(current, statuses))
    ensures var r := Render(current, statuses, timestamps);
      var k := CurrentStatusIndex(current, ActiveStatuses(current, statuses));
      0 <= k < |r| &&
      forall i :: 0 <= i < |r| ==>
        (r[i].isCompleted <==> i < k) && (r[i].isActive <==> i == k) && (r[i].isFuture <==> i > k)
  {
    var steps := ActiveStatuses(current, statuses);
    var k := CurrentStatusIndex(current, steps);
    assert k != -1 by {
      var j :| 0 <= j < |Keys(steps)| && Keys(steps)[j] == current;
      assert steps[j].key == current;
    }
  }

  /** A status missing from the list (PENDING, say): nothing completed or active,
      everything future. */
  lemma AbsentKeyAllFuture(current: StatusKey, statuses: Option<seq<Step>>, timestamps: Option<map<StatusKey, string>>)
    requires current != Cancelled
    requires current !in Keys(ActiveStatuses(current, statuses))
    ensures var r := Render(current, statuses, timestamps);
      forall i :: 0 <= i < |r| ==> !r[i].isCompleted && !r[i].isActive && r[i].isFuture
  {
    var steps := ActiveStatuses(current, statuses);
    var ts := timestamps.GetOr(map[]);
    var r := Render(current, statuses, timestamps);
    assert CurrentStatusIndex(current, steps) == -1 by {
      forall i | 0 <= i < |steps| ensures steps[i].key != current {
        assert Keys(steps)[i] == steps[i].key;
      }
    }
    forall i | 0 <= i < |r| ensures !r[i].isCompleted && !r[i].isActive && r[i].isFuture {
      assert r[i] == ViewStep(current, steps, i, ts);
      assert Keys(steps)[i] == steps[i].key;
    }
  }

  /** With the default steps, PENDING shows four future steps. */
  lemma PendingShowsDefaultStepsAsFuture(timestamps: Option<map<StatusKey, string>>)
    ensures var r := Render(Pending, None, timestamps);
      |r| == 4 && forall i :: 0 <= i < 4 ==> r[i].isFuture && !r[i].isActive && !r[i].isCompleted
  {
    AbsentKeyAllFuture(Pending, None, timestamps);
  }
}
