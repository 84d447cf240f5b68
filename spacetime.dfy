/** The time arithmetic of `huh/spacetime.py`: the query window around a
    target moment and the choice of the observation nearest to it.

    Moments are epoch milliseconds. The wall clock is not read: the caller
    passes `now`. */
module SpaceTime {
  import opened Wrappers

  const MinuteMs: int := 60 * 1000
  const HalfHourMs: int := 30 * MinuteMs
  const HourMs: int := 60 * MinuteMs

  /** A `(start, end)` pair of epoch milliseconds. */
  datatype Window = Window(start: int, end: int)

  function Min(a: int, b: int): int {
    if a <= b then a else b
  }

  /** `timeRange`: half an hour either side of the target, unless that would
      end after `now`; then from an hour before the target up to `now`. */
  function TimeRange(target: int, now: int): (w: Window)
    ensures w.end == Min(target + HalfHourMs, now)
    ensures w.end <= now
    ensures w.start < target && w.start <= target - HalfHourMs
    ensures w.start <= w.end <==> target <= now + HourMs
    ensures target <= now ==> w.start <= target <= w.end
  {
    if target + HalfHourMs > now then Window(target - HourMs, now)
    else Window(target - HalfHourMs, target + HalfHourMs)
  }

  /** The two shapes the window takes. */
  lemma TimeRangeCases(target: int, now: int)
    ensures target + HalfHourMs <= now ==> TimeRange(target, now) == Window(target - HalfHourMs, target + HalfHourMs)
    ensures target + HalfHourMs > now ==> TimeRange(target, now) == Window(target - HourMs, now)
    ensures target + HalfHourMs <= now ==> TimeRange(target, now).end - TimeRange(target, now).start == HourMs
  {
  }

  /** `abs(timestamp - target)`. */
  function Distance(t: int, target: int): nat {
    if t >= target then t - target else target - t
  }

  /** The index `min(data, key=...)` picks: Python's `min` walks the list once
      and replaces its best so far only on a strictly smaller key, so the
      first element at the least distance wins. */
  function NearestIndex<T>(data: seq<T>, stamp: T -> int, target: int): (i: nat)
    requires |data| > 0
    ensures i < |data|
    ensures forall j :: 0 <= j < |data| ==> Distance(stamp(data[i]), target) <= Distance(stamp(data[j]), target)
    ensures forall j :: 0 <= j < i ==> Distance(stamp(data[i]), target) < Distance(stamp(data[j]), target)
  {
    if |data| == 1 then 0
    else
      var best := NearestIndex(data[..|data| - 1], stamp, target);
      if Distance(stamp(data[|data| - 1]), target) < Distance(stamp(data[best]), target) then |data| - 1
      else best
  }

  /** `min()` of an empty list raises ValueError. */
  datatype NearestError = EmptyData

  /** `nearestTime`: the observation whose timestamp is closest to the target.
      A datetime target is its epoch-millisecond value here, so both kinds of
      target are the same `int`. */
  function NearestTime<T>(target: int, data: seq<T>, stamp: T -> int): (r: Result<T, NearestError>)
    ensures r.Failure? <==> |data| == 0
    ensures r.Success? ==> r.value in data
    ensures r.Success? ==> forall x :: x in data ==> Distance(stamp(r.value), target) <= Distance(stamp(x), target)
  {
    if |data| == 0 then Failure(EmptyData)
    else Success(data[NearestIndex(data, stamp, target)])
  }

  /** The first-seen rule pins the answer down: the only index that is at least
      as near as every element and strictly nearer than every earlier one is
      the one `NearestIndex` returns. */
  lemma NearestIndexUnique<T>(data: seq<T>, stamp: T -> int, target: int, k: nat)
    requires k < |data|
    requires forall j :: 0 <= j < |data| ==> Distance(stamp(data[k]), target) <= Distance(stamp(data[j]), target)
    requires forall j :: 0 <= j < k ==> Distance(stamp(data[k]), target) < Distance(stamp(data[j]), target)
    ensures NearestIndex(data, stamp, target) == k
  {
  }

  /** Of two elements at the same distance, the later one is never chosen. */
  lemma TieGoesToEarlier<T>(data: seq<T>, stamp: T -> int, target: int, i: nat, j: nat)
    requires i < j < |data|
    requires Distance(stamp(data[i]), target) == Distance(stamp(data[j]), target)
    ensures NearestIndex(data, stamp, target) != j
  {
  }

  /** An element stamped exactly at the target makes the answer distance 0. */
  lemma ExactHitIsDistanceZero<T>(data: seq<T>, stamp: T -> int, target: int, k: nat)
    requires k < |data| && stamp(data[k]) == target
    ensures NearestTime(target, data, stamp).Success?
    ensures stamp(NearestTime(target, data, stamp).value) == target
  {
    assert Distance(stamp(data[k]), target) == 0;
  }
}
