/**
 * `TimedAction<T>`: the start and end of an action, its result value when it
 * succeeded and a failure reason, with its serialisers. The archive holds the
 * start, the duration and the value, and loading sets the end to the start
 * plus the duration read. The clock is not read here: `Start` is given the
 * time point the clock would return.
 */
module TimedActions {
  import opened Wrappers
  import opened Archives
  import opened Chrono

  /** The fields of a timed action, as one value. */
  datatype ActionState<T> = ActionState(start: TimePoint, end: TimePoint, value: Option<T>, reason: string)

  class TimedAction<T> {
    var start: TimePoint
    var end: TimePoint
    var value: Option<T>
    var reason: string

    /** A default-constructed action: both time points at the epoch, no value, no reason. */
    constructor ()
      ensures State() == ActionState(Epoch, Epoch, None, "")
    {
      start := Epoch;
      end := Epoch;
      value := None;
      reason := "";
    }

    function State(): ActionState<T>
      reads this
    {
      ActionState(start, end, value, reason)
    }

    /** Records the clock reading `now` as the start; nothing else changes. */
    method Start(now: TimePoint)
      modifies this`start
      ensures State() == old(State()).(start := now)
    {
      start := now;
    }

    /** Records the result value, which makes the action succeeded; nothing else changes. */
    method Success(v: T)
      modifies this`value
      ensures State() == old(State()).(value := Some(v))
      ensures Succeeded() && Value() == Some(v)
    {
      value := Some(v);
    }

    /** Records the failure reason; the value and the time points are untouched. */
    method Failure(r: string)
      modifies this`reason
      ensures State() == old(State()).(reason := r)
      ensures FailureReason() == r && Succeeded() == old(Succeeded())
    {
      reason := r;
    }

    function Value(): Option<T>
      reads this
    {
      value
    }

    /** Whether a result value was recorded. */
    predicate Succeeded()
      reads this
      ensures Succeeded() <==> Value().Some?
    {
      value.Some?
    }

    function FailureReason(): string
      reads this
    {
      reason
    }

    /** `explicit operator bool`: the same answer as `Succeeded`. */
    predicate AsBool()
      reads this
      ensures AsBool() == Succeeded()
    {
      Succeeded()
    }

    /** `end - start`: the duration that takes the start to the end. */
    function Duration(): (d: Chrono.Duration)
      reads this
      ensures After(start, d) == end
    {
      Since(end, start)
    }

    /** `end - other.start`: the time from the start of `other` to the end of this action. */
    function TimeSince<Y>(other: TimedAction<Y>): (d: Chrono.Duration)
      reads this, other
      ensures After(other.start, d) == end
    {
      Since(end, other.start)
    }
  }

  /** The time since an action's own start is its duration. */
  lemma TimeSinceSelf<T>(a: TimedAction<T>)
    ensures a.TimeSince(a) == a.Duration()
  {
  }

  /** What saving an action writes: its start, its duration, its value. */
  function EncodeAction<T>(start: TimePoint, duration: Chrono.Duration, value: Option<T>): (items: seq<Item<T>>)
    ensures |items| == 2 + |EncodeOptional(value)|
  {
    EncodeTimePoint(start) + EncodeDuration(duration) + EncodeOptional(value)
  }

  /** Reads start, duration and value at `pos`, in that order, and the position after them. */
  function DecodeAction<T>(items: seq<Item<T>>, pos: nat): (r: Option<(TimePoint, Chrono.Duration, Option<T>, nat)>)
    ensures r.Some? ==> pos < r.value.3 <= |items|
    ensures r.Some? ==> items[pos..r.value.3] == EncodeAction(r.value.0, r.value.1, r.value.2)
  {
    var start := DecodeTimePoint(items, pos);
    if start.None? then None
    else
      var duration := DecodeDuration(items, start.value.1);
      if duration.None? then None
      else
        var value := DecodeOptional(items, duration.value.1);
        if value.None? then None
        else
          var (s, p1) := start.value;
          var (d, p2) := duration.value;
          var (v, p3) := value.value;
          assert items[pos..p3] == items[pos..p1] + items[p1..p2] + items[p2..p3];
          Some((s, d, v, p3))
  }

  /**
   * The state loading leaves an action in: start and value as read, the end
   * at start plus the duration read, the failure reason as it was.
   */
  function Loaded<T>(target: ActionState<T>, items: seq<Item<T>>, pos: nat): (r: Option<ActionState<T>>)
    ensures r.Some? <==> DecodeAction(items, pos).Some?
    ensures r.Some? ==> r.value.reason == target.reason && r.value.end == After(r.value.start, DecodeAction(items, pos).value.1)
  {
    var read := DecodeAction(items, pos);
    if read.Some? then
      var (s, d, v, _) := read.value;
      Some(ActionState(s, After(s, d), v, target.reason))
    else None
  }

  /**
   * What `load` does to an action and to the read position, whether or not
   * every read succeeds. The reads go in the order start, duration, value and
   * stop at the first that fails. The start is stored as soon as it is read
   * and the value once it is read; the end is set only after all three reads.
   */
  function LoadEffect<T>(target: ActionState<T>, items: seq<Item<T>>, pos: nat): (r: (bool, ActionState<T>, nat))
    ensures r.0 <==> DecodeAction(items, pos).Some?
    ensures r.0 ==> Loaded(target, items, pos) == Some(r.1) && r.2 == DecodeAction(items, pos).value.3
    ensures r.1.reason == target.reason
    ensures !r.0 ==> r.1.end == target.end && r.1.value == target.value
    ensures !r.0 ==> r.1.start == (var st := DecodeTimePoint(items, pos); if st.Some? then st.value.0 else target.start)
    ensures pos <= |items| ==> pos <= r.2 <= |items|
  {
    var start := DecodeTimePoint(items, pos);
    if start.None? then (false, target, pos)
    else
      var (s, p1) := start.value;
      var duration := DecodeDuration(items, p1);
      if duration.None? then (false, target.(start := s), p1)
      else
        var (d, p2) := duration.value;
        var value := DecodeOptional(items, p2);
        if value.None? then (false, target.(start := s), p2)
        else
          var (v, p3) := value.value;
          (true, ActionState(s, After(s, d), v, target.reason), p3)
  }

  /**
   * Loading what saving an action wrote restores its start, its end and its
   * value, whatever the action loaded into held before, and reads exactly the
   * saved items.
   */
  lemma {:induction false} SaveLoadRoundTrip<T>(saved: ActionState<T>, target: ActionState<T>, prefix: seq<Item<T>>, rest: seq<Item<T>>)
    ensures var items := EncodeAction(saved.start, Since(saved.end, saved.start), saved.value);
      && DecodeAction(prefix + items + rest, |prefix|)
         == Some((saved.start, Since(saved.end, saved.start), saved.value, |prefix| + |items|))
      && Loaded(target, prefix + items + rest, |prefix|)
         == Some(ActionState(saved.start, saved.end, saved.value, target.reason))
  {
    var d := Since(saved.end, saved.start);
    var t := EncodeTimePoint<T>(saved.start);
    var u := EncodeDuration<T>(d);
    var o := EncodeOptional(saved.value);
    var all := prefix + (t + u + o) + rest;
    assert all == prefix + t + (u + o + rest);
    TimePointRoundTrip(saved.start, prefix, u + o + rest);
    assert all == (prefix + t) + u + (o + rest);
    DurationRoundTrip(d, prefix + t, o + rest);
    assert all == (prefix + t + u) + o + rest;
    OptionalRoundTrip(saved.value, prefix + t + u, rest);
    AfterSince(saved.end, saved.start);
  }

  /** `save`: writes the start, the duration and the value, in that order. */
  method SaveTimedAction<T>(archive: Archive<T>, action: TimedAction<T>)
    requires !archive.isLoading
    modifies archive`items
    ensures archive.items == old(archive.items) + EncodeAction(action.start, action.Duration(), action.value)
  {
    SaveTimePoint(archive, action.start);
    SaveDuration(archive, action.Duration());
    archive.PutOptional(action.value);
  }

  /**
   * `load`: reads the start into the action, then the duration, then the
   * value into the action, and finally sets the end to start plus duration.
   * When a read fails, `ok` is false, the fields read before it keep their
   * new values and the archive stays after the last item read.
   */
  method LoadTimedAction<T>(archive: Archive<T>, action: TimedAction<T>) returns (ok: bool)
    requires archive.isLoading && archive.Valid()
    modifies archive`pos, action`start, action`end, action`value
    ensures archive.Valid()
    ensures (ok, action.State(), archive.pos) == LoadEffect(old(action.State()), archive.items, old(archive.pos))
  {
    var start := LoadTimePoint(archive);
    if start.None? {
      return false;
    }
    action.start := start.value;
    var duration := LoadDuration(archive);
    if duration.None? {
      return false;
    }
    var value := archive.GetOptional();
    if value.None? {
      return false;
    }
    action.value := value.value;
    action.end := After(action.start, duration.value);
    ok := true;
  }

  /** `serialize`: loads on an input archive, saves on an output archive. */
  method SerializeTimedAction<T>(archive: Archive<T>, action: TimedAction<T>) returns (ok: bool)
    requires archive.Valid()
    modifies archive`items, archive`pos, action`start, action`end, action`value
    ensures archive.Valid()
    ensures !archive.isLoading ==>
      && ok
      && archive.items == old(archive.items) + EncodeAction(old(action.start), old(action.Duration()), old(action.value))
      && action.State() == old(action.State())
      && archive.pos == old(archive.pos)
    ensures archive.isLoading ==>
      && archive.items == old(archive.items)
      && (ok, action.State(), archive.pos) == LoadEffect(old(action.State()), archive.items, old(archive.pos))
  {
    if archive.isLoading {
      ok := LoadTimedAction(archive, action);
    } else {
      SaveTimedAction(archive, action);
      ok := true;
    }
  }
}
