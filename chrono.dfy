/**
 * `std::chrono` durations and time points with their serialisers. A duration
 * is its tick count; a time point is the duration since its clock's epoch.
 * A duration is saved as its count, a time point as its duration since the
 * epoch; `serialize` loads from an input archive and saves to an output one.
 */
module Chrono {
  import opened Wrappers
  import opened Archives

  datatype Duration = Duration(count: int)

  datatype TimePoint = TimePoint(sinceEpoch: Duration)

  /** The epoch of a clock, which a default-constructed time point holds. */
  const Epoch: TimePoint := TimePoint(Duration(0))

  /** `a - b` for time points. */
  function Since(a: TimePoint, b: TimePoint): (d: Duration)
    ensures d.count + b.sinceEpoch.count == a.sinceEpoch.count
  {
    Duration(a.sinceEpoch.count - b.sinceEpoch.count)
  }

  /** `t + d` for a time point and a duration. */
  function After(t: TimePoint, d: Duration): (r: TimePoint)
    ensures r.sinceEpoch.count - d.count == t.sinceEpoch.count
  {
    TimePoint(Duration(t.sinceEpoch.count + d.count))
  }

  /** Adding the distance from `b` to `a` back onto `b` gives `a`. */
  lemma AfterSince(a: TimePoint, b: TimePoint)
    ensures After(b, Since(a, b)) == a
  {
  }

  /** What saving a duration writes: its count. */
  function EncodeDuration<T>(d: Duration): seq<Item<T>> {
    [Count(d.count)]
  }

  /** Reads a duration at `pos`: the duration with the count read, and the position after it. */
  function DecodeDuration<T>(items: seq<Item<T>>, pos: nat): (r: Option<(Duration, nat)>)
    ensures r.Some? ==> r.value.1 == pos + 1 <= |items| && items[pos..pos + 1] == EncodeDuration(r.value.0)
  {
    var read := ReadCount(items, pos);
    if read.Some? then Some((Duration(read.value.0), read.value.1)) else None
  }

  /** Loading what saving a duration wrote gives the same duration. */
  lemma DurationRoundTrip<T>(d: Duration, prefix: seq<Item<T>>, rest: seq<Item<T>>)
    ensures DecodeDuration(prefix + EncodeDuration(d) + rest, |prefix|) == Some((d, |prefix| + 1))
  {
    assert (prefix + EncodeDuration(d) + rest)[|prefix|] == Count(d.count);
  }

  /** What saving a time point writes: its duration since the epoch. */
  function EncodeTimePoint<T>(t: TimePoint): seq<Item<T>> {
    EncodeDuration(t.sinceEpoch)
  }

  /** Reads a time point at `pos`: the epoch plus the duration read. */
  function DecodeTimePoint<T>(items: seq<Item<T>>, pos: nat): (r: Option<(TimePoint, nat)>)
    ensures r.Some? ==> r.value.1 == pos + 1 <= |items| && items[pos..pos + 1] == EncodeTimePoint(r.value.0)
  {
    var read := DecodeDuration(items, pos);
    if read.Some? then Some((TimePoint(read.value.0), read.value.1)) else None
  }

  /** Loading what saving a time point wrote gives the same time point. */
  lemma TimePointRoundTrip<T>(t: TimePoint, prefix: seq<Item<T>>, rest: seq<Item<T>>)
    ensures DecodeTimePoint(prefix + EncodeTimePoint(t) + rest, |prefix|) == Some((t, |prefix| + 1))
  {
    DurationRoundTrip(t.sinceEpoch, prefix, rest);
  }

  method SaveDuration<T>(archive: Archive<T>, d: Duration)
    requires !archive.isLoading
    modifies archive`items
    ensures archive.items == old(archive.items) + EncodeDuration(d)
  {
    archive.Put(Count(d.count));
  }

  /** Reads one count and makes a duration of it; `None` when the read fails. */
  method LoadDuration<T>(archive: Archive<T>) returns (d: Option<Duration>)
    requires archive.isLoading && archive.Valid()
    modifies archive`pos
    ensures archive.Valid()
    ensures var read := DecodeDuration(archive.items, old(archive.pos));
      && d == (if read.Some? then Some(read.value.0) else None)
      && archive.pos == (if read.Some? then read.value.1 else old(archive.pos))
  {
    var rep := archive.GetCount();
    if rep.Some? {
      d := Some(Duration(rep.value));
    } else {
      d := None;
    }
  }

  /**
   * `serialize` for a duration: on an input archive the loaded duration
   * (`None` when loading fails), on an output archive `d` itself after saving it.
   */
  method SerializeDuration<T>(archive: Archive<T>, d: Duration) returns (r: Option<Duration>)
    requires archive.Valid()
    modifies archive`items, archive`pos
    ensures archive.Valid()
    ensures !archive.isLoading ==>
      r == Some(d) && archive.items == old(archive.items) + EncodeDuration(d) && archive.pos == old(archive.pos)
    ensures archive.isLoading ==>
      var read := DecodeDuration(archive.items, old(archive.pos));
      && archive.items == old(archive.items)
      && r == (if read.Some? then Some(read.value.0) else None)
      && archive.pos == (if read.Some? then read.value.1 else old(archive.pos))
  {
    if archive.isLoading {
      r := LoadDuration(archive);
    } else {
      SaveDuration(archive, d);
      r := Some(d);
    }
  }

  method SaveTimePoint<T>(archive: Archive<T>, t: TimePoint)
    requires !archive.isLoading
    modifies archive`items
    ensures archive.items == old(archive.items) + EncodeTimePoint(t)
  {
    SaveDuration(archive, t.sinceEpoch);
  }

  /** Reads a duration and makes the time point that far from the epoch. */
  method LoadTimePoint<T>(archive: Archive<T>) returns (t: Option<TimePoint>)
    requires archive.isLoading && archive.Valid()
    modifies archive`pos
    ensures archive.Valid()
    ensures var read := DecodeTimePoint(archive.items, old(archive.pos));
      && t == (if read.Some? then Some(read.value.0) else None)
      && archive.pos == (if read.Some? then read.value.1 else old(archive.pos))
  {
    var sinceEpoch := LoadDuration(archive);
    if sinceEpoch.Some? {
      t := Some(TimePoint(sinceEpoch.value));
    } else {
      t := None;
    }
  }

  /** `serialize` for a time point, dispatching like `SerializeDuration`. */
  method SerializeTimePoint<T>(archive: Archive<T>, t: TimePoint) returns (r: Option<TimePoint>)
    requires archive.Valid()
    modifies archive`items, archive`pos
    ensures archive.Valid()
    ensures !archive.isLoading ==>
      r == Some(t) && archive.items == old(archive.items) + EncodeTimePoint(t) && archive.pos == old(archive.pos)
    ensures archive.isLoading ==>
      var read := DecodeTimePoint(archive.items, old(archive.pos));
      && archive.items == old(archive.items)
      && r == (if read.Some? then Some(read.value.0) else None)
      && archive.pos == (if read.Some? then read.value.1 else old(archive.pos))
  {
    if archive.isLoading {
      r := LoadTimePoint(archive);
    } else {
      SaveTimePoint(archive, t);
      r := Some(t);
    }
  }
}
