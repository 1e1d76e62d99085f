/**
 * A serialisation archive, as the serialisers use it: a sequence of items
 * that saving appends to and loading reads from the front of. An output
 * archive only grows; an input archive only advances its read position. A
 * read that finds no item, or an item of another kind, fails (the library
 * throws).
 *
 * The items an archive holds for a value of type `T`: integer counts, flags
 * and values of `T` itself.
 */
module Archives {
  import opened Wrappers

  datatype Item<T> = Count(n: int) | Flag(b: bool) | Val(v: T)

  /** Reads an integer at `pos`: the value and the position after it. */
  function ReadCount<T>(items: seq<Item<T>>, pos: nat): (r: Option<(int, nat)>)
    ensures r.Some? <==> pos < |items| && items[pos].Count?
    ensures r.Some? ==> items[pos] == Count(r.value.0) && r.value.1 == pos + 1
  {
    if pos < |items| && items[pos].Count? then Some((items[pos].n, pos + 1)) else None
  }

  /**
   * The items saving an optional value writes: whether it is set, then the
   * value when it is.
   */
  function EncodeOptional<T>(o: Option<T>): (items: seq<Item<T>>)
    ensures |items| == if o.Some? then 2 else 1
  {
    match o
    case None => [Flag(false)]
    case Some(v) => [Flag(true), Val(v)]
  }

  /** Reads an optional value at `pos`: the value and the position after it. */
  function DecodeOptional<T>(items: seq<Item<T>>, pos: nat): (r: Option<(Option<T>, nat)>)
    ensures r.Some? ==> pos < r.value.1 <= |items| && items[pos..r.value.1] == EncodeOptional(r.value.0)
  {
    if pos < |items| && items[pos] == Flag(false) then
      Some((None, pos + 1))
    else if pos + 1 < |items| && items[pos] == Flag(true) && items[pos + 1].Val? then
      Some((Some(items[pos + 1].v), pos + 2))
    else None
  }

  /** Reading back what saving an optional value wrote gives the value and the position after it. */
  lemma OptionalRoundTrip<T>(o: Option<T>, prefix: seq<Item<T>>, rest: seq<Item<T>>)
    ensures DecodeOptional(prefix + EncodeOptional(o) + rest, |prefix|) == Some((o, |prefix| + |EncodeOptional(o)|))
  {
    var items := prefix + EncodeOptional(o) + rest;
    assert items[|prefix|] == EncodeOptional(o)[0];
    if o.Some? {
      assert items[|prefix| + 1] == Val(o.value);
    }
  }

  class Archive<T> {
    /** An input archive (loading) or an output archive (saving). */
    const isLoading: bool
    var items: seq<Item<T>>
    /** The position of the next item an input archive reads. */
    var pos: nat

    ghost predicate Valid()
      reads this
    {
      pos <= |items|
    }

    constructor Output()
      ensures Valid() && !isLoading && items == [] && pos == 0
    {
      isLoading := false;
      items := [];
      pos := 0;
    }

    constructor Input(items: seq<Item<T>>)
      ensures Valid() && isLoading && this.items == items && pos == 0
    {
      isLoading := true;
      this.items := items;
      pos := 0;
    }

    /** `archive << x` for an item. */
    method Put(x: Item<T>)
      requires !isLoading
      modifies this`items
      ensures items == old(items) + [x]
    {
      items := items + [x];
    }

    /** `archive >> n` for an integer. */
    method GetCount() returns (r: Option<int>)
      requires isLoading && Valid()
      modifies this`pos
      ensures Valid()
      ensures var read := ReadCount(items, old(pos));
        && r == (if read.Some? then Some(read.value.0) else None)
        && pos == (if read.Some? then read.value.1 else old(pos))
    {
      var read := ReadCount(items, pos);
      if read.Some? {
        r := Some(read.value.0);
        pos := read.value.1;
      } else {
        r := None;
      }
    }

    /** `archive << o` for an optional value: a flag, then the value when it is set. */
    method PutOptional(o: Option<T>)
      requires !isLoading
      modifies this`items
      ensures items == old(items) + EncodeOptional(o)
    {
      match o
      case None =>
        Put(Flag(false));
      case Some(v) =>
        Put(Flag(true));
        Put(Val(v));
    }

    /** `archive >> o` for an optional value. */
    method GetOptional() returns (r: Option<Option<T>>)
      requires isLoading && Valid()
      modifies this`pos
      ensures Valid()
      ensures var read := DecodeOptional(items, old(pos));
        && r == (if read.Some? then Some(read.value.0) else None)
        && pos == (if read.Some? then read.value.1 else old(pos))
    {
      var read := DecodeOptional(items, pos);
      if read.Some? {
        r := Some(read.value.0);
        pos := read.value.1;
      } else {
        r := None;
      }
    }
  }
}
