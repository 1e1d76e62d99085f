/**
 * The process-wide logging core as the library sets it up: an ordered list
 * of registered sinks, a table of global attributes, and the records pushed
 * into it. Sinks are identities (the frontend objects of the library) with
 * the kind of destination they write to; what a backend does with a record
 * is not part of the model. Each pushed record is kept together with the
 * sinks the core routes it to, which are the sinks registered at that moment.
 */
module Core {
  import opened Wrappers
  import opened Levels

  datatype SinkKind = Console | Syslog | File(fileName: string)

  /** A sink as handed to the core: null, or a distinct sink object. */
  datatype SinkRef = NullSink | Sink(id: nat, kind: SinkKind)

  datatype Location = Location(file: string, line: int)

  /** A record as a call site creates it: severity, source location and message text. */
  datatype LogEvent = LogEvent(severity: LogLevel, location: Location, message: string)

  /** A record pushed into the core, with the sinks registered when it was pushed. */
  datatype Emission = Emission(event: LogEvent, routedTo: seq<SinkRef>)

  /** Records pushed one after the other while the same sinks are registered. */
  function RoutedTo(events: seq<LogEvent>, sinks: seq<SinkRef>): (r: seq<Emission>)
    ensures |r| == |events|
    ensures forall i :: 0 <= i < |r| ==> r[i] == Emission(events[i], sinks)
  {
    if events == [] then [] else [Emission(events[0], sinks)] + RoutedTo(events[1..], sinks)
  }

  /** The values of the global attributes the library installs. */
  datatype AttributeValue =
    | Constant(text: string)
    | Counter
    | LocalClock
    | CurrentProcessId
    | CurrentThreadId

  predicate NoDuplicates(s: seq<SinkRef>) {
    forall i, j :: 0 <= i < j < |s| ==> s[i] != s[j]
  }

  /** The core's `add_sink`: a sink that is already registered is not added a second time. */
  function WithSink(sinks: seq<SinkRef>, s: SinkRef): (r: seq<SinkRef>)
    ensures s in r && sinks <= r && |r| <= |sinks| + 1
    ensures forall x :: x in r <==> x in sinks || x == s
    ensures NoDuplicates(sinks) ==> NoDuplicates(r)
    ensures s !in sinks ==> |r| == |sinks| + 1
  {
    if s in sinks then sinks else sinks + [s]
  }

  /** The position of the first occurrence of `s`. */
  function IndexOf(sinks: seq<SinkRef>, s: SinkRef): (i: nat)
    requires s in sinks
    ensures i < |sinks| && sinks[i] == s
    ensures forall j :: 0 <= j < i ==> sinks[j] != s
  {
    if sinks[0] == s then 0 else 1 + IndexOf(sinks[1..], s)
  }

  /** The core's `remove_sink`: the first occurrence of `s` is erased, an absent sink is ignored. */
  function WithoutSink(sinks: seq<SinkRef>, s: SinkRef): (r: seq<SinkRef>)
    ensures s !in sinks ==> r == sinks
    ensures multiset(r) == multiset(sinks) - multiset{s}
  {
    if s in sinks then
      var i := IndexOf(sinks, s);
      assert sinks == sinks[..i] + [s] + sinks[i + 1..];
      sinks[..i] + sinks[i + 1..]
    else sinks
  }

  /**
   * Removing a sink from a list without duplicates removes it entirely and
   * leaves every other sink registered, in its old order.
   */
  lemma WithoutSinkIsolates(sinks: seq<SinkRef>, s: SinkRef)
    requires NoDuplicates(sinks)
    ensures var r := WithoutSink(sinks, s);
      && NoDuplicates(r)
      && s !in r
      && (forall x :: x != s ==> (x in r <==> x in sinks))
  {
    WithoutSinkNoDuplicates(sinks, s);
    WithoutSinkRemovesAll(sinks, s);
    forall x | x != s ensures x in WithoutSink(sinks, s) <==> x in sinks {
      WithoutSinkKeepsOthers(sinks, s, x);
    }
  }

  lemma WithoutSinkNoDuplicates(sinks: seq<SinkRef>, s: SinkRef)
    requires NoDuplicates(sinks)
    ensures NoDuplicates(WithoutSink(sinks, s))
  {
    if s in sinks {
      var r := WithoutSink(sinks, s);
      var i := IndexOf(sinks, s);
      WithoutSinkShifts(sinks, s);
      forall a, b | 0 <= a < b < |r| ensures r[a] != r[b] {
        assert r[a] == sinks[if a < i then a else a + 1];
        assert r[b] == sinks[if b < i then b else b + 1];
      }
    }
  }

  lemma WithoutSinkRemovesAll(sinks: seq<SinkRef>, s: SinkRef)
    requires NoDuplicates(sinks)
    ensures s !in WithoutSink(sinks, s)
  {
    if s in sinks {
      var r := WithoutSink(sinks, s);
      var i := IndexOf(sinks, s);
      WithoutSinkShifts(sinks, s);
      forall k | 0 <= k < |r| ensures r[k] != s {
        assert r[k] == sinks[if k < i then k else k + 1];
      }
    }
  }

  /** A sink other than the removed one is registered afterwards exactly when it was before. */
  lemma WithoutSinkKeepsOthers(sinks: seq<SinkRef>, s: SinkRef, x: SinkRef)
    requires x != s
    ensures x in WithoutSink(sinks, s) <==> x in sinks
  {
    var r := WithoutSink(sinks, s);
    if s in sinks {
      var i := IndexOf(sinks, s);
      WithoutSinkShifts(sinks, s);
      if x in sinks {
        var k :| 0 <= k < |sinks| && sinks[k] == x;
        assert x == r[if k < i then k else k - 1];
      }
      if x in r {
        var k :| 0 <= k < |r| && r[k] == x;
        assert x == sinks[if k < i then k else k + 1];
      }
    }
  }

  /** After the removal, the sinks before the removed one keep their place and the rest move up by one. */
  lemma WithoutSinkShifts(sinks: seq<SinkRef>, s: SinkRef)
    requires s in sinks
    ensures var r := WithoutSink(sinks, s);
      && |r| == |sinks| - 1
      && forall k :: 0 <= k < |r| ==> r[k] == sinks[if k < IndexOf(sinks, s) then k else k + 1]
  {
  }

  /** The core's `add_global_attribute`: an attribute that is already set keeps its value. */
  function WithAttribute(attributes: map<string, AttributeValue>, name: string, value: AttributeValue)
    : (r: map<string, AttributeValue>)
    ensures r.Keys == attributes.Keys + {name}
    ensures name in attributes ==> r == attributes
    ensures name !in attributes ==> r[name] == value && forall k :: k in attributes ==> r[k] == attributes[k]
  {
    if name in attributes then attributes else attributes[name := value]
  }

  /** `add_common_attributes`: line counter, timestamp, process and thread id, each unless already set. */
  function WithCommonAttributes(attributes: map<string, AttributeValue>): (r: map<string, AttributeValue>)
    ensures r.Keys == attributes.Keys + {"LineID", "TimeStamp", "ProcessID", "ThreadID"}
  {
    var a := WithAttribute(attributes, "LineID", Counter);
    var b := WithAttribute(a, "TimeStamp", LocalClock);
    var c := WithAttribute(b, "ProcessID", CurrentProcessId);
    WithAttribute(c, "ThreadID", CurrentThreadId)
  }

  /** Where the library's own diagnostics say they come from. */
  const SourceFile: string := "src/dr_log.cpp"

  const WriteErrorText: string := "Error writing log file: `"
  const CreateErrorText: string := "Failed to create log file `"

  /** The error the file sink's exception handler logs. */
  function WriteErrorEvent(fileName: string, what: string): (e: LogEvent)
    ensures e.severity == Levels.Error
    ensures |e.message| >= |WriteErrorText| + |fileName|
    ensures e.message[..|WriteErrorText|] == WriteErrorText
    ensures e.message[|WriteErrorText|..|WriteErrorText| + |fileName|] == fileName
  {
    var m := WriteErrorText + fileName + "' " + what;
    assert m == WriteErrorText + (fileName + ("' " + what));
    LogEvent(Levels.Error, Location(SourceFile, 178), m)
  }

  /** The error logged when the file sink cannot be constructed. */
  function CreateErrorEvent(fileName: string, what: string): (e: LogEvent)
    ensures e.severity == Levels.Error
    ensures |e.message| >= |CreateErrorText| + |fileName|
    ensures e.message[..|CreateErrorText|] == CreateErrorText
    ensures e.message[|CreateErrorText|..|CreateErrorText| + |fileName|] == fileName
  {
    var m := CreateErrorText + fileName + "': " + what;
    assert m == CreateErrorText + (fileName + ("': " + what));
    LogEvent(Levels.Error, Location(SourceFile, 185), m)
  }

  class LoggingCore {
    /** The registered sinks, in registration order. */
    var sinks: seq<SinkRef>
    /** The global attributes attached to every record. */
    var attributes: map<string, AttributeValue>
    /** Every record pushed into the core so far. */
    var emitted: seq<Emission>
    /** The identity the next sink object created will have. */
    var nextId: nat

    ghost predicate Valid()
      reads this
    {
      && NoDuplicates(sinks)
      && forall s :: s in sinks && s.Sink? ==> s.id < nextId
    }

    constructor ()
      ensures Valid()
      ensures sinks == [] && attributes == map[] && emitted == [] && nextId == 0
    {
      sinks := [];
      attributes := map[];
      emitted := [];
      nextId := 0;
    }

    /** Pushes a record into the core, which routes it to every registered sink. */
    method Emit(event: LogEvent)
      modifies this`emitted
      ensures emitted == old(emitted) + [Emission(event, sinks)]
    {
      emitted := emitted + [Emission(event, sinks)];
    }

    method AddSink(s: SinkRef)
      requires Valid()
      requires s.Sink? ==> s.id < nextId
      modifies this`sinks
      ensures Valid()
      ensures sinks == WithSink(old(sinks), s)
    {
      sinks := WithSink(sinks, s);
    }

    method RemoveSink(s: SinkRef)
      requires Valid()
      modifies this`sinks
      ensures Valid()
      ensures sinks == WithoutSink(old(sinks), s)
      ensures s !in sinks
      ensures forall x :: x != s ==> (x in sinks <==> x in old(sinks))
    {
      WithoutSinkIsolates(sinks, s);
      sinks := WithoutSink(sinks, s);
    }

    /** A new sink object, distinct from every sink created before. */
    method NewSink(kind: SinkKind) returns (s: SinkRef)
      requires Valid()
      modifies this`nextId
      ensures Valid()
      ensures s == Sink(old(nextId), kind) && nextId == old(nextId) + 1
    {
      s := Sink(nextId, kind);
      nextId := nextId + 1;
    }

    method CreateConsoleSink() returns (s: SinkRef)
      requires Valid()
      modifies this`nextId
      ensures Valid()
      ensures s == Sink(old(nextId), Console) && nextId == old(nextId) + 1
    {
      s := NewSink(Console);
    }

    method CreateSyslogSink() returns (s: SinkRef)
      requires Valid()
      modifies this`nextId
      ensures Valid()
      ensures s == Sink(old(nextId), Syslog) && nextId == old(nextId) + 1
    {
      s := NewSink(Syslog);
    }

    /**
     * Creates the file sink. `openError` is the message of the exception the
     * backend's construction throws, if it throws: then the result is the
     * null sink and one error naming the file is logged.
     */
    method CreateFileSink(fileName: string, openError: Option<string>) returns (s: SinkRef)
      requires Valid()
      modifies this`nextId, this`emitted
      ensures Valid()
      ensures openError.None? ==>
        && s == Sink(old(nextId), File(fileName))
        && nextId == old(nextId) + 1
        && emitted == old(emitted)
      ensures openError.Some? ==>
        && s == NullSink
        && nextId == old(nextId)
        && emitted == old(emitted) + [Emission(CreateErrorEvent(fileName, openError.value), sinks)]
    {
      match openError
      case None =>
        s := NewSink(File(fileName));
      case Some(what) =>
        Emit(CreateErrorEvent(fileName, what));
        s := NullSink;
    }

    /**
     * The exception handler installed on a file sink: the sink takes itself
     * out of the core, then logs one error naming its file, which the sinks
     * that remain receive.
     */
    method FileSinkFailed(s: SinkRef, what: string)
      requires Valid()
      requires s.Sink? && s.kind.File?
      modifies this`sinks, this`emitted
      ensures Valid()
      ensures sinks == WithoutSink(old(sinks), s)
      ensures s !in sinks
      ensures forall x :: x != s ==> (x in sinks <==> x in old(sinks))
      ensures emitted == old(emitted) + [Emission(WriteErrorEvent(s.kind.fileName, what), sinks)]
    {
      RemoveSink(s);
      Emit(WriteErrorEvent(s.kind.fileName, what));
    }

    /**
     * The state after `setupLogging` registered its sinks, starting from the
     * sinks `sinks0`, the next identity `id0` and the records `emitted0`: a new
     * console sink, then a new syslog sink, then the file sink, which is
     * either a new sink or, when its construction failed, the null sink
     * (then added only if no null sink is registered yet), after which one
     * error reaches the console and syslog sinks.
     */
    ghost predicate SinksRegistered(
      sinks0: seq<SinkRef>, id0: nat, emitted0: seq<Emission>, logFile: string, openError: Option<string>)
      reads this
    {
      var console := Sink(id0, Console);
      var syslog := Sink(id0 + 1, Syslog);
      && nextId == id0 + (if openError.None? then 3 else 2)
      && (openError.None? ==>
           && sinks == sinks0 + [console] + [syslog] + [Sink(id0 + 2, File(logFile))]
           && emitted == emitted0)
      && (openError.Some? ==>
           && sinks == WithSink(sinks0 + [console] + [syslog], NullSink)
           && emitted == emitted0 + [Emission(CreateErrorEvent(logFile, openError.value), sinks0 + [console] + [syslog])])
    }

    /**
     * `setupLogging`: installs the common attributes and the `Node` attribute,
     * then registers a console, a syslog and a file sink, in that order. The
     * file sink is registered even when its construction failed and it is null.
     */
    method SetupLogging(logFile: string, name: string, openError: Option<string>)
      requires Valid()
      modifies this
      ensures Valid()
      ensures attributes == WithAttribute(WithCommonAttributes(old(attributes)), "Node", Constant(name))
      ensures SinksRegistered(old(sinks), old(nextId), old(emitted), logFile, openError)
    {
      // add_common_attributes(), then add_global_attribute("Node", ...).
      attributes := WithAttribute(WithCommonAttributes(attributes), "Node", Constant(name));
      AddSinks(logFile, openError);
    }

    /** The sink registrations of `setupLogging`: console, syslog, then the file sink. */
    method AddSinks(logFile: string, openError: Option<string>)
      requires Valid()
      modifies this`sinks, this`nextId, this`emitted
      ensures Valid()
      ensures SinksRegistered(old(sinks), old(nextId), old(emitted), logFile, openError)
    {
      var console := CreateConsoleSink();
      assert console !in sinks;
      AddSink(console);
      var syslog := CreateSyslogSink();
      assert syslog !in sinks;
      AddSink(syslog);
      var file := CreateFileSink(logFile, openError);
      assert file.Sink? ==> file !in sinks;
      AddSink(file);
    }
  }
}
