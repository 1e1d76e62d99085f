# dr_log in Dafny

A model of the core of `dr_log`, a small C++ logging library built on Boost.Log, with proofs about it. The library defines:

- a six-level severity enum (`debug`, `info`, `success`, `warning`, `error`, `fatal`/`critical`) and per-level tables: a fixed-width display tag, a lower-case name, an ANSI colour code and a syslog priority;
- the text layout `[timestamp] [severity] [node] message` of its file and console sinks, and a colour formatter that wraps the layout for the console;
- `setupLogging`, which installs global attributes and registers a console, a syslog and a file sink with the process-wide Boost.Log core. The file sink removes itself and logs an error when a write fails; if it cannot be constructed, one error is logged and a null sink is registered;
- a log4cxx appender that forwards log4cxx events into the library, with an optional migration warning;
- `TimedAction<T>`, a record of an action's start, end, result value and failure reason, with Boost.Serialization support for it and for `std::chrono` durations and time points.

Modules, one per concern:

| file | module | models |
|---|---|---|
| `wrappers.dfy` | `Wrappers` | `Option`, used for missing attributes and failed archive reads |
| `levels.dfy` | `Levels` | `enum class LogLevel` as its underlying 32-bit code; tag, name and colour tables |
| `syslog.dfy` | `Syslog` | the `severityMapping` table and Boost.Log's default for missing entries |
| `format.dfy` | `Format` | the `text_format` layout and `AnsiColorFormatter` |
| `core.dfy` | `Core` | the logging core's sink list, global attributes and pushed records; sink creation; `setupLogging` |
| `log4cxx.dfy` | `Log4cxx` | `fromLog4Cxx`, `DrLog4cxxAppender::append`, `registerLog4cxxAppenders` |
| `archives.dfy` | `Archives` | a serialisation archive as a sequence of items, input or output |
| `chrono.dfy` | `Chrono` | durations and time points with `load`/`save`/`serialize` |
| `timed_action.dfy` | `TimedActions` | `TimedAction<T>` with `load`/`save`/`serialize` |

A level is modelled as its integer code, not as one of six enumerators. This keeps the out-of-range branches of the tables reachable. The conversion `std::size_t numeric = int(level)` is modelled explicitly, so a negative code becomes a value of at least 2^64 - 2^31, far above the table size, and takes the out-of-range branch, as it does in C++.

The state-changing parts are classes. `LoggingCore` stands for the Boost.Log core: its sink list, attribute map and the records pushed into it. Each pushed record is stored with the sinks registered at that moment, which are the sinks the core routes it to. `FormattingStream` stands for the output stream, `Archive` for a Boost archive, and `TimedAction` and the log4cxx `RootLogger` for their C++ counterparts. Each method states its complete new state, including after a failed archive read, either in terms of the specification functions or of the old state. The properties are proved as lemmas about those functions.

Level 5 is called `critical` in the header (`include/dr_log/dr_log.hpp:17`), but `fatal` in every table of `src/dr_log.cpp` and in `src/log4cxx.cpp`. The model uses `Fatal`.

Boost behaviour the model relies on:

- `core::add_sink` does not add a sink that is already registered;
- `core::remove_sink` erases the first match and ignores a sink that is absent;
- `add_global_attribute` keeps an attribute that is already set;
- `add_common_attributes` installs `LineID`, `TimeStamp`, `ProcessID` and `ThreadID`;
- `custom_severity_mapping` answers syslog `info` for a level it has no entry for;
- `core::add_sink` accepts a null sink and registers it (the model keeps it in the sink list, and records pushed afterwards list it among their routes);
- `std::setw(5)` applies to the next string written. When a record has no severity, that is the literal `] `, so the field comes out as `[   ] `.

## Model

| member | source | states |
|---|---|---|
| Levels.DeclaredCodes | include/dr_log/dr_log.hpp:11-18 | there are six enumerators; the one at position i has code i, so `debug` is 0 and the rest follow in order up to 5 |
| Levels.DeclaredRange | include/dr_log/dr_log.hpp:11-18 | a code is one of the enumerators exactly when it lies in 0..5 |
| Levels.DeclarationOrder | include/dr_log/dr_log.hpp:11-18 | an enumerator declared later has a larger code: debug < info < success < warning < error < fatal |
| Levels.HighestLevelTables | include/dr_log/dr_log.hpp:17 | code 5 is the last enumerator; the tag and name tables have one entry per enumerator, and their last entries, `FATAL` and `fatal`, are the ones code 5 gets |
| Levels.Numeric | src/dr_log.cpp:56-57 | the `size_t` conversion is below the table size 6 exactly when the code is in 0..5; a non-negative code keeps its value |
| Levels.DisplayTag | src/dr_log.cpp:46-64 | an enumerator gets its table entry, any other code gets `?????`, and the other direction holds too; the tag is never empty and at most 5 characters |
| Levels.DisplayTagInjective | src/dr_log.cpp:47-54 | different enumerators have different display tags |
| Levels.Name | src/dr_log.cpp:191-209 | an enumerator gets its lower-case name, `debug` to `fatal`; any other code gets `unknown`, and only such codes do |
| Levels.NameInjective | src/dr_log.cpp:192-199 | different enumerators have different names |
| Levels.ColorPrefix | src/dr_log.cpp:84-105 | an enumerator gets a non-empty prefix, any other code gets none; every prefix is a complete SGR escape sequence |
| Levels.ColorPrefixDistinctions | src/dr_log.cpp:85-102 | `info` gets the reset code; `error` differs from both `fatal` and `warning` |
| Syslog.SyslogLevel.Code | src/dr_log.cpp:125-130 | syslog priorities are numbered below 8, from most to least severe |
| Syslog.SeverityMapping | src/dr_log.cpp:123-132 | the table has an entry for exactly the six enumerators |
| Syslog.Priority | src/dr_log.cpp:123-132 | an enumerator gets its table entry; any other code gets the default, syslog `info` |
| Syslog.PriorityMonotone | src/dr_log.cpp:125-130 | a more severe level never gets a less severe syslog priority |
| Syslog.PriorityDistinctions | src/dr_log.cpp:127-130 | `success` and `info` both map to syslog `info`; `fatal` maps to `critical`, the most severe priority any level gets; `error` and `fatal` map to different priorities |
| Format.PadLeft | src/dr_log.cpp:137 | right alignment: the result has the field width or the string's length, whichever is larger; it ends with the string and everything before it is spaces |
| Format.TextFormat | src/dr_log.cpp:135-139 | a line starts with `[timestamp] ` and ends with the message |
| Format.SeverityFieldWidth | src/dr_log.cpp:137 | with a severity the bracketed field is exactly 5 characters for every code, in or out of range; removing its padding gives back the tag; the whole line is `[ts] [field] [node] message` |
| Format.SeverityFieldMissing | src/dr_log.cpp:137 | without a severity the line is `[ts] [   ] [node] message` |
| Format.ColorLine | src/dr_log.cpp:80-112 | the coloured line ends with the reset code, and the inner formatter's line sits just before it |
| Format.Uncolor | src/dr_log.cpp:80-112 | whatever is recovered, coloured again, gives back the line it was taken from |
| Format.UncolorColorLine | src/dr_log.cpp:80-112 | taking off the prefix and the reset gives back exactly the inner line, for every severity, including a missing or unknown one |
| Format.ColorLineDefaults | src/dr_log.cpp:81-111 | a missing severity is coloured as `info`; an unknown code gets no prefix but still the final reset |
| Format.ConsoleLine | src/dr_log.cpp:146 | removing the colour from a console line gives back the base text layout of the record |
| Format.FormattingStream.Write | src/dr_log.cpp:86-111 | `stream << s`: the stream's text gains exactly `s` at its end |
| Format.AnsiColorFormatter.constructor | src/dr_log.cpp:74-77 | the formatter keeps the inner formatter it is given |
| Format.AnsiColorFormatter.Format | src/dr_log.cpp:80-112 | the stream gains exactly the severity's colour, then the inner formatter's output, then the reset |
| Core.WithSink | src/dr_log.cpp:219-221 | the sink is registered afterwards; the old sinks keep their order and come first; at most one entry is added, and exactly one when the sink was absent; a list without duplicates stays without duplicates |
| Core.WithoutSink | src/dr_log.cpp:177 | an absent sink changes nothing; otherwise exactly one occurrence of the sink is removed and nothing else |
| Core.WithoutSinkIsolates | src/dr_log.cpp:177 | in a list without duplicates, removal leaves no copy of the sink, exactly the other sinks and still no duplicates |
| Core.WithoutSinkNoDuplicates | src/dr_log.cpp:177 | removal keeps a list free of duplicates |
| Core.WithoutSinkRemovesAll | src/dr_log.cpp:177 | in a list without duplicates, the removed sink is gone |
| Core.WithoutSinkKeepsOthers | src/dr_log.cpp:177 | every other sink is registered afterwards exactly when it was before |
| Core.WithoutSinkShifts | src/dr_log.cpp:177 | the sinks before the removed one keep their places and those after it move up by one |
| Core.WithAttribute | src/dr_log.cpp:216 | the name is set afterwards; an attribute that was already set is not replaced; a new one gets the value and no other attribute changes |
| Core.WithCommonAttributes | src/dr_log.cpp:215 | the attribute names afterwards are the old ones plus `LineID`, `TimeStamp`, `ProcessID` and `ThreadID` |
| Core.WriteErrorEvent | src/dr_log.cpp:178 | the write error is an `error` record whose message starts with ``Error writing log file: ` `` followed by the file name |
| Core.CreateErrorEvent | src/dr_log.cpp:185 | the construction error is an `error` record whose message starts with ``Failed to create log file ` `` followed by the file name |
| Core.LoggingCore.constructor | src/dr_log.cpp:212 | the core `log::core::get()` returns before any setup: no sinks, no attributes, no records |
| Core.LoggingCore.Emit | src/dr_log.cpp:178 | one record is pushed, routed to the sinks registered at that moment; nothing else changes |
| Core.LoggingCore.AddSink | src/dr_log.cpp:219-221 | the sink list becomes `WithSink` of the old one; only the sinks change |
| Core.LoggingCore.RemoveSink | src/dr_log.cpp:177 | the sink list becomes `WithoutSink` of the old one: the sink is gone and every other sink is registered exactly when it was before |
| Core.LoggingCore.CreateConsoleSink | src/dr_log.cpp:142-148 | a new console sink, distinct from every sink created before |
| Core.LoggingCore.CreateSyslogSink | src/dr_log.cpp:151-160 | a new syslog sink, distinct from every sink created before |
| Core.LoggingCore.CreateFileSink | src/dr_log.cpp:164-188 | on success, a new file sink for the file and no record; on failure, the null sink and exactly one construction error naming the file |
| Core.LoggingCore.FileSinkFailed | src/dr_log.cpp:175-179 | the failing sink is removed and no other sink changes; then exactly one write error naming its file is pushed and routed to the remaining sinks |
| Core.LoggingCore.SetupLogging | src/dr_log.cpp:211-222 | the common attributes and `Node := name` are installed; a console sink, a syslog sink and the file sink are appended in that order. When the file sink fails, the null sink is appended (if not already registered) after one error that reaches the console and syslog sinks |
| Core.LoggingCore.AddSinks | src/dr_log.cpp:219-221 | the sink registrations of `setupLogging`, as in `SinksRegistered` |
| Log4cxx.FromLog4Cxx | src/log4cxx.cpp:10-20 | the result is always an enumerator and never `success`; it is `debug` exactly for TRACE and DEBUG, and `info` exactly for INFO and the levels without a case (ALL, OFF) |
| Log4cxx.FromLog4CxxMonotone | src/log4cxx.cpp:11-18 | among the levels with a case, a more severe log4cxx level never maps to a less severe level |
| Log4cxx.Bridged | src/log4cxx.cpp:37-40 | two records with `warn`, one without; the first carries the mapped level and the message; all are at the event's file and line; the second is a `warning` with the fixed migration text |
| Log4cxx.Log4cxxAppender.constructor | src/log4cxx.cpp:30 | the appender keeps its `warn` flag |
| Log4cxx.Log4cxxAppender.Append | src/log4cxx.cpp:33-41 | the core gains exactly the records of `Bridged`, in order, each routed to the registered sinks |
| Log4cxx.RootLogger.AddAppender | src/log4cxx.cpp:54 | the appender is appended unless it is already attached |
| Log4cxx.RegisterLog4cxxAppenders | src/log4cxx.cpp:52-55 | exactly one appender is added, after the existing ones; it is new and has `warn` set |
| Archives.ReadCount | include/dr_log/serialize/chrono.hpp:11 | a read succeeds exactly when an integer is next; it returns that integer and moves past it |
| Archives.EncodeOptional | include/dr_log/serialize/timed_action.hpp:30 | an empty value takes one item, a set value two |
| Archives.DecodeOptional | include/dr_log/serialize/timed_action.hpp:20 | a successful read consumes exactly the items saving the value it returns would write |
| Archives.OptionalRoundTrip | include/dr_log/serialize/timed_action.hpp:20-30 | reading an optional value back after saving it gives the value, whatever comes before or after it |
| Archives.Archive.Put | include/dr_log/serialize/chrono.hpp:17 | an output archive gains exactly the item |
| Archives.Archive.GetCount | include/dr_log/serialize/chrono.hpp:11 | an input archive reads the integer `ReadCount` finds and advances past it; a failed read leaves the position where it was |
| Archives.Archive.PutOptional | include/dr_log/serialize/timed_action.hpp:30 | an output archive gains exactly the items of `EncodeOptional` |
| Archives.Archive.GetOptional | include/dr_log/serialize/timed_action.hpp:20 | an input archive reads the value `DecodeOptional` finds and advances past it; a failed read leaves the position where it was |
| Chrono.Since | include/dr_log/timed_action.hpp:50 | the difference of two time points, added to the second, gives the first |
| Chrono.After | include/dr_log/serialize/timed_action.hpp:21 | a time point plus a duration lies that far after the time point |
| Chrono.AfterSince | include/dr_log/serialize/timed_action.hpp:21 | adding the difference `a - b` to `b` gives `a` |
| Chrono.EncodeDuration | include/dr_log/serialize/chrono.hpp:16-18 | saving a duration writes one item, its count; `DurationRoundTrip` shows that loading reads it back |
| Chrono.DecodeDuration | include/dr_log/serialize/chrono.hpp:9-13 | a successful read consumes exactly one item, the one saving the returned duration writes |
| Chrono.DurationRoundTrip | include/dr_log/serialize/chrono.hpp:9-18 | loading what saving a duration wrote gives the same duration and consumes one item |
| Chrono.EncodeTimePoint | include/dr_log/serialize/chrono.hpp:33-35 | saving a time point writes the encoding of its duration since the epoch; `TimePointRoundTrip` shows that loading reads it back |
| Chrono.DecodeTimePoint | include/dr_log/serialize/chrono.hpp:26-30 | a successful read consumes exactly the item saving the returned time point writes |
| Chrono.TimePointRoundTrip | include/dr_log/serialize/chrono.hpp:26-35 | loading what saving a time point wrote gives the same time point |
| Chrono.SaveDuration | include/dr_log/serialize/chrono.hpp:16-18 | the archive gains exactly the duration's count |
| Chrono.LoadDuration | include/dr_log/serialize/chrono.hpp:9-13 | the result is the duration with the count read, or none when no integer is next; the position moves past the item read, and stays on a failed read |
| Chrono.SerializeDuration | include/dr_log/serialize/chrono.hpp:21-23 | an output archive is saved to; an input archive is loaded from and its items are unchanged |
| Chrono.SaveTimePoint | include/dr_log/serialize/chrono.hpp:33-35 | the archive gains exactly the encoding of the time since the epoch |
| Chrono.LoadTimePoint | include/dr_log/serialize/chrono.hpp:26-30 | the result is the epoch plus the duration read, or none when the read fails; the position moves past the item read, and stays on a failed read |
| Chrono.SerializeTimePoint | include/dr_log/serialize/chrono.hpp:38-40 | an output archive is saved to; an input archive is loaded from |
| TimedActions.TimedAction.constructor | include/dr_log/timed_action.hpp:14-17 | a new action has both time points at the epoch, no value and an empty reason |
| TimedActions.TimedAction.Start | include/dr_log/timed_action.hpp:20-22 | only the start changes, to the clock reading given |
| TimedActions.TimedAction.Success | include/dr_log/timed_action.hpp:25-27 | only the value changes; afterwards it holds `v` and the action has succeeded |
| TimedActions.TimedAction.Failure | include/dr_log/timed_action.hpp:29-31 | only the reason changes; `failureReason()` returns it and whether the action succeeded is unchanged |
| TimedActions.TimedAction.Value | include/dr_log/timed_action.hpp:33-35 | the stored optional value, as `Success` sets it |
| TimedActions.TimedAction.Succeeded | include/dr_log/timed_action.hpp:37-39 | true exactly when `value()` holds a value |
| TimedActions.TimedAction.FailureReason | include/dr_log/timed_action.hpp:41-43 | the stored reason, as `Failure` sets it |
| TimedActions.TimedAction.AsBool | include/dr_log/timed_action.hpp:45-47 | `operator bool` gives the same answer as `succeeded()`, which holds exactly when a value is set |
| TimedActions.TimedAction.Duration | include/dr_log/timed_action.hpp:49-51 | the duration added to the start gives the end |
| TimedActions.TimedAction.TimeSince | include/dr_log/timed_action.hpp:53-56 | the result added to the other action's start gives this action's end |
| TimedActions.TimeSinceSelf | include/dr_log/timed_action.hpp:53-56 | the time since an action's own start is its duration |
| TimedActions.EncodeAction | include/dr_log/serialize/timed_action.hpp:25-31 | the saved form is one item for the start, one for the duration, then the optional value |
| TimedActions.DecodeAction | include/dr_log/serialize/timed_action.hpp:13-22 | reads start, duration and value in that order; a successful read consumes exactly the items saving them would write |
| TimedActions.Loaded | include/dr_log/serialize/timed_action.hpp:18-21 | defined exactly when the items decode; then the end is the start read plus the duration read, and the reason is the target's |
| TimedActions.LoadEffect | include/dr_log/serialize/timed_action.hpp:13-22 | succeeds exactly when the items decode, and then gives the `Loaded` state and the position after the saved items; the reason is always kept; on failure the end and the value are kept, the start is the one read if that read succeeded (else the old one), and the position stays after the last item read |
| TimedActions.SaveLoadRoundTrip | include/dr_log/serialize/timed_action.hpp:13-31 | loading what saving an action wrote restores its start, end (via the duration) and value, keeps the target's reason and consumes exactly the saved items, whatever surrounds them |
| TimedActions.SaveTimedAction | include/dr_log/serialize/timed_action.hpp:25-31 | the archive gains exactly start, duration and value, in that order |
| TimedActions.LoadTimedAction | include/dr_log/serialize/timed_action.hpp:13-22 | the success flag, the new state of the action and the new read position are those of `LoadEffect`, on success and on every kind of failure |
| TimedActions.SerializeTimedAction | include/dr_log/serialize/timed_action.hpp:34-36 | saves on an output archive, leaving the action and the read position unchanged; loads on an input archive, with the outcome of `LoadEffect` |

## Left out

- The Boost.Log backends write to `std::clog`, to syslog and to files; these are I/O and are not modelled. A sink is an identity with the kind of destination it writes to. The model records which sinks each record is routed to, not what the backends write.
- Thread safety of `synchronous_sink` and the `shared_ptr`/`weak_ptr` conversions (`src/dr_log.cpp:26-40`, `174-177`) are ownership and concurrency plumbing, not modelled. `FileSinkFailed` takes the failing sink directly.
- Timestamp rendering with `%Y-%m-%d %H:%M:%S.%f` is Boost date-time formatting. A record's timestamp is the text it renders to.
- Core.LoggingCore.CreateFileSink: whether constructing the file backend throws is a parameter (`openError`), because it depends on the file system. A real `text_file_backend` opens its file lazily, so in practice the failure usually shows up later, as a write error (`FileSinkFailed`).
- Core.LoggingCore.FileSinkFailed: when the sink's exception handler fires is decided by the backend's I/O. It is modelled as a method the environment calls.
- Core.WriteErrorEvent: the record's location is written as `src/dr_log.cpp` and the line of the logging call. The real `__FILE__` depends on the build.
- TimedActions.TimedAction.Start: `Clock::now()` is a parameter. No method of `TimedAction` sets the end; only loading and construction do, as in the source.
- Chrono.Since: durations and time points are unbounded integers. The 64-bit overflow of `steady_clock` arithmetic is not modelled.
- Archives.Archive.PutOptional: Boost's optional serialisation also writes an `item_version` for a set value. The model writes only the flag and the value.
- TimedActions.LoadTimedAction: the serialisers in the source take the action by `const &`. They load into `start()`, a `void` method, and into the `const` getter `value()`, and they assign to an `end()` that the class does not have, so they could not compile as written. The model follows the evident intent: read the start and the value into the action, then set the end to start plus duration.
- Log4cxx.Log4cxxAppender.Append: `src/log4cxx.cpp:37` and `39` apply `->` to the reference `location`, which could not compile either. The model reads the event's file name and line number from the location, the evident intent.
- TimedActions.TimedAction.TimeSince: `include/dr_log/timed_action.hpp:53-56` reads the private `start_` of a `TimedAction<Y>`, a different specialisation, which C++ does not allow without a friend declaration. The model reads the other action's start, the evident intent.
- TimedActions.SaveTimedAction: for the same reason, saving is modelled as writing the start time point, the `duration()` and the `value()`.
- Log4cxx events, levels and the root logger are represented only by what the appender reads. `AppenderSkeleton`, `close`, `requiresLayout` and the `Level::toInt` constants are log4cxx internals.
- The library's other syslog settings (facility `user`, native transport) have no effect on the modelled state.
- `src/test.cpp` is a smoke-test program that only performs I/O; it is not part of this model.
- Core.LoggingCore.Emit: what the Boost.Log core does with a registered null sink when a record is pushed is not modelled. `setupLogging` registers the null file sink when its construction failed (`src/dr_log.cpp:186`, `221`); in the model that entry is only listed among the routes of later records, and whether the real core dereferences it is left open.
- `setupLogging` has no rate limiting and no guard against a second initialisation, and the model adds neither. An empty log-file path is not skipped either.
