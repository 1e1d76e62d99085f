/**
 * Formatters: the base text layout shared by the console and the file sink,
 * and the colour formatter that wraps another formatter for the console.
 *
 * A formatter sees a record through its attribute values. The timestamp is
 * kept as the text it renders to; the severity and the node name are optional
 * because a record need not carry those attributes.
 */
module Format {
  import opened Wrappers
  import opened Levels

  /** The attribute values of a log record that the formatters read. */
  datatype RecordView = RecordView(
    timestamp: string,
    severity: Option<LogLevel>,
    node: Option<string>,
    message: string)

  /** The field width the layout gives the severity. */
  const SeverityWidth: nat := 5

  /** `s` right-aligned in a field of width `w`: spaces in front, never truncated. */
  function PadLeft(s: string, w: nat): (r: string)
    ensures |r| == if |s| < w then w else |s|
    ensures r[|r| - |s|..] == s
    ensures forall i :: 0 <= i < |r| - |s| ==> r[i] == ' '
  {
    if |s| < w then seq(w - |s|, _ => ' ') + s else s
  }

  /** `s` with its leading spaces removed. */
  function TrimLeft(s: string): (r: string)
    ensures |r| <= |s| && r == s[|s| - |r|..]
    ensures r == [] || r[0] != ' '
  {
    if s != [] && s[0] == ' ' then TrimLeft(s[1..]) else s
  }

  /**
   * The text between `[` and `[` of the node field. The width set by
   * `std::setw(5)` applies to the next string written: the level's tag when
   * the record has a severity, otherwise the literal `] ` that follows.
   */
  function SeverityField(severity: Option<LogLevel>): string {
    match severity
    case Some(l) => PadLeft(DisplayTag(l), SeverityWidth) + "] "
    case None => PadLeft("] ", SeverityWidth)
  }

  /** `[timestamp] [severity] [node] message`, the layout of file and console lines. */
  function TextFormat(r: RecordView): (line: string)
    ensures |line| >= |r.message| && line[|line| - |r.message|..] == r.message
    ensures |line| > |r.timestamp| + 2 && line[..|r.timestamp| + 3] == "[" + r.timestamp + "] "
  {
    "[" + r.timestamp + "] "
      + "[" + SeverityField(r.severity)
      + "[" + r.node.GetOr("") + "] "
      + r.message
  }

  /**
   * For a record with a severity the field between the brackets is exactly
   * five characters wide whatever the level's code, and the level's tag is
   * that field with its padding removed.
   */
  lemma SeverityFieldWidth(r: RecordView, l: LogLevel)
    requires r.severity == Some(l)
    ensures var field := PadLeft(DisplayTag(l), SeverityWidth);
      && |field| == SeverityWidth
      && TrimLeft(field) == DisplayTag(l)
      && TextFormat(r) == "[" + r.timestamp + "] " + "[" + field + "] " + "[" + r.node.GetOr("") + "] " + r.message
  {
    TrimPadded(DisplayTag(l), SeverityWidth);
  }

  /** Without a severity the pending width pads the following `] `, leaving three spaces. */
  lemma SeverityFieldMissing(r: RecordView)
    requires r.severity == None
    ensures TextFormat(r) == "[" + r.timestamp + "] " + "[" + "   " + "] " + "[" + r.node.GetOr("") + "] " + r.message
  {
    assert PadLeft("] ", SeverityWidth) == "   " + "] ";
  }

  /** Padding a string that starts with no space and trimming it gives the string back. */
  lemma {:induction false} TrimPadded(s: string, w: nat)
    requires s != [] && s[0] != ' '
    ensures TrimLeft(PadLeft(s, w)) == s
  {
    if |s| < w {
      TrimSpaces(w - |s|, s);
    }
  }

  lemma {:induction false} TrimSpaces(n: nat, s: string)
    requires s != [] && s[0] != ' '
    ensures TrimLeft(seq(n, _ => ' ') + s) == s
  {
    if n > 0 {
      assert (seq(n, _ => ' ') + s)[1..] == seq(n - 1, _ => ' ') + s;
      TrimSpaces(n - 1, s);
    } else {
      assert seq(n, _ => ' ') + s == s;
    }
  }

  /**
   * What the colour formatter makes of the line `inner` that its inner
   * formatter writes: the colour of the record's severity (`info` when the
   * record has none), the inner line, then the reset code.
   */
  function ColorLine(severity: Option<LogLevel>, inner: string): (line: string)
    ensures |line| >= |inner| + |Reset|
    ensures line[|line| - |Reset|..] == Reset
    ensures line[|line| - |Reset| - |inner|..|line| - |Reset|] == inner
  {
    ColorPrefix(severity.GetOr(Info)) + inner + Reset
  }

  /**
   * The inverse of the colouring for a known severity: drop its colour prefix
   * and the final reset; `None` when the line is not shaped that way.
   */
  function Uncolor(severity: Option<LogLevel>, line: string): (inner: Option<string>)
    ensures inner.Some? ==> ColorLine(severity, inner.value) == line
  {
    var prefix := ColorPrefix(severity.GetOr(Info));
    if |line| >= |prefix| + |Reset| && line[..|prefix|] == prefix && line[|line| - |Reset|..] == Reset
    then
      var inner := line[|prefix|..|line| - |Reset|];
      assert line == prefix + inner + Reset;
      Some(inner)
    else None
  }

  /** Removing the colour from a coloured line gives back exactly the inner formatter's line. */
  lemma UncolorColorLine(severity: Option<LogLevel>, inner: string)
    ensures Uncolor(severity, ColorLine(severity, inner)) == Some(inner)
  {
    var prefix := ColorPrefix(severity.GetOr(Info));
    var line := ColorLine(severity, inner);
    assert line[..|prefix|] == prefix;
    assert line[|prefix|..|line| - |Reset|] == inner;
  }

  /**
   * A record without a severity is coloured like an `info` record, and a
   * severity outside the enumerators gets no colour at all; the line is still
   * terminated by the reset code.
   */
  lemma ColorLineDefaults(inner: string, l: LogLevel)
    requires !IsDeclared(l)
    ensures ColorLine(None, inner) == ColorLine(Some(Info), inner) == Reset + inner + Reset
    ensures ColorLine(Some(l), inner) == inner + Reset
  {
  }

  /** The console sink's line: the base layout wrapped in colour. */
  function ConsoleLine(r: RecordView): (line: string)
    ensures Uncolor(r.severity, line) == Some(TextFormat(r))
  {
    UncolorColorLine(r.severity, TextFormat(r));
    ColorLine(r.severity, TextFormat(r))
  }

  lemma ConcatAssoc(a: string, b: string, c: string, d: string)
    ensures a + b + c + d == a + (b + c + d)
  {
  }

  /** A text stream the formatters append to. */
  class FormattingStream {
    var text: string

    constructor ()
      ensures text == ""
    {
      text := "";
    }

    method Write(s: string)
      modifies this
      ensures text == old(text) + s
    {
      text := text + s;
    }
  }

  /** A formatter that runs an inner ("slave") formatter and adds ANSI colour by severity. */
  class AnsiColorFormatter {
    const slave: RecordView -> string

    constructor (slave: RecordView -> string)
      ensures this.slave == slave
    {
      this.slave := slave;
    }

    /** Writes the colour code, then the inner formatter's output, then the reset code. */
    method Format(record: RecordView, stream: FormattingStream)
      modifies stream
      ensures stream.text == old(stream.text) + ColorLine(record.severity, slave(record))
    {
      var severity := record.severity.GetOr(Info);
      ghost var before := stream.text;
      var prefix := ColorPrefix(severity);
      var inner := slave(record);
      stream.Write(prefix);
      stream.Write(inner);
      stream.Write(Reset);
      ConcatAssoc(before, prefix, inner, Reset);
    }
  }
}
