/**
 * The severity model: `enum class LogLevel` and the three per-level tables of
 * the logging library (fixed-width display tag, lower-case name, ANSI colour).
 *
 * A `LogLevel` is the enum's underlying `int`, not only one of its six
 * enumerators, so the out-of-range branches of the tables can be reached.
 */
module Levels {

  /** The value of an `enum class LogLevel`; its underlying type is a 32-bit `int`. */
  newtype LogLevel = x: int | -0x8000_0000 <= x < 0x8000_0000

  // The enumerators, numbered from 0 in declaration order. The header names
  // the last one `critical`; every table of the implementation calls it `fatal`.
  const Debug: LogLevel := 0
  const Info: LogLevel := 1
  const Success: LogLevel := 2
  const Warning: LogLevel := 3
  const Error: LogLevel := 4
  const Fatal: LogLevel := 5

  /** The enumerators in declaration order. */
  const Declared: seq<LogLevel> := [Debug, Info, Success, Warning, Error, Fatal]

  predicate IsDeclared(l: LogLevel) {
    l in Declared
  }

  /** Each enumerator's code is its position in the declaration, so the codes are 0..5. */
  lemma DeclaredCodes()
    ensures |Declared| == 6
    ensures forall i :: 0 <= i < |Declared| ==> Declared[i] as int == i
  {
  }

  /** A level is declared exactly when its code lies in 0..5. */
  lemma DeclaredRange(l: LogLevel)
    ensures IsDeclared(l) <==> 0 <= l < 6
  {
    if 0 <= l < 6 {
      assert Declared[l as int] == l;
    }
  }

  /** Declaration order is the (total) severity order on codes: debug < info < ... < fatal. */
  lemma DeclarationOrder(i: int, j: int)
    requires 0 <= i < j < |Declared|
    ensures Declared[i] < Declared[j]
  {
  }

  /**
   * The last enumerator, code 5, is the one the last entry of every per-level
   * table covers, and each table has one entry per enumerator.
   */
  lemma HighestLevelTables()
    ensures Declared[|Declared| - 1] == Fatal && Fatal as int == |Declared| - 1
    ensures |TagTable| == |NameTable| == |Declared|
    ensures DisplayTag(Fatal) == TagTable[|TagTable| - 1] == "FATAL"
    ensures Name(Fatal) == NameTable[|NameTable| - 1] == "fatal"
  {
  }

  /**
   * `std::size_t numeric = int(level)`: the conversion of the code to an
   * unsigned 64-bit size, which turns a negative code into a huge number.
   */
  function Numeric(l: LogLevel): (n: nat)
    ensures n < 6 <==> 0 <= l < 6
    ensures 0 <= l ==> n == l as int
  {
    if l >= 0 then l as int else l as int + 0x1_0000_0000_0000_0000
  }

  /** The display strings of the log-line severity field, indexed by code. */
  const TagTable: seq<string> := ["DEBUG", "INFO", "GOOD", "WARN", "ERROR", "FATAL"]

  /** The text written for the severity field of a log line; `?????` outside the table. */
  function DisplayTag(l: LogLevel): (s: string)
    ensures 0 < |s| <= 5
    ensures IsDeclared(l) ==> s == TagTable[l]
    ensures !IsDeclared(l) <==> s == "?????"
  {
    DeclaredRange(l);
    var n := Numeric(l);
    if n < |TagTable| then TagTable[n] else "?????"
  }

  /** Different enumerators have different display tags, so a tag names its level. */
  lemma DisplayTagInjective(a: LogLevel, b: LogLevel)
    requires IsDeclared(a) && IsDeclared(b) && a != b
    ensures DisplayTag(a) != DisplayTag(b)
  {
    DeclaredRange(a);
    DeclaredRange(b);
  }

  /** The lower-case names written by `operator<<(std::ostream &, LogLevel)`, indexed by code. */
  const NameTable: seq<string> := ["debug", "info", "success", "warning", "error", "fatal"]

  /** The lower-case name of a level; `unknown` outside the table. */
  function Name(l: LogLevel): (s: string)
    ensures IsDeclared(l) ==> s == NameTable[l]
    ensures !IsDeclared(l) <==> s == "unknown"
  {
    DeclaredRange(l);
    var n := Numeric(l);
    if n < |NameTable| then NameTable[n] else "unknown"
  }

  /** Different enumerators have different names. */
  lemma NameInjective(a: LogLevel, b: LogLevel)
    requires IsDeclared(a) && IsDeclared(b) && a != b
    ensures Name(a) != Name(b)
  {
    DeclaredRange(a);
    DeclaredRange(b);
  }

  /** The escape character that starts an ANSI control sequence. */
  const Esc: char := '\U{1B}'

  /** Select Graphic Rendition 0: back to the terminal's default colours. */
  const Reset: string := [Esc] + "[0m"

  /** A complete ANSI SGR sequence: ESC, `[`, parameters, `m`. */
  predicate IsSgr(s: string) {
    |s| >= 3 && s[0] == Esc && s[1] == '[' && s[|s| - 1] == 'm'
  }

  /**
   * The colour prefix the console formatter writes for a severity: one switch
   * case per enumerator, nothing for any other value (the `default: break`).
   */
  function ColorPrefix(l: LogLevel): (s: string)
    ensures IsDeclared(l) <==> s != ""
    ensures s != "" ==> IsSgr(s)
  {
    if l == Debug then [Esc] + "[1;30m"
    else if l == Info then Reset
    else if l == Success then [Esc] + "[32m"
    else if l == Warning then [Esc] + "[33m"
    else if l == Error then [Esc] + "[31m"
    else if l == Fatal then [Esc] + "[1;31m"
    else ""
  }

  /** `info` is printed in the default colour, and `error` and `fatal` are told apart. */
  lemma ColorPrefixDistinctions()
    ensures ColorPrefix(Info) == Reset
    ensures ColorPrefix(Error) != ColorPrefix(Fatal)
    ensures ColorPrefix(Warning) != ColorPrefix(Error)
  {
    assert ColorPrefix(Warning)[3] != ColorPrefix(Error)[3];
  }
}
