/**
  The tag logger: leveled, tag-scoped, colourised log lines.

  The process-wide state of the package (tag colour map, ignored tags and
  minimum level) is the state of a `Logger` object; the output stream is the
  ghost sequence `lines` of the records the logger has written.
 */
module LogTag {

  import opened Basics

  /** ASCII ESC, the first character of every ECMA-48 control sequence. */
  const ESC: char := '\U{1B}'

  /** A colour is an integer, as in the package; 0 to 17 are named. */
  type LogColor = int

  const Black: LogColor := 0
  const Red: LogColor := 1
  const Green: LogColor := 2
  const Yellow: LogColor := 3
  const Blue: LogColor := 4
  const Magenta: LogColor := 5
  const Cyan: LogColor := 6
  const White: LogColor := 7
  const BrightBlack: LogColor := 8
  const BrightRed: LogColor := 9
  const BrightGreen: LogColor := 10
  const BrightYellow: LogColor := 11
  const BrightBlue: LogColor := 12
  const BrightMagenta: LogColor := 13
  const BrightCyan: LogColor := 14
  const BrightWhite: LogColor := 15
  const Grey: LogColor := 16
  const Reset: LogColor := 17

  predicate IsNamedColor(c: LogColor) {
    Black <= c <= Reset
  }

  /** The SGR reset sequence (ECMA-48, section 8.3.117, parameter 0). */
  const ResetCode: string := [ESC] + "[0m"

  /**
    The select-graphic-rendition control sequence of a colour: a foreground
    colour for the named colours, the reset sequence for Reset, and the empty
    string for any other value.
   */
  function ColorString(c: LogColor): (r: string)
  {
    if c == Black then [ESC] + "[38;30m"
    else if c == Red then [ESC] + "[38;31m"
    else if c == Green then [ESC] + "[38;32m"
    else if c == Yellow then [ESC] + "[38;33m"
    else if c == Blue then [ESC] + "[38;34m"
    else if c == Magenta then [ESC] + "[38;35m"
    else if c == Cyan then [ESC] + "[38;36m"
    else if c == White then [ESC] + "[38;37m"
    else if c == BrightBlack then [ESC] + "[38;90m"
    else if c == BrightRed then [ESC] + "[38;91m"
    else if c == BrightGreen then [ESC] + "[38;92m"
    else if c == BrightYellow then [ESC] + "[38;93m"
    else if c == BrightBlue then [ESC] + "[38;94m"
    else if c == BrightMagenta then [ESC] + "[38;95m"
    else if c == BrightCyan then [ESC] + "[38;96m"
    else if c == BrightWhite then [ESC] + "[38;97m"
    else if c == Grey then [ESC] + "[38;5;247m"
    else if c == Reset then ResetCode
    else ""
  }

  /**
    The shape of every sequence: empty exactly for the unnamed values,
    otherwise ESC, `[`, parameters and the final `m`; the reset sequence
    exactly for Reset.
   */
  lemma ColorStringShape(c: LogColor)
    ensures ColorString(c) == "" <==> !IsNamedColor(c)
    ensures ColorString(c) != "" ==>
      var r := ColorString(c);
      |r| >= 4 && r[0] == ESC && r[1] == '[' && r[|r| - 1] == 'm'
    ensures c == Reset <==> ColorString(c) == ResetCode
  {
  }

  /**
    A number that tells the sequences of the named colours apart: the two
    characters after "ESC[38;" for the sixteen eight-character sequences, and
    the length for the other two.
   */
  function SequenceKey(s: string): int {
    if |s| == 8 then (s[5] as int) * 256 + s[6] as int else |s|
  }

  /**
    The key of each named colour. "ESC[38;3d" has the characters '3' (51)
    and 'd' (48 + c) for the eight basic colours; "ESC[38;9d" has '9' (57)
    and 'd' (48 + c - 8 = 40 + c) for the eight bright ones; Grey's sequence
    has 11 characters and Reset's has 4. The keys differ, so the sequences do.
   */
  lemma {:induction false} ColorKey(c: LogColor)
    requires IsNamedColor(c)
    ensures SequenceKey(ColorString(c)) == (if c < 8 then 51 * 256 + 48 + c
                                            else if c < 16 then 57 * 256 + 40 + c
                                            else if c == Grey then 11 else 4)
  {
  }

  /** Every named colour has its own control sequence. */
  lemma {:induction false} ColorStringInjective(c1: LogColor, c2: LogColor)
    requires IsNamedColor(c1) && IsNamedColor(c2) && c1 != c2
    ensures ColorString(c1) != ColorString(c2)
  {
    ColorKey(c1);
    ColorKey(c2);
  }

  /**
    `message` between the colour's sequence and the reset sequence; it reads
    no configuration, so it may be used before the logger is configured.
   */
  function ToColoredText(col: LogColor, message: string): (r: string)
    ensures |r| == |ColorString(col)| + |message| + |ResetCode|
    ensures ColorString(col) <= r
    ensures IsSuffix(ResetCode, r)
  {
    ColorString(col) + message + ColorString(Reset)
  }

  /** Colouring loses nothing: the message is what lies between the two sequences. */
  lemma ToColoredTextMessage(col: LogColor, message: string)
    ensures var r := ToColoredText(col, message);
            r[|ColorString(col)|..|r| - |ResetCode|] == message
  {
  }

  /** Two messages with the same coloured text are the same message. */
  lemma ToColoredTextInjective(col: LogColor, m1: string, m2: string)
    requires ToColoredText(col, m1) == ToColoredText(col, m2)
    ensures m1 == m2
  {
    ToColoredTextMessage(col, m1);
    ToColoredTextMessage(col, m2);
  }

  /** The four levels of the leveled calls. */
  datatype Severity = LevelInfo | LevelWarning | LevelError | LevelFatal

  /** The integer value of a level; the minimum level is compared against it. */
  function Rank(s: Severity): (r: int)
    ensures 0 <= r <= 3
  {
    match s
    case LevelInfo => 0
    case LevelWarning => 1
    case LevelError => 2
    case LevelFatal => 3
  }

  /** Levels are strictly ordered: Info < Warning < Error < Fatal. */
  lemma RankStrictlyIncreasing(s: Severity, t: Severity)
    ensures Rank(s) < Rank(t) <==>
      (s == LevelInfo && t != LevelInfo) ||
      (s == LevelWarning && (t == LevelError || t == LevelFatal)) ||
      (s == LevelError && t == LevelFatal)
  {
  }

  /** The filter: a line is dropped when its tag is ignored or its level is below the minimum. */
  predicate DontPrint(ignored: set<string>, minLevel: int, tag: string, level: Severity) {
    tag in ignored || minLevel > Rank(level)
  }

  /**
    The tag label, coloured with the tag's colour, in front of the message;
    the message alone when the tag has no colour.
   */
  function AddColoredTag(tagMap: map<string, LogColor>, tag: string, message: string): (r: string)
    ensures tag !in tagMap ==> r == message
    ensures IsSuffix(message, r)
    ensures tag in tagMap ==> r[..|r| - |message|] == ToColoredText(tagMap[tag], "[" + tag + "] ")
  {
    if tag !in tagMap then message
    else ToColoredText(tagMap[tag], "[" + tag + "] ") + message
  }

  /**
    The kind of a logging call: `Plain` is Printf/Println (filtered at the
    Info level, no severity prefix, timestamped); `Leveled` is Info, Warn,
    Error or Fatal (and their formatted variants).
   */
  datatype Call = Plain | Leveled(level: Severity)

  /** The level a call is filtered at. */
  function CallLevel(call: Call): Severity {
    match call
    case Plain => LevelInfo
    case Leveled(s) => s
  }

  /** The colour of a level's prefix. */
  function LevelColor(s: Severity): (r: LogColor)
    ensures r == Reset <==> s == LevelInfo
    ensures r == Yellow <==> s == LevelWarning
    ensures r == Red <==> s == LevelError || s == LevelFatal
  {
    match s
    case LevelInfo => Reset
    case LevelWarning => Yellow
    case LevelError => Red
    case LevelFatal => Red
  }

  function LevelLabel(s: Severity): string {
    match s
    case LevelInfo => "Info: "
    case LevelWarning => "Warning: "
    case LevelError => "Error: "
    case LevelFatal => "Fatal: "
  }

  /** The coloured level prefix of a leveled call, such as the red "Error: ". */
  function LevelPrefix(s: Severity): string {
    ToColoredText(LevelColor(s), LevelLabel(s))
  }

  /**
    The text of a line: the coloured tag label, then for a leveled call the
    coloured level prefix, then the message, which is always a suffix.
   */
  function Compose(tagMap: map<string, LogColor>, tag: string, call: Call, msg: string): (r: string)
    ensures IsSuffix(msg, r)
    ensures call == Plain ==> r == AddColoredTag(tagMap, tag, msg)
    ensures call.Leveled? ==> IsSuffix(LevelPrefix(call.level) + msg, r)
    ensures call.Leveled? && tag !in tagMap ==> r == LevelPrefix(call.level) + msg
  {
    match call
    case Plain => AddColoredTag(tagMap, tag, msg)
    case Leveled(s) =>
      var r := AddColoredTag(tagMap, tag, LevelPrefix(s) + msg);
      SuffixOfSuffix(LevelPrefix(s), msg, r);
      r
  }

  /** A string that ends with `p + m` ends with `m`. */
  lemma SuffixOfSuffix(p: string, m: string, r: string)
    requires IsSuffix(p + m, r)
    ensures IsSuffix(m, r)
  {
  }

  /** A call to the logger: which call, and the rendered message. */
  datatype Entry = Entry(call: Call, text: string)

  /**
    A line written to the output: the level it was filtered at, the tag, the
    composed text, and whether the package puts its own coloured date and
    time in front of it (only Printf and Println do). The standard logger's
    own date and time, written on every line until `ConfigureLogger` turns
    them off, are not part of a record.
   */
  datatype Record = Record(level: Severity, tag: string, text: string, stamped: bool)

  /** What one call writes: nothing when filtered, otherwise exactly one record. */
  function Emission(tagMap: map<string, LogColor>, ignored: set<string>, minLevel: int,
                    tag: string, call: Call, msg: string): (r: seq<Record>)
    ensures |r| <= 1
    ensures r == [] <==> tag in ignored || minLevel > Rank(CallLevel(call))
    ensures r != [] ==> r[0].level == CallLevel(call) && r[0].tag == tag && r[0].stamped == (call == Plain)
    ensures r != [] ==> IsSuffix(msg, r[0].text)
  {
    if DontPrint(ignored, minLevel, tag, CallLevel(call)) then []
    else [Record(CallLevel(call), tag, Compose(tagMap, tag, call, msg), call == Plain)]
  }

  /** A call at exactly the minimum level is written. */
  lemma EmittedAtMinimum(tagMap: map<string, LogColor>, ignored: set<string>, tag: string, call: Call, msg: string)
    requires tag !in ignored
    ensures |Emission(tagMap, ignored, Rank(CallLevel(call)), tag, call, msg)| == 1
  {
  }

  /** Raising a call's level never turns a written line into a dropped one. */
  lemma EmissionMonotone(tagMap: map<string, LogColor>, ignored: set<string>, minLevel: int,
                         tag: string, s: Severity, t: Severity, msg: string)
    requires Rank(s) <= Rank(t)
    requires Emission(tagMap, ignored, minLevel, tag, Leveled(s), msg) != []
    ensures Emission(tagMap, ignored, minLevel, tag, Leveled(t), msg) != []
  {
  }

  /**
    A leveled call for a coloured tag that passes the filter writes the
    coloured "[tag] " label, the coloured level prefix and the message (with
    "api" coloured BrightBlue, Info("api", "hello") writes the blue "[api] ",
    the Info prefix and "hello").
   */
  lemma {:induction false} ColoredLeveledLine(tagMap: map<string, LogColor>, ignored: set<string>, minLevel: int,
                                              tag: string, level: Severity, msg: string)
    requires tag in tagMap && tag !in ignored && minLevel <= Rank(level)
    ensures Emission(tagMap, ignored, minLevel, tag, Leveled(level), msg)
         == [Record(level, tag, ToColoredText(tagMap[tag], "[" + tag + "] ") + LevelPrefix(level) + msg, false)]
  {
    var tagLabel := ToColoredText(tagMap[tag], "[" + tag + "] ");
    assert Compose(tagMap, tag, Leveled(level), msg) == tagLabel + (LevelPrefix(level) + msg);
    assert tagLabel + (LevelPrefix(level) + msg) == tagLabel + LevelPrefix(level) + msg;
  }

  /** With the minimum level at Error, a warning is not written, whatever its tag and message. */
  lemma WarningBelowError(tagMap: map<string, LogColor>, ignored: set<string>, tag: string, msg: string)
    ensures Emission(tagMap, ignored, Rank(LevelError), tag, Leveled(LevelWarning), msg) == []
  {
  }

  /** The package state of the logger and the lines it has written. */
  class Logger {
    var tagMap: map<string, LogColor>
    var ignored: set<string>
    var minLevel: int
    /** Set once a Fatal line has been written: the process exits there. */
    var exited: bool
    ghost var lines: seq<Record>

    /** The state before any configuration: no tag colours, nothing ignored, minimum Info. */
    constructor ()
      ensures tagMap == map[] && ignored == {} && minLevel == Rank(LevelInfo)
      ensures !exited && lines == []
    {
      tagMap := map[];
      ignored := {};
      minLevel := Rank(LevelInfo);
      exited := false;
      lines := [];
    }

    /** What a call writes under the current configuration. */
    function Emitted(tag: string, e: Entry): seq<Record>
      reads this`tagMap, this`ignored, this`minLevel
    {
      Emission(tagMap, ignored, minLevel, tag, e.call, e.text)
    }

    /** What an optional call writes: nothing when there is no call. */
    function EmittedOpt(tag: string, e: Option<Entry>): seq<Record>
      reads this`tagMap, this`ignored, this`minLevel
    {
      if e.None? then [] else Emitted(tag, e.value)
    }

    /**
      Replaces the tag colour map and the ignore set: earlier ignored tags
      are forgotten. The minimum level is kept.
     */
    method ConfigureLogger(tags: map<string, LogColor>, ignoreTags: seq<string>)
      modifies this`tagMap, this`ignored
      ensures tagMap == tags
      ensures ignored == set t | t in ignoreTags
    {
      tagMap := tags;
      ignored := {};
      for i := 0 to |ignoreTags|
        invariant tagMap == tags
        invariant ignored == set t | t in ignoreTags[..i]
      {
        assert ignoreTags[..i + 1] == ignoreTags[..i] + [ignoreTags[i]];
        ignored := ignored + {ignoreTags[i]};
      }
      assert ignoreTags[..|ignoreTags|] == ignoreTags;
    }

    method SetMinimumLogLevel(l: int)
      modifies this`minLevel
      ensures minLevel == l
    {
      minLevel := l;
    }

    /** The common body of every call: drop the line, or write it. */
    method Log(tag: string, e: Entry)
      modifies this`lines
      ensures lines == old(lines) + Emitted(tag, e)
    {
      if DontPrint(ignored, minLevel, tag, CallLevel(e.call)) {
        return;
      }
      lines := lines + [Record(CallLevel(e.call), tag, Compose(tagMap, tag, e.call, e.text), e.call == Plain)];
    }

    /** Printf and Println: filtered at Info, no severity prefix. */
    method Printf(tag: string, msg: string)
      modifies this`lines
      ensures lines == old(lines) + Emitted(tag, Entry(Plain, msg))
    {
      Log(tag, Entry(Plain, msg));
    }

    method Info(tag: string, msg: string)
      modifies this`lines
      ensures lines == old(lines) + Emitted(tag, Entry(Leveled(LevelInfo), msg))
    {
      Log(tag, Entry(Leveled(LevelInfo), msg));
    }

    method Warn(tag: string, msg: string)
      modifies this`lines
      ensures lines == old(lines) + Emitted(tag, Entry(Leveled(LevelWarning), msg))
    {
      Log(tag, Entry(Leveled(LevelWarning), msg));
    }

    method Error(tag: string, msg: string)
      modifies this`lines
      ensures lines == old(lines) + Emitted(tag, Entry(Leveled(LevelError), msg))
    {
      Log(tag, Entry(Leveled(LevelError), msg));
    }

    /** Writes the line and exits; a filtered Fatal call neither writes nor exits. */
    method Fatal(tag: string, msg: string)
      modifies this`lines, this`exited
      ensures lines == old(lines) + Emitted(tag, Entry(Leveled(LevelFatal), msg))
      ensures exited == (old(exited) || !DontPrint(ignored, minLevel, tag, LevelFatal))
    {
      if DontPrint(ignored, minLevel, tag, LevelFatal) {
        return;
      }
      Log(tag, Entry(Leveled(LevelFatal), msg));
      exited := true;
    }
  }
}
