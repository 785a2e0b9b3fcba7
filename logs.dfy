/**
 * EDKit's logging: the default line formatter, the console logger's type and tag filter with its
 * mapping to system log levels, and the registry that every `Logs.<level>` call dispatches
 * through. What the system log receives is recorded instead of written.
 */
module Logs {
  import opened Wrappers

  datatype LogType = Verbose | Info | Warn | Error

  const AllCases: seq<LogType> := [Verbose, Info, Warn, Error]

  datatype LogItem = LogItem(message: string, logType: LogType, tag: Option<string>, file: string, line: int, functionName: string)

  // ---------------------------------------------------------------- DefaultLogFormatter

  /** The coloured dot that opens a line of each type. */
  function Prefix(t: LogType): string {
    match t
    case Verbose => "\U{1F535}"
    case Info => "\U{1F7E2}"
    case Warn => "\U{1F7E1}"
    case Error => "\U{1F534}"
  }

  /** The type a line's first character announces. */
  function TypeOfPrefix(c: char): Option<LogType> {
    if c == '\U{1F535}' then Some(Verbose)
    else if c == '\U{1F7E2}' then Some(Info)
    else if c == '\U{1F7E1}' then Some(Warn)
    else if c == '\U{1F534}' then Some(Error)
    else None
  }

  /** The part of a path after its last `/`: the whole path when it has none. */
  function LastPathComponent(path: string): (name: string)
    ensures '/' !in name
    ensures |name| <= |path| && name == path[|path| - |name|..]
    ensures |name| == |path| || path[|path| - |name| - 1] == '/'
  {
    if path == [] || path[|path| - 1] == '/' then ""
    else LastPathComponent(path[..|path| - 1]) + [path[|path| - 1]]
  }

  function DigitChar(d: nat): char
    requires d < 10
  {
    "0123456789"[d]
  }

  /** Decimal notation, as string interpolation writes an `Int`. */
  function NatToString(n: nat): (s: string)
    ensures |s| >= 1
    decreases n
  {
    if n < 10 then [DigitChar(n)] else NatToString(n / 10) + [DigitChar(n % 10)]
  }

  function IntToString(i: int): string {
    if i < 0 then "-" + NatToString(-i) else NatToString(i)
  }

  function TagPart(tag: Option<string>): string {
    match tag
    case None => ""
    case Some(t) => " <" + t + ">"
  }

  /** Everything between the prefix and the tag: ` [file:line function]`. */
  function Location(item: LogItem): string {
    " [" + LastPathComponent(item.file) + ":" + IntToString(item.line) + " " + item.functionName + "]"
  }

  /** `DefaultLogFormatter.format(_:)`. */
  function Format(item: LogItem): string {
    Prefix(item.logType) + Location(item) + TagPart(item.tag) + " -> " + item.message
  }

  lemma SplitAt(a: string, b: string)
    ensures (a + b)[..|a|] == a && (a + b)[|a|..] == b
  {
  }

  lemma Assoc(a: string, b: string, c: string)
    ensures a + b + c == a + (b + c)
  {
  }

  /** The dot is a single character. */
  lemma PrefixIsOneCharacter(t: LogType)
    ensures |Prefix(t)| == 1 && TypeOfPrefix(Prefix(t)[0]) == Some(t)
  {
  }

  /** A formatted line opens with its type's dot and ends with ` -> ` and the message; reading the
      dot back gives the type. */
  lemma FormatFrame(item: LogItem)
    ensures var s := Format(item);
      && |s| >= |item.message| + 5
      && s[..1] == Prefix(item.logType)
      && TypeOfPrefix(s[0]) == Some(item.logType)
      && s[|s| - |item.message| - 4..] == " -> " + item.message
  {
    var p := Prefix(item.logType);
    var rest := Location(item) + TagPart(item.tag);
    var tail := " -> " + item.message;
    PrefixIsOneCharacter(item.logType);
    Assoc(p, Location(item), TagPart(item.tag));
    Assoc(p + rest, " -> ", item.message);
    var s := Format(item);
    assert s == (p + rest) + tail;
    Assoc(p, rest, tail);
    SplitAt(p, rest + tail);
    SplitAt(p + rest, tail);
    assert s[0] == s[..1][0];
  }

  /** The tag ` <tag>` appears exactly when the item has one, right before ` -> `: formatting with
      a tag inserts it into the line without a tag and changes nothing else. */
  lemma TagInsertion(item: LogItem, t: string)
    ensures var plain := Format(item.(tag := None));
      var k := |plain| - |item.message| - 4;
      && 0 <= k
      && Format(item.(tag := Some(t))) == plain[..k] + " <" + t + ">" + plain[k..]
  {
    var head := Prefix(item.logType) + Location(item);
    var tail := " -> " + item.message;
    var mark := " <" + t + ">";
    assert Location(item.(tag := None)) == Location(item) == Location(item.(tag := Some(t)));
    var plain := Format(item.(tag := None));
    Assoc(head, " -> ", item.message);
    assert plain == head + tail;
    SplitAt(head, tail);
    var tagged := Format(item.(tag := Some(t)));
    Assoc(head + mark, " -> ", item.message);
    assert tagged == head + mark + tail;
    assert " <" + t + ">" == mark;
    Assoc(head, mark, tail);
  }

  // ---------------------------------------------------------------- ConsoleLogger

  /** The `OSLogType` values the console logger uses. */
  datatype OSLogType = Debug | InfoLevel | ErrorLevel

  function OSLogTypeOf(t: LogType): OSLogType {
    match t
    case Verbose => Debug
    case Info => InfoLevel
    case Warn => InfoLevel
    case Error => ErrorLevel
  }

  /** Only verbose lines go out as debug and only errors as errors; info and warn share a level. */
  lemma LevelMapping(t: LogType)
    ensures OSLogTypeOf(t) == Debug <==> t == Verbose
    ensures OSLogTypeOf(t) == ErrorLevel <==> t == Error
    ensures OSLogTypeOf(t) == InfoLevel <==> t in [Info, Warn]
  {
  }

  /** Whether the console logger's filter lets `item` through. */
  predicate Passes(allowedLogTypes: seq<LogType>, allowedLogTags: Option<seq<string>>, item: LogItem) {
    && item.logType in allowedLogTypes
    && (allowedLogTags.Some? ==> item.tag.Some? && item.tag.value in allowedLogTags.value)
  }

  /** A nil tag list lets every tag through, including none; a tag list drops untagged items. */
  lemma TagFilter(allowedLogTypes: seq<LogType>, allowedLogTags: Option<seq<string>>, item: LogItem)
    ensures allowedLogTags.None? ==> (Passes(allowedLogTypes, allowedLogTags, item) <==> item.logType in allowedLogTypes)
    ensures allowedLogTags.Some? && item.tag.None? ==> !Passes(allowedLogTypes, allowedLogTags, item)
    ensures Passes(AllCases, None, item)
  {
    match item.logType
    case Verbose => assert AllCases[0] == Verbose;
    case Info => assert AllCases[1] == Info;
    case Warn => assert AllCases[2] == Warn;
    case Error => assert AllCases[3] == Error;
  }

  class ConsoleLogger {
    var allowedLogTypes: seq<LogType>
    /** `nil` allows every tag. */
    var allowedLogTags: Option<seq<string>>
    /** What `os_log` received, in order. */
    var output: seq<(OSLogType, string)>

    constructor ()
      ensures allowedLogTypes == AllCases && allowedLogTags == None && output == []
    {
      allowedLogTypes := AllCases;
      allowedLogTags := None;
      output := [];
    }

    /** `log(_:)`: drops items whose type or tag is not allowed, otherwise writes the formatted
        line at the type's level. */
    method Log(item: LogItem)
      modifies this
      ensures allowedLogTypes == old(allowedLogTypes) && allowedLogTags == old(allowedLogTags)
      ensures output == old(output)
        + (if Passes(allowedLogTypes, allowedLogTags, item) then [(OSLogTypeOf(item.logType), Format(item))] else [])
    {
      if item.logType !in allowedLogTypes {
        return;
      }
      if allowedLogTags.Some? {
        if item.tag.Some? {
          if item.tag.value !in allowedLogTags.value {
            return;
          }
        } else {
          return;
        }
      }
      var formattedMessage := Format(item);
      var osLogType: OSLogType;
      match item.logType {
        case Verbose => osLogType := Debug;
        case Info => osLogType := InfoLevel;
        case Warn => osLogType := InfoLevel;
        case Error => osLogType := ErrorLevel;
      }
      output := output + [(osLogType, formattedMessage)];
    }
  }

  // ---------------------------------------------------------------- Logs

  /** The registry after `add`: a logger already present (by identity) is not added again. */
  function Added<L(==)>(loggers: seq<L>, logger: L): seq<L> {
    if logger in loggers then loggers else loggers + [logger]
  }

  /** The registry after `remove`: every occurrence of the logger is gone. */
  function Without<L(==)>(loggers: seq<L>, logger: L): seq<L> {
    if loggers == [] then []
    else (if loggers[0] == logger then [] else [loggers[0]]) + Without(loggers[1..], logger)
  }

  predicate Distinct<L(==)>(s: seq<L>) {
    forall i, j :: 0 <= i < j < |s| ==> s[i] != s[j]
  }

  /** `add` is idempotent and keeps the registry free of duplicates. */
  lemma AddedIdempotent<L>(loggers: seq<L>, logger: L)
    ensures Added(Added(loggers, logger), logger) == Added(loggers, logger)
    ensures logger in Added(loggers, logger)
    ensures Distinct(loggers) ==> Distinct(Added(loggers, logger))
  {
  }

  /** `remove` drops the logger and nothing else, keeping the order of the others. */
  lemma {:induction false} WithoutKeepsOthers<L>(loggers: seq<L>, logger: L)
    ensures logger !in Without(loggers, logger)
    ensures forall x :: x != logger ==> multiset(Without(loggers, logger))[x] == multiset(loggers)[x]
    ensures logger !in loggers ==> Without(loggers, logger) == loggers
  {
    if loggers != [] {
      WithoutKeepsOthers(loggers[1..], logger);
      assert loggers == [loggers[0]] + loggers[1..];
    }
  }

  /** Removing from two parts of the registry is removing from each: relative order is kept. */
  lemma {:induction false} WithoutAppend<L>(a: seq<L>, b: seq<L>, logger: L)
    ensures Without(a + b, logger) == Without(a, logger) + Without(b, logger)
  {
    if a != [] {
      assert (a + b)[1..] == a[1..] + b;
      assert (a + b)[0] == a[0];
      WithoutAppend(a[1..], b, logger);
    } else {
      assert a + b == b;
    }
  }

  /** After `remove` and `add`, the logger is registered once, at the end. */
  lemma RemoveThenAdd<L>(loggers: seq<L>, logger: L)
    ensures Added(Without(loggers, logger), logger) == Without(loggers, logger) + [logger]
  {
    WithoutKeepsOthers(loggers, logger);
  }

  datatype Delivery<L> = Delivery(logger: L, item: LogItem)

  /** One item handed to each logger, in registry order. */
  function Broadcast<L>(loggers: seq<L>, item: LogItem): seq<Delivery<L>> {
    if loggers == [] then [] else Broadcast(loggers[..|loggers| - 1], item) + [Delivery(loggers[|loggers| - 1], item)]
  }

  /** Each registered logger receives exactly one item, the i-th delivery going to the i-th
      logger. */
  lemma {:induction false} BroadcastClosedForm<L>(loggers: seq<L>, item: LogItem)
    ensures |Broadcast(loggers, item)| == |loggers|
    ensures forall i :: 0 <= i < |loggers| ==> Broadcast(loggers, item)[i] == Delivery(loggers[i], item)
  {
    if loggers != [] {
      BroadcastClosedForm(loggers[..|loggers| - 1], item);
    }
  }

  /** `Logs`: the registered loggers (compared by identity) and what they were handed. */
  class Registry<L(==)> {
    var loggers: seq<L>
    var delivered: seq<Delivery<L>>

    constructor ()
      ensures loggers == [] && delivered == []
    {
      loggers := [];
      delivered := [];
    }

    method Add(logger: L)
      modifies this
      ensures loggers == Added(old(loggers), logger) && delivered == old(delivered)
    {
      if logger in loggers {
        return;
      }
      loggers := loggers + [logger];
    }

    method Remove(logger: L)
      modifies this
      ensures loggers == Without(old(loggers), logger) && delivered == old(delivered)
    {
      loggers := Without(loggers, logger);
    }

    /** `Logs.verbose`, `info`, `warn` and `error`: nothing when the condition is false, otherwise
        one item of that type per registered logger. */
    method Dispatch(logType: LogType, message: string, tag: Option<string>, condition: bool, file: string, functionName: string, line: int)
      modifies this
      ensures loggers == old(loggers)
      ensures delivered == old(delivered)
        + (if condition then Broadcast(loggers, LogItem(message, logType, tag, file, line, functionName)) else [])
    {
      if !condition {
        return;
      }
      var item := LogItem(message, logType, tag, file, line, functionName);
      for i := 0 to |loggers|
        invariant loggers == old(loggers)
        invariant delivered == old(delivered) + Broadcast(loggers[..i], item)
      {
        assert loggers[..i + 1][..i] == loggers[..i];
        delivered := delivered + [Delivery(loggers[i], item)];
      }
      assert loggers[..|loggers|] == loggers;
    }
  }
}
