/**
 * The logger's decision and formatting logic: whether a call from a given
 * source file is logged, the line it returns, and the console pieces it
 * emits. Writing to the console and to the log file is not modelled.
 */
module Logging {
  import opened Text
  import Chunking

  /** Log level; each has its own indicator in the returned line. */
  datatype Event = Error | Info | Debug | Warning {
    function Indicator(): string {
      match this
      case Error => "\U{203C}\U{FE0F}"
      case Info => "\U{2139}\U{FE0F}"
      case Debug => "\U{1F4AC}"
      case Warning => "\U{26A0}\U{FE0F}"
    }
  }

  /** Truncation and file settings; `truncationLength` is an `Int` in the original, so it may be any integer. */
  datatype Config = Config(truncationLength: int, separator: string, filename: Option<string>)

  /** The configuration of the convenience initialiser. */
  const DefaultConfig := Config(1023, "[...]", Some("log.txt"))

  /** The text after the last '/' of `path`, or the whole path when it has none. */
  function SourceFileName(path: string): (r: string)
    ensures '/' !in r
    ensures IsSuffix(r, path)
    ensures |r| < |path| ==> path[|path| - |r| - 1] == '/'
    decreases |path|
  {
    if path == [] then ""
    else if path[|path| - 1] == '/' then ""
    else SourceFileName(path[..|path| - 1]) + [path[|path| - 1]]
  }

  /** `path` without the '/' characters at its end. */
  function StripTrailingSlashes(path: string): (r: string)
    ensures IsPrefix(r, path)
    ensures r == [] || r[|r| - 1] != '/'
    ensures forall i :: |r| <= i < |path| ==> path[i] == '/'
    decreases |path|
  {
    if path != [] && path[|path| - 1] == '/' then StripTrailingSlashes(path[..|path| - 1]) else path
  }

  /**
   * `NSString.lastPathComponent`, the name shown in the log line: the text
   * after the last '/' once trailing '/'s are ignored, and "/" for a path made
   * only of '/'s.
   */
  function LastPathComponent(path: string): (r: string)
    ensures r == "" <==> path == ""
    ensures r == "/" || '/' !in r
    ensures r == "/" <==> path != "" && StripTrailingSlashes(path) == ""
  {
    var t := StripTrailingSlashes(path);
    if t == [] then (if path == [] then "" else "/") else SourceFileName(t)
  }

  /** The line returned by every level when the call is not filtered out; `timestamp` stands for the formatted date. */
  function LogLine(timestamp: string, event: Event, filePath: string, methodName: string, line: nat, message: string): string {
    timestamp + (" " + (event.Indicator() + (" [" + (LastPathComponent(filePath) + (" - " + (methodName + (": "
      + (NatToString(line) + ("] " + message)))))))))
  }

  class Logger {
    const category: string
    const config: Config
    var isLoggingEnabled: bool
    var inclusion: Option<seq<string>>
    var exclusion: Option<seq<string>>

    /** The designated initialiser: logging starts enabled and with no filters. */
    constructor (category: string, config: Config)
      ensures this.category == category && this.config == config
      ensures isLoggingEnabled && inclusion == None && exclusion == None
    {
      this.category := category;
      this.config := config;
      isLoggingEnabled := true;
      inclusion := None;
      exclusion := None;
    }

    /** The convenience initialiser: truncation 1023, separator "[...]", file "log.txt". */
    constructor WithDefaults(category: string)
      ensures this.category == category && config == DefaultConfig
      ensures config.truncationLength == 1023 && config.separator == "[...]" && config.filename == Some("log.txt")
      ensures isLoggingEnabled && inclusion == None && exclusion == None
    {
      this.category := category;
      config := DefaultConfig;
      isLoggingEnabled := true;
      inclusion := None;
      exclusion := None;
    }

    /** Replaces both filter lists; an omitted argument resets that list. */
    method Setup(inclusion: Option<seq<string>> := None, exclusion: Option<seq<string>> := None)
      modifies this
      ensures this.inclusion == inclusion && this.exclusion == exclusion
      ensures isLoggingEnabled == old(isLoggingEnabled)
    {
      this.inclusion := inclusion;
      this.exclusion := exclusion;
    }

    /** Whether a call from `filePath` passes the enabled flag and the include/exclude filters. */
    predicate Allows(filePath: string)
      reads this
    {
      var name := SourceFileName(filePath);
      var excluded := if exclusion.Some? then ContainsAny(name, exclusion.value) else false;
      var included := if inclusion.Some? then ContainsAny(name, inclusion.value) else true;
      isLoggingEnabled && !excluded && included
    }

    /** What `error`, `info`, `debug` and `warning` return: the formatted line, or nothing when filtered out. */
    function Log(event: Event, message: string, filePath: string, methodName: string, line: nat, timestamp: string): (r: Option<string>)
      reads this
      ensures r.Some? <==> Allows(filePath)
      ensures !isLoggingEnabled ==> r == None
      ensures exclusion.Some? && ContainsAny(SourceFileName(filePath), exclusion.value) ==> r == None
      ensures r.Some? ==> r.value == LogLine(timestamp, event, filePath, methodName, line, message)
    {
      if Allows(filePath) then Some(LogLine(timestamp, event, filePath, methodName, line, message)) else None
    }

    /** The pieces sent to the console for `message`. */
    function MessageToLog(message: string): (r: seq<string>)
      reads this
    {
      Chunking.SplitSpec(message, config.truncationLength - |config.separator|, Some(config.separator))
    }
  }

  /** A file matching an exclusion pattern is filtered out, whatever the include list says. */
  lemma ExclusionWins(logger: Logger, filePath: string, k: nat)
    requires logger.exclusion.Some? && k < |logger.exclusion.value|
    requires Contains(SourceFileName(filePath), logger.exclusion.value[k])
    ensures !logger.Allows(filePath)
  {
  }

  /** With logging enabled and no exclusion match, no include list admits every file; a list admits exactly the files some pattern occurs in, so an empty list admits none. */
  lemma IncludeFilter(logger: Logger, filePath: string)
    requires logger.isLoggingEnabled
    requires logger.exclusion.None? || !ContainsAny(SourceFileName(filePath), logger.exclusion.value)
    ensures logger.inclusion.None? ==> logger.Allows(filePath)
    ensures logger.inclusion.Some? ==>
      (logger.Allows(filePath) <==> exists k :: 0 <= k < |logger.inclusion.value| && Contains(SourceFileName(filePath), logger.inclusion.value[k]))
    ensures logger.inclusion == Some([]) ==> !logger.Allows(filePath)
  {
  }

  /** A path without '/' is its own file name; otherwise the name is what follows the last '/'. */
  lemma SourceFileNameLastComponent(dir: string, name: string)
    requires '/' !in name
    ensures SourceFileName(name) == name
    ensures SourceFileName(dir + "/" + name) == name
  {
    SourceFileNameAfter([], name);
    SourceFileNameAfter(dir + "/", name);
    assert [] + name == name;
  }

  /** The file name of `base + name`, where `base` is empty or ends in '/' and `name` has no '/', is `name`. */
  lemma {:induction false} SourceFileNameAfter(base: string, name: string)
    requires base == [] || base[|base| - 1] == '/'
    requires '/' !in name
    ensures SourceFileName(base + name) == name
    decreases |name|
  {
    if name == [] {
      assert base + name == base;
    } else {
      var init, last := name[..|name| - 1], name[|name| - 1];
      assert last != '/' && '/' !in init by {
        assert name == init + [last];
      }
      SourceFileNameAfter(base, init);
      SourceFileNameAppend(base + init, last);
      assert base + name == (base + init) + [last] by {
        assert name == init + [last];
      }
      assert init + [last] == name;
    }
  }

  /** A '/' ends the file name; any other character extends it. */
  lemma SourceFileNameAppend(path: string, c: char)
    ensures SourceFileName(path + [c]) == if c == '/' then "" else SourceFileName(path) + [c]
  {
    var p := path + [c];
    assert p[|p| - 1] == c && p[..|p| - 1] == path;
  }

  /** A path that does not end in '/' gets the same name in the line as in the filter. */
  lemma LastPathComponentAgrees(path: string)
    requires path == [] || path[|path| - 1] != '/'
    ensures LastPathComponent(path) == SourceFileName(path)
  {
    assert StripTrailingSlashes(path) == path;
  }

  /** A trailing '/' does not change the name in the line of a path that is not all '/'s. */
  lemma TrailingSlashIgnored(path: string)
    requires StripTrailingSlashes(path) != []
    ensures LastPathComponent(path + "/") == LastPathComponent(path)
  {
    var p := path + "/";
    assert p[|p| - 1] == '/' && p[..|p| - 1] == path;
    assert StripTrailingSlashes(p) == StripTrailingSlashes(path);
  }

  /** A directory path `dir/name/`: the line names it `name`, the filter sees an empty name. */
  lemma DirectoryPathNames(dir: string, name: string)
    requires name != [] && '/' !in name
    ensures LastPathComponent(dir + "/" + name + "/") == name
    ensures SourceFileName(dir + "/" + name + "/") == ""
  {
    var path := dir + "/" + name;
    var p := path + "/";
    assert p[|p| - 1] == '/' && p[..|p| - 1] == path;
    assert path[|path| - 1] == name[|name| - 1];
    assert name[|name| - 1] in name;
    assert StripTrailingSlashes(path) == path;
    assert StripTrailingSlashes(p) == path;
    SourceFileNameLastComponent(dir, name);
  }

  /** The root path "/" is named "/" in the line and has the empty name in the filter. */
  lemma RootPathNames()
    ensures LastPathComponent("/") == "/"
    ensures SourceFileName("/") == ""
  {
    assert "/"[..0] == "";
  }

  lemma ContainsFront(part: string, rest: string)
    ensures Contains(part + rest, part)
  {
    assert OccursAt(part + rest, part, 0);
  }

  lemma ContainsBehind(prefix: string, s: string, part: string)
    requires Contains(s, part)
    ensures Contains(prefix + s, part)
  {
    var i :| 0 <= i <= |s| - |part| && OccursAt(s, part, i);
    assert (prefix + s)[|prefix| + i..|prefix| + i + |part|] == s[i..i + |part|];
    assert OccursAt(prefix + s, part, |prefix| + i);
  }

  /** The part of the line after the timestamp and the indicator. */
  function LineAfterIndicator(event: Event, filePath: string, methodName: string, line: nat, message: string): string {
    " [" + (LastPathComponent(filePath) + (" - " + (methodName + (": " + (NatToString(line) + ("] " + message))))))
  }

  lemma {:induction false} AfterIndicatorParts(event: Event, filePath: string, methodName: string, line: nat, message: string)
    ensures var r := LineAfterIndicator(event, filePath, methodName, line, message);
      && Contains(r, LastPathComponent(filePath))
      && Contains(r, methodName)
      && Contains(r, NatToString(line))
  {
    var num := NatToString(line);
    var r6 := num + ("] " + message);
    var r4 := methodName + (": " + r6);
    var r2 := LastPathComponent(filePath) + (" - " + r4);
    ContainsFront(num, "] " + message);
    ContainsBehind(": ", r6, num);
    ContainsFront(methodName, ": " + r6);
    ContainsBehind(methodName, ": " + r6, num);
    ContainsBehind(" - ", r4, num);
    ContainsBehind(" - ", r4, methodName);
    ContainsFront(LastPathComponent(filePath), " - " + r4);
    ContainsBehind(LastPathComponent(filePath), " - " + r4, num);
    ContainsBehind(LastPathComponent(filePath), " - " + r4, methodName);
    ContainsBehind(" [", r2, num);
    ContainsBehind(" [", r2, methodName);
    ContainsBehind(" [", r2, LastPathComponent(filePath));
  }

  /** The returned line holds the level indicator, the file's last path component, the method name, the line number and the message. */
  lemma {:induction false} LogLineParts(timestamp: string, event: Event, filePath: string, methodName: string, line: nat, message: string)
    ensures var l := LogLine(timestamp, event, filePath, methodName, line, message);
      && Contains(l, event.Indicator())
      && Contains(l, LastPathComponent(filePath))
      && Contains(l, methodName)
      && Contains(l, NatToString(line))
      && IsSuffix(message, l)
  {
    var r1 := LineAfterIndicator(event, filePath, methodName, line, message);
    var tail := " " + (event.Indicator() + r1);
    assert LogLine(timestamp, event, filePath, methodName, line, message) == timestamp + tail;
    AfterIndicatorParts(event, filePath, methodName, line, message);
    ContainsFront(event.Indicator(), r1);
    ContainsBehind(event.Indicator(), r1, LastPathComponent(filePath));
    ContainsBehind(event.Indicator(), r1, methodName);
    ContainsBehind(event.Indicator(), r1, NatToString(line));
    ContainsBehind(" ", event.Indicator() + r1, event.Indicator());
    ContainsBehind(" ", event.Indicator() + r1, LastPathComponent(filePath));
    ContainsBehind(" ", event.Indicator() + r1, methodName);
    ContainsBehind(" ", event.Indicator() + r1, NatToString(line));
    ContainsBehind(timestamp, tail, event.Indicator());
    ContainsBehind(timestamp, tail, LastPathComponent(filePath));
    ContainsBehind(timestamp, tail, methodName);
    ContainsBehind(timestamp, tail, NatToString(line));
    MessageIsSuffix(timestamp, event, filePath, methodName, line, message);
  }

  lemma SuffixBehind(prefix: string, s: string, part: string)
    requires IsSuffix(part, s)
    ensures IsSuffix(part, prefix + s)
  {
    assert (prefix + s)[|prefix + s| - |part|..] == s[|s| - |part|..];
  }

  lemma MessageIsSuffix(timestamp: string, event: Event, filePath: string, methodName: string, line: nat, message: string)
    ensures IsSuffix(message, LogLine(timestamp, event, filePath, methodName, line, message))
  {
    var r7 := "] " + message;
    var r6 := NatToString(line) + r7;
    var r5 := ": " + r6;
    var r4 := methodName + r5;
    var r3 := " - " + r4;
    var r2 := LastPathComponent(filePath) + r3;
    var r1 := " [" + r2;
    var r0 := event.Indicator() + r1;
    SuffixBehind("] ", message, message);
    SuffixBehind(NatToString(line), r7, message);
    SuffixBehind(": ", r6, message);
    SuffixBehind(methodName, r5, message);
    SuffixBehind(" - ", r4, message);
    SuffixBehind(LastPathComponent(filePath), r3, message);
    SuffixBehind(" [", r2, message);
    SuffixBehind(event.Indicator(), r1, message);
    SuffixBehind(" ", r0, message);
    SuffixBehind(timestamp, " " + r0, message);
  }

  /** The pieces of `split` for a positive length and a separator: the ends at most `n + |sep|` long, the middle ones at most `n + 2|sep|`. */
  lemma {:induction false} DecoratedPieceLengths(message: string, n: int, sep: string)
    requires n > 0
    ensures var r := Chunking.SplitSpec(message, n, Some(sep));
      && (forall i :: 0 <= i < |r| ==> |r[i]| <= n + 2 * |sep|)
      && |r[0]| <= n + |sep|
      && |r[|r| - 1]| <= n + |sep|
  {
    var pieces := Chunking.Chunks(message, n);
    Chunking.ChunkLengths(message, n);
    Chunking.ChunkCount(message, n);
    if |pieces| > 1 {
      Chunking.DecoratedShape(message, n, sep);
    }
  }

  /**
   * The console pieces reassemble into the message. When the chunk length
   * `truncationLength - |separator|` is positive, the first and the last piece
   * are at most `truncationLength` long and a middle piece at most
   * `truncationLength + |separator|`.
   */
  lemma ConsolePieces(logger: Logger, message: string)
    ensures Concat(Chunking.StripSeparators(logger.MessageToLog(message), Some(logger.config.separator))) == message
    ensures var n, r := logger.config.truncationLength - |logger.config.separator|, logger.MessageToLog(message);
      n > 0 ==>
        && (forall i :: 0 <= i < |r| ==> |r[i]| <= logger.config.truncationLength + |logger.config.separator|)
        && |r[0]| <= logger.config.truncationLength
        && |r[|r| - 1]| <= logger.config.truncationLength
  {
    var sep := logger.config.separator;
    var n := logger.config.truncationLength - |sep|;
    Chunking.SplitRoundTrip(message, n, Some(sep));
    if n > 0 {
      DecoratedPieceLengths(message, n, sep);
    }
  }
}
