/**
 * The application logger: a logger value carries a map of fields that every line it writes
 * appends; WithField and WithFields derive a new logger with a copied, extended map and leave
 * the receiver alone. The plain line format is modelled; the timestamp text and the caller's
 * file and line are parameters.
 */
module Logger {
  import opened Wrappers
  import opened Text

  /** Format: pretty (coloured, the default), json or plain. */
  datatype Format = Pretty | Json | Plain

  function FormatName(f: Format): string
  {
    match f
    case Pretty => "pretty"
    case Json => "json"
    case Plain => "plain"
  }

  datatype Config = Config(logDir: string, writeToFile: bool, format: Format, useColors: bool)

  /** DefaultConfig: logs under "logs", console only, pretty and coloured. */
  function DefaultConfig(): (cfg: Config)
    ensures cfg.logDir == "logs" && !cfg.writeToFile
    ensures cfg.format == Pretty && FormatName(cfg.format) == "pretty" && cfg.useColors
  {
    Config("logs", false, Pretty, true)
  }

  /** The io.Writer a logger writes to. */
  datatype Writer = NoWriter | Stdout | AppendFile(path: string)

  /** The field values the core logs: strings and integers. */
  datatype Value = Text(text: string) | Number(n: int)

  /** How %v prints a field value. */
  function Show(v: Value): string
  {
    match v
    case Text(t) => t
    case Number(n) => FormatInt(n)
  }

  /** A log level and its name. */
  datatype Level = Info | Warn | Error

  function LevelName(level: Level): string
  {
    match level
    case Info => "INFO"
    case Warn => "WARN"
    case Error => "ERROR"
  }

  /** The start of a plain line: "<time> [<level padded to 5>] [<file>:<line>] <msg>". */
  function PlainHeader(time: string, level: string, file: string, line: int, msg: string): string
  {
    time + " [" + PadRight(level, 5) + "] [" + file + ":" + FormatInt(line) + "] " + msg
  }

  /** The " k=v" pairs of `fields` written in the order `keys`. */
  function PlainPairs(keys: seq<string>, fields: map<string, Value>): string
    requires forall i :: 0 <= i < |keys| ==> keys[i] in fields
  {
    if |keys| == 0 then "" else PlainPairs(keys[..|keys| - 1], fields) + " " + keys[|keys| - 1] + "=" + Show(fields[keys[|keys| - 1]])
  }

  /** `keys` lists every key of `fields` exactly once: one possible iteration order of the map. */
  predicate IterationOrder(keys: seq<string>, fields: map<string, Value>)
  {
    (forall i :: 0 <= i < |keys| ==> keys[i] in fields) &&
    (forall k :: k in fields ==> k in keys) &&
    (forall i, j :: 0 <= i < j < |keys| ==> keys[i] != keys[j])
  }

  /** The set of the first `n` keys of an order, as a sequence with no repeats, has n elements. */
  lemma {:induction false} DistinctPrefixSize(keys: seq<string>, n: nat)
    requires n <= |keys|
    requires forall i, j :: 0 <= i < j < |keys| ==> keys[i] != keys[j]
    ensures |set i | 0 <= i < n :: keys[i]| == n
  {
    if n > 0 {
      DistinctPrefixSize(keys, n - 1);
      var before := set i | 0 <= i < n - 1 :: keys[i];
      assert (set i | 0 <= i < n :: keys[i]) == before + {keys[n - 1]};
      assert keys[n - 1] !in before;
    }
  }

  /** An iteration order is as long as the map is large. */
  lemma IterationOrderLength(keys: seq<string>, fields: map<string, Value>)
    requires IterationOrder(keys, fields)
    ensures |keys| == |fields|
  {
    DistinctPrefixSize(keys, |keys|);
    assert (set i | 0 <= i < |keys| :: keys[i]) == fields.Keys;
  }

  /** A whole plain line for the fields written in the order `keys`. */
  function PlainLine(time: string, level: string, file: string, line: int, msg: string,
                     fields: map<string, Value>, keys: seq<string>): string
    requires forall i :: 0 <= i < |keys| ==> keys[i] in fields
  {
    if |fields| == 0 then PlainHeader(time, level, file, line, msg)
    else PlainHeader(time, level, file, line, msg) + " |" + PlainPairs(keys, fields)
  }

  /** A path with its trailing slashes removed. */
  function TrimTrailingSlashes(path: string): (r: string)
    ensures r <= path
    ensures r == "" || r[|r| - 1] != '/'
    ensures forall i :: |r| <= i < |path| ==> path[i] == '/'
  {
    if |path| > 0 && path[|path| - 1] == '/' then TrimTrailingSlashes(path[..|path| - 1]) else path
  }

  /** The text after the last '/' of a path (all of it when there is none). */
  function AfterLastSlash(path: string): (r: string)
    ensures '/' !in r
    ensures |r| <= |path| && r == path[|path| - |r|..]
    ensures |path| > 0 && path[|path| - 1] != '/' ==> r != ""
  {
    if |path| == 0 || path[|path| - 1] == '/' then ""
    else AfterLastSlash(path[..|path| - 1]) + [path[|path| - 1]]
  }

  /** filepath.Base: "." for "", "/" for only slashes, otherwise the last element with trailing slashes dropped. */
  function BaseName(path: string): (r: string)
    ensures r != ""
    ensures path == "" ==> r == "."
    ensures path != "" && TrimTrailingSlashes(path) == "" ==> r == "/"
    ensures path != "" && TrimTrailingSlashes(path) != "" ==> '/' !in r && r == AfterLastSlash(TrimTrailingSlashes(path))
  {
    if path == "" then "."
    else
      var trimmed := TrimTrailingSlashes(path);
      if trimmed == "" then "/" else AfterLastSlash(trimmed)
  }

  /**
   * One step of filepath.Clean's lexical walk over the elements of a path: empty elements and
   * "." vanish, ".." removes the element before it (or is dropped at the root, or kept when
   * nothing can be removed in a relative path), anything else is appended.
   */
  function CleanStep(out: seq<string>, elem: string, rooted: bool): (next: seq<string>)
  {
    if elem == "" || elem == "." then out
    else if elem == ".." then
      if |out| > 0 && out[|out| - 1] != ".." then out[..|out| - 1]
      else if rooted then out
      else out + [".."]
    else out + [elem]
  }

  /** The elements Clean keeps, walking `elems` from left to right. */
  function CleanElements(elems: seq<string>, rooted: bool): (out: seq<string>)
    ensures |out| <= |elems|
  {
    if |elems| == 0 then []
    else CleanStep(CleanElements(elems[..|elems| - 1], rooted), elems[|elems| - 1], rooted)
  }

  /** filepath.Clean on a Unix path: the shortest lexically equivalent path, "." for nothing. */
  function Clean(path: string): (r: string)
    ensures r != ""
    ensures |path| > 0 && path[0] == '/' ==> r[0] == '/'
  {
    var rooted := |path| > 0 && path[0] == '/';
    var out := CleanElements(Split(path, '/'), rooted);
    var body := if |out| == 0 then "" else Join(out, '/');
    if rooted then "/" + body else if body == "" then "." else body
  }

  /** Joining one more segment to a join puts the separator between them. */
  lemma {:induction false} JoinAppend(parts: seq<string>, last: string, sep: char)
    requires |parts| >= 1
    ensures Join(parts + [last], sep) == Join(parts, sep) + [sep] + last
  {
    if |parts| > 1 {
      JoinAppend(parts[1..], last, sep);
      assert (parts + [last])[1..] == parts[1..] + [last];
    }
  }

  /** A name Clean keeps as it is: not empty, not "." or "..", and without a '/'. */
  predicate PlainName(name: string)
  {
    name != "" && name != "." && name != ".." && '/' !in name
  }

  /** A directory followed by "/" and a name splits into the directory's elements and the name. */
  lemma {:induction false} SplitDirName(dir: string, name: string)
    requires '/' !in name
    ensures Split(dir + "/" + name, '/') == Split(dir, '/') + [name]
  {
    var parts := Split(dir, '/');
    JoinSplit(dir, '/');
    JoinAppend(parts, name, '/');
    assert dir + "/" + name == Join(parts + [name], '/');
    assert forall i :: 0 <= i < |parts + [name]| ==> '/' !in (parts + [name])[i];
    SplitJoin(parts + [name], '/');
  }

  /** A plain name at the end of the walk is appended to whatever the walk kept before it. */
  lemma CleanElementsAppendName(elems: seq<string>, rooted: bool, name: string)
    requires PlainName(name)
    ensures CleanElements(elems + [name], rooted) == CleanElements(elems, rooted) + [name]
  {
    assert (elems + [name])[..|elems|] == elems;
  }

  /** Cleaning a directory followed by "/" and a plain name keeps the name as the last element. */
  lemma {:induction false} CleanKeepsName(dir: string, name: string)
    requires dir != "" && PlainName(name)
    ensures var path := Clean(dir + "/" + name);
      path == name || (|path| > |name| && path[|path| - |name| - 1..] == "/" + name)
  {
    var path := dir + "/" + name;
    SplitDirName(dir, name);
    var rooted := dir[0] == '/';
    assert path[0] == dir[0];
    var elems := Split(dir, '/');
    var out := CleanElements(elems, rooted);
    CleanElementsAppendName(elems, rooted, name);
    var body := if |out| == 0 then name else Join(out, '/') + "/" + name;
    if |out| > 0 {
      JoinAppend(out, name, '/');
    } else {
      assert [name] == [] + [name];
    }
    assert Clean(path) == (if rooted then "/" + body else body);
  }

  /** filepath.Join(logDir, "app.log"): an empty directory is skipped, otherwise the joined path is cleaned. */
  function LogFilePath(logDir: string): (path: string)
    ensures path == "app.log" || (|path| >= 8 && path[|path| - 8..] == "/app.log")
  {
    if logDir == "" then "app.log"
    else
      var name := "app.log";
      CleanKeepsName(logDir, name);
      assert |name| == 7 && "/" + name == "/app.log";
      Clean(logDir + "/" + name)
  }

  /** A plain directory name and a plain file name join to a path Clean leaves alone. */
  lemma {:induction false} CleanPlainDirName(dir: string, name: string)
    requires PlainName(dir) && PlainName(name)
    ensures Clean(dir + "/" + name) == dir + "/" + name
  {
    var elems := Split(dir, '/');
    JoinSplit(dir, '/');
    assert elems == [dir];
    SplitDirName(dir, name);
    CleanElementsAppendName([], false, dir);
    CleanElementsAppendName([dir], false, name);
    assert [] + [dir] == [dir] && [dir] + [name] == [dir, name];
    assert Join([dir, name], '/') == dir + "/" + name;
    assert (dir + "/" + name)[0] == dir[0] != '/';
  }

  /** A directory that is a single plain name, such as the default "logs", gets "<dir>/app.log". */
  lemma {:induction false} LogFilePathPlainDir(logDir: string)
    requires PlainName(logDir)
    ensures LogFilePath(logDir) == logDir + "/app.log"
  {
    CleanPlainDirName(logDir, "app.log");
  }

  /** What `log` writes to the console: the plain line, or a JSON or pretty line (not modelled). */
  datatype ConsoleLine = PlainOut(text: string) | JsonOut | PrettyOut(colors: bool)

  class CustomLogger {
    var consoleWriter: Writer
    var fileWriter: Writer
    var fields: map<string, Value>
    var format: Format
    var useColors: bool

    /** NewCustomLoggerWithConfig, when the log file can be opened: stdout, and <LogDir>/app.log when asked for. */
    constructor (cfg: Config)
      ensures consoleWriter == Stdout && fields == map[]
      ensures fileWriter == (if cfg.writeToFile then AppendFile(LogFilePath(cfg.logDir)) else NoWriter)
      ensures format == cfg.format && useColors == cfg.useColors
    {
      consoleWriter := Stdout;
      fileWriter := if cfg.writeToFile then AppendFile(LogFilePath(cfg.logDir)) else NoWriter;
      fields := map[];
      format := cfg.format;
      useColors := cfg.useColors;
    }

    /** A new logger with every field given; the field map is copied in by the caller. */
    constructor Of(consoleWriter: Writer, fileWriter: Writer, format: Format, useColors: bool)
      ensures this.consoleWriter == consoleWriter && this.fileWriter == fileWriter
      ensures this.format == format && this.useColors == useColors && fields == map[]
    {
      this.consoleWriter := consoleWriter;
      this.fileWriter := fileWriter;
      this.fields := map[];
      this.format := format;
      this.useColors := useColors;
    }

    /** clone: a new logger with the same writers and format and a fresh copy of the field map, built entry by entry. */
    method Clone() returns (copy: CustomLogger)
      ensures fresh(copy)
      ensures copy.fields == fields
      ensures copy.consoleWriter == consoleWriter && copy.fileWriter == fileWriter
      ensures copy.format == format && copy.useColors == useColors
    {
      var newFields: map<string, Value> := map[];
      var pending := fields.Keys;
      while pending != {}
        invariant pending <= fields.Keys
        invariant forall k :: k in newFields <==> k in fields && k !in pending
        invariant forall k :: k in newFields ==> newFields[k] == fields[k]
        decreases pending
      {
        var k :| k in pending;
        newFields := newFields[k := fields[k]];
        pending := pending - {k};
      }
      copy := new CustomLogger.Of(consoleWriter, fileWriter, format, useColors);
      copy.fields := newFields;
    }

    /** WithField: a new logger whose fields are the receiver's with `key` set to `value`; the receiver keeps its own. */
    method WithField(key: string, value: Value) returns (derived: CustomLogger)
      ensures fresh(derived)
      ensures derived.fields == fields[key := value]
      ensures key in derived.fields && derived.fields[key] == value
      ensures forall k :: k != key ==> (k in derived.fields <==> k in fields)
      ensures derived.consoleWriter == consoleWriter && derived.fileWriter == fileWriter
      ensures derived.format == format && derived.useColors == useColors
    {
      derived := Clone();
      derived.fields := derived.fields[key := value];
    }

    /**
     * WithFields: a new logger whose fields are the receiver's overridden by every entry of
     * `extra`, added one by one; the receiver keeps its own.
     */
    method WithFields(extra: map<string, Value>) returns (derived: CustomLogger)
      ensures fresh(derived)
      ensures forall k :: k in derived.fields <==> k in fields || k in extra
      ensures forall k :: k in extra ==> derived.fields[k] == extra[k]
      ensures forall k :: k in fields && k !in extra ==> derived.fields[k] == fields[k]
      ensures derived.consoleWriter == consoleWriter && derived.fileWriter == fileWriter
      ensures derived.format == format && derived.useColors == useColors
    {
      derived := Clone();
      var pending := extra.Keys;
      while pending != {}
        invariant pending <= extra.Keys
        invariant forall k :: k in derived.fields <==> k in fields || (k in extra && k !in pending)
        invariant forall k :: k in extra && k !in pending ==> derived.fields[k] == extra[k]
        invariant forall k :: k in fields && (k !in extra || k in pending) ==> derived.fields[k] == fields[k]
        invariant derived.consoleWriter == consoleWriter && derived.fileWriter == fileWriter
        invariant derived.format == format && derived.useColors == useColors
        decreases pending
      {
        var k :| k in pending;
        derived.fields := derived.fields[k := extra[k]];
        pending := pending - {k};
      }
    }

    /**
     * log: the caller's file (its base name, "???" when unknown) and line (0 when unknown) go
     * into the line; the console gets the line in the logger's format, the log file always the
     * plain line. Each write iterates the fields afresh, so the two may list them in different orders.
     */
    method Log(level: string, msg: string, plainTime: string, caller: Option<(string, int)>)
      returns (console: Option<ConsoleLine>, file: Option<string>, consoleOrder: seq<string>, fileOrder: seq<string>)
      ensures var (shortFile, line) := if caller.Some? then (BaseName(caller.value.0), caller.value.1) else (BaseName("???"), 0);
        (consoleWriter == NoWriter <==> console.None?) &&
        (consoleWriter != NoWriter && format == Plain ==>
          (IterationOrder(consoleOrder, fields) && console == Some(PlainOut(PlainLine(plainTime, level, shortFile, line, msg, fields, consoleOrder))))) &&
        (consoleWriter != NoWriter && format == Json ==> console == Some(JsonOut)) &&
        (consoleWriter != NoWriter && format == Pretty ==> console == Some(PrettyOut(useColors))) &&
        (fileWriter == NoWriter <==> file.None?) &&
        (fileWriter != NoWriter ==> IterationOrder(fileOrder, fields) && file == Some(PlainLine(plainTime, level, shortFile, line, msg, fields, fileOrder)))
    {
      var callerFile, line := "???", 0;
      if caller.Some? {
        callerFile, line := caller.value.0, caller.value.1;
      }
      var shortFile := BaseName(callerFile);
      console, file := None, None;
      consoleOrder, fileOrder := [], [];
      if consoleWriter != NoWriter {
        match format {
          case Json => console := Some(JsonOut);
          case Plain =>
            var output;
            output, consoleOrder := FormatPlain(plainTime, level, msg, shortFile, line, fields);
            console := Some(PlainOut(output));
          case Pretty => console := Some(PrettyOut(useColors));
        }
      }
      if fileWriter != NoWriter {
        var output;
        output, fileOrder := FormatPlain(plainTime, level, msg, shortFile, line, fields);
        file := Some(output);
      }
    }
  }

  /** The loop of formatPlain over the fields: one " k=v" per field, in the order the map hands them out. */
  method WritePairs(fields: map<string, Value>) returns (pairs: string, order: seq<string>)
    ensures IterationOrder(order, fields)
    ensures pairs == PlainPairs(order, fields)
  {
    pairs := "";
    order := [];
    var pending := fields.Keys;
    while pending != {}
      invariant pending <= fields.Keys
      invariant forall i :: 0 <= i < |order| ==> order[i] in fields && order[i] !in pending
      invariant forall k :: k in fields ==> k in order || k in pending
      invariant forall i, j :: 0 <= i < j < |order| ==> order[i] != order[j]
      invariant pairs == PlainPairs(order, fields)
      decreases pending
    {
      var k :| k in pending;
      pairs := pairs + " " + k + "=" + Show(fields[k]);
      ghost var before := order;
      order := order + [k];
      assert order[..|order| - 1] == before;
      pending := pending - {k};
    }
  }

  /**
   * formatPlain: the header, then, only when there are fields, " |" and one " k=v" per field
   * in the map's iteration order (returned as `order`, which Go leaves unspecified).
   */
  method FormatPlain(time: string, level: string, msg: string, file: string, line: int, fields: map<string, Value>)
    returns (result: string, order: seq<string>)
    ensures IterationOrder(order, fields) && |order| == |fields|
    ensures result == PlainLine(time, level, file, line, msg, fields, order)
    ensures |fields| == 0 ==> result == PlainHeader(time, level, file, line, msg)
    ensures |fields| > 0 ==> result == PlainHeader(time, level, file, line, msg) + " |" + PlainPairs(order, fields)
  {
    result := PlainHeader(time, level, file, line, msg);
    order := [];
    if |fields| > 0 {
      var pairs;
      pairs, order := WritePairs(fields);
      result := result + " |" + pairs;
    }
    IterationOrderLength(order, fields);
  }

  /**
   * Two loggers derived from the same parent each see only their own field, and the parent
   * still has none: deriving copies the map instead of sharing it.
   */
  method DerivedLoggersAreIndependent(cfg: Config, k1: string, v1: Value, k2: string, v2: Value)
    returns (parent: map<string, Value>, first: map<string, Value>, second: map<string, Value>)
    requires k1 != k2
    ensures parent == map[]
    ensures first == map[k1 := v1] && k2 !in first
    ensures second == map[k2 := v2] && k1 !in second
  {
    var root := new CustomLogger(cfg);
    var a := root.WithField(k1, v1);
    var b := root.WithField(k2, v2);
    parent, first, second := root.fields, a.fields, b.fields;
  }

  /** NopLogger: derives nothing; WithField and WithFields hand back the receiver itself. */
  class NopLogger {
    constructor ()
    {
    }

    method WithField(key: string, value: Value) returns (l: NopLogger)
      ensures l == this
    {
      l := this;
    }

    method WithFields(extra: map<string, Value>) returns (l: NopLogger)
      ensures l == this
    {
      l := this;
    }
  }
}
