/** internal/logger/logger.go: the package-level logging helpers. The zap
    logger itself is abstract: what matters is which records reach it, with
    which fields. `runtime.Caller` is an input (`frame`: the calling frame's
    function name, file and line, or nothing when the lookup fails). */
module Logger {
  import opened Wrappers
  import opened Strings
  import opened WecomHook

  /** The two zap encoders `getEncoder` chooses between. */
  datatype Encoder = JsonEncoder | ConsoleEncoder

  /** `getEncoder`: JSON exactly when the configured format is "json". */
  function GetEncoder(format: string): (e: Encoder)
    ensures e == JsonEncoder <==> format == "json"
    ensures e == ConsoleEncoder <==> format != "json"
  {
    if format == "json" then JsonEncoder else ConsoleEncoder
  }

  /** What `runtime.Caller` and `runtime.FuncForPC(pc).Name()` report. */
  datatype Frame = Frame(funcName: string, file: string, line: int)

  /** The `(file, funcName, line)` triple of `getCallerInfo`. */
  datatype CallerInfo = CallerInfo(file: string, funcName: string, line: int)

  /** `s` ends with `r`, `r` holds no `sep`, and `r` is all of `s` or follows a `sep`. */
  predicate IsLastSegment(s: string, sep: char, r: string)
  {
    sep !in r && HasSuffix(s, r) && (|r| == |s| || s[|s| - |r| - 1] == sep)
  }

  /** `getCallerInfo`: "unknown", "unknown", 0 when the lookup fails; otherwise
      the name after the last '.' of the qualified function name, the name after
      the last '/' of the file path, and the line. */
  function GetCallerInfo(frame: Option<Frame>): (r: CallerInfo)
    ensures frame.None? ==> r == CallerInfo("unknown", "unknown", 0)
    ensures frame.Some? ==>
              && r.line == frame.value.line
              && IsLastSegment(frame.value.funcName, '.', r.funcName)
              && IsLastSegment(frame.value.file, '/', r.file)
  {
    match frame
    case None => CallerInfo("unknown", "unknown", 0)
    case Some(f) =>
      LastSegmentIsMaximalSuffix(f.funcName, '.');
      LastSegmentIsMaximalSuffix(f.file, '/');
      CallerInfo(LastSegment(f.file, '/'), LastSegment(f.funcName, '.'), f.line)
  }

  /** For a function `pkg.name` in file `dir/file`, the caller info is `file`, `name`. */
  lemma CallerInfoOfQualifiedName(pkg: string, name: string, dir: string, file: string, line: int)
    requires '.' !in name && '/' !in file
    ensures GetCallerInfo(Some(Frame(pkg + "." + name, dir + "/" + file, line))) == CallerInfo(file, name, line)
  {
    LastSegmentAfterSep(pkg, '.', name);
    LastSegmentAfterSep(dir, '/', file);
  }

  /** A zap field, as far as the helpers build them. */
  datatype Field = StringField(key: string, text: string) | IntField(key: string, number: int) | OtherField(key: string)

  /** The three fields that describe the caller. */
  function CallerFields(c: CallerInfo): seq<Field>
  {
    [StringField("file", c.file), StringField("func", c.funcName), IntField("line", c.line)]
  }

  /** `addCallerInfo`: the message unchanged; the caller's file, function and
      line in front of the original fields, which follow in their order. */
  method AddCallerInfo(msg: string, fields: seq<Field>, frame: Option<Frame>)
    returns (outMsg: string, newFields: seq<Field>)
    ensures outMsg == msg
    ensures |newFields| == |fields| + 3
    ensures var c := GetCallerInfo(frame);
      && newFields[0] == StringField("file", c.file)
      && newFields[1] == StringField("func", c.funcName)
      && newFields[2] == IntField("line", c.line)
    ensures newFields[3..] == fields
  {
    var c := GetCallerInfo(frame);
    newFields := [];
    newFields := newFields + CallerFields(c);
    newFields := newFields + fields;
    outMsg := msg;
  }

  /** One call that reached the zap logger. */
  datatype Record = Record(level: Level, msg: string, fields: seq<Field>)

  /** The package-level `logger` variable: nil until set up, and the records
      written through it. */
  class GlobalLogger {
    var installed: bool
    var written: seq<Record>

    constructor(installed: bool)
      ensures this.installed == installed && written == []
    {
      this.installed := installed;
      written := [];
    }

    /** The shared body of the `LogX` helpers: nothing without a logger;
        otherwise one record at `level` with the caller fields prepended. */
    method Emit(level: Level, msg: string, fields: seq<Field>, frame: Option<Frame>)
      modifies this
      ensures installed == old(installed)
      ensures !installed ==> written == old(written)
      ensures installed ==> written == old(written) + [Record(level, msg, CallerFields(GetCallerInfo(frame)) + fields)]
    {
      if !installed {
        return;
      }
      var outMsg, newFields := AddCallerInfo(msg, fields, frame);
      assert newFields == CallerFields(GetCallerInfo(frame)) + fields;
      written := written + [Record(level, outMsg, newFields)];
    }

    /** `LogDebug`. */
    method LogDebug(msg: string, fields: seq<Field>, frame: Option<Frame>)
      modifies this
      ensures installed == old(installed)
      ensures !installed ==> written == old(written)
      ensures installed ==> written == old(written) + [Record(DebugLevel, msg, CallerFields(GetCallerInfo(frame)) + fields)]
    {
      Emit(DebugLevel, msg, fields, frame);
    }

    /** `LogInfo`. */
    method LogInfo(msg: string, fields: seq<Field>, frame: Option<Frame>)
      modifies this
      ensures installed == old(installed)
      ensures !installed ==> written == old(written)
      ensures installed ==> written == old(written) + [Record(InfoLevel, msg, CallerFields(GetCallerInfo(frame)) + fields)]
    {
      Emit(InfoLevel, msg, fields, frame);
    }

    /** `LogWarn`. */
    method LogWarn(msg: string, fields: seq<Field>, frame: Option<Frame>)
      modifies this
      ensures installed == old(installed)
      ensures !installed ==> written == old(written)
      ensures installed ==> written == old(written) + [Record(WarnLevel, msg, CallerFields(GetCallerInfo(frame)) + fields)]
    {
      Emit(WarnLevel, msg, fields, frame);
    }

    /** `LogError`. */
    method LogError(msg: string, fields: seq<Field>, frame: Option<Frame>)
      modifies this
      ensures installed == old(installed)
      ensures !installed ==> written == old(written)
      ensures installed ==> written == old(written) + [Record(ErrorLevel, msg, CallerFields(GetCallerInfo(frame)) + fields)]
    {
      Emit(ErrorLevel, msg, fields, frame);
    }
  }
}
