/** internal/logger/hook.go: the hook that forwards log entries of selected
    levels to a WeCom (企业微信) group-robot webhook as a markdown message. The
    HTTP POST is an input: `post` is what `http.Post` returns. */
module WecomHook {
  import opened Wrappers
  import opened Strings
  import opened Clock

  /** zapcore's levels. */
  datatype Level = DebugLevel | InfoLevel | WarnLevel | ErrorLevel | DPanicLevel | PanicLevel | FatalLevel

  /** `zapcore.Level.String()`. */
  function LevelString(l: Level): string
  {
    match l
    case DebugLevel => "debug"
    case InfoLevel => "info"
    case WarnLevel => "warn"
    case ErrorLevel => "error"
    case DPanicLevel => "dpanic"
    case PanicLevel => "panic"
    case FatalLevel => "fatal"
  }

  /** The part of `zapcore.EntryCaller` the message shows. */
  datatype EntryCaller = EntryCaller(file: string, funcName: string, line: int)

  /** The part of `zapcore.Entry` the hook reads. */
  datatype Entry = Entry(level: Level, time: DateTime, caller: EntryCaller, message: string, stack: string)

  /** `WecomHook` as built by `NewWecomHook(levels, webhookURL)`. */
  datatype Hook = Hook(levels: seq<string>, webhookUrl: string)

  /** The JSON document posted: `{"msgtype": ..., "markdown": {"content": ...}}`. */
  datatype Payload = Payload(msgtype: string, markdown: map<string, string>)

  datatype PostRequest = PostRequest(url: string, contentType: string, payload: Payload)

  /** What `http.Post` returns: a transport error, or a response's status code. */
  datatype PostOutcome = PostFailed(message: string) | PostResponse(statusCode: int)

  /** A configured level names `levelStr`, ignoring the case of the configuration. */
  predicate LevelEnabled(levels: seq<string>, levelStr: string)
  {
    exists i :: 0 <= i < |levels| && ToLower(levels[i]) == levelStr
  }

  /** The `shouldProcess` loop: stops at the first configured level that matches. */
  method ShouldProcess(levels: seq<string>, levelStr: string) returns (shouldProcess: bool)
    ensures shouldProcess <==> LevelEnabled(levels, levelStr)
  {
    shouldProcess := false;
    var i := 0;
    while i < |levels|
      invariant 0 <= i <= |levels|
      invariant !shouldProcess
      invariant forall j :: 0 <= j < i ==> ToLower(levels[j]) != levelStr
    {
      if levelStr == ToLower(levels[i]) {
        shouldProcess := true;
        break;
      }
      i := i + 1;
    }
  }

  /** The level test does not depend on how the configuration spells its levels. */
  lemma {:induction false} ConfiguredCaseIsIrrelevant(levels: seq<string>, levelStr: string)
    ensures LevelEnabled(levels, levelStr)
        <==> LevelEnabled(seq(|levels|, i requires 0 <= i < |levels| => ToUpper(levels[i])), levelStr)
  {
    var upper := seq(|levels|, i requires 0 <= i < |levels| => ToUpper(levels[i]));
    forall i | 0 <= i < |levels|
      ensures ToLower(upper[i]) == ToLower(levels[i])
    {
      CaseFolding(levels[i]);
    }
  }

  /** "【ERROR告警】": the first line of the alert. */
  function AlertTitle(levelStr: string): string
  {
    "【" + ToUpper(levelStr) + "告警】"
  }

  /** The lines of the `fmt.Sprintf` template, in order: title, time, file,
      function, line number, message. */
  function AlertLines(levelStr: string, entry: Entry): seq<string>
  {
    [AlertTitle(levelStr),
     "时间：" + AlertStamp(entry.time),
     "文件：" + entry.caller.file,
     "函数：" + entry.caller.funcName,
     "行号：" + IntToString(entry.caller.line),
     "消息：" + entry.message]
  }

  /** The stack section appended for an entry with a stack. */
  function StackSection(stack: string): string
  {
    "\n堆栈信息：\n" + stack
  }

  /** The filled-in template: its lines joined by line breaks. */
  function AlertHeader(levelStr: string, entry: Entry): string
  {
    Join(AlertLines(levelStr, entry), '\n')
  }

  /** The markdown message that `Fire` posts for an entry at level `levelStr`. */
  function AlertMessage(levelStr: string, entry: Entry): string
  {
    AlertHeader(levelStr, entry) + (if entry.stack != "" then StackSection(entry.stack) else "")
  }

  /** The lower-cased level name `Fire` filters on. */
  function EntryLevel(entry: Entry): string
  {
    ToLower(LevelString(entry.level))
  }

  /** `Fire`: nothing is sent for a level the hook is not configured for;
      otherwise the alert is posted to the webhook, and a transport error or a
      status other than 200 is reported. A JSON-encoding failure cannot arise
      from a map of strings, so its branch is not modelled. */
  method Fire(hook: Hook, entry: Entry, post: PostOutcome) returns (err: Option<string>, sent: Option<PostRequest>)
    ensures !LevelEnabled(hook.levels, EntryLevel(entry)) ==> err.None? && sent.None?
    ensures var levelStr := EntryLevel(entry);
      LevelEnabled(hook.levels, levelStr) ==>
        && sent == Some(PostRequest(hook.webhookUrl, "application/json",
                                    Payload("markdown", map["content" := AlertMessage(levelStr, entry)])))
        && err == (match post
                   case PostFailed(m) => Some("failed to send wecom message: " + m)
                   case PostResponse(code) =>
                     if code == 200 then None else Some("wecom API returned non-200 status code: " + IntToString(code)))
  {
    var levelStr := EntryLevel(entry);
    var shouldProcess := ShouldProcess(hook.levels, levelStr);
    if !shouldProcess {
      return None, None;
    }
    var message := AlertHeader(levelStr, entry);
    if entry.stack != "" {
      message := message + StackSection(entry.stack);
    }
    assert message == AlertMessage(levelStr, entry);
    var wecomMsg := Payload("markdown", map["content" := message]);
    sent := Some(PostRequest(hook.webhookUrl, "application/json", wecomMsg));
    if post.PostFailed? {
      return Some("failed to send wecom message: " + post.message), sent;
    }
    if post.statusCode != 200 {
      return Some("wecom API returned non-200 status code: " + IntToString(post.statusCode)), sent;
    }
    err := None;
  }

  // ---------------------------------------------------------------------------
  // The layout of the message

  /** Lines joined by line breaks, with anything appended, begin with the first
      line and a line break. */
  lemma JoinedLinesStartWith(lines: seq<string>, tail: string)
    requires |lines| >= 2
    ensures HasPrefix(Join(lines, '\n') + tail, lines[0] + "\n")
  {
    var p, q := lines[0] + "\n", Join(lines[1..], '\n') + tail;
    assert Join(lines, '\n') + tail == p + q;
    assert (p + q)[..|p|] == p;
  }

  /** The message opens with the upper-cased level in the alert title, on a line
      of its own. */
  lemma AlertStartsWithTitle(levelStr: string, entry: Entry)
    ensures HasPrefix(AlertMessage(levelStr, entry), "【" + ToUpper(levelStr) + "告警】" + "\n")
  {
    var tail := if entry.stack != "" then StackSection(entry.stack) else "";
    JoinedLinesStartWith(AlertLines(levelStr, entry), tail);
  }

  /** Without a stack the message is exactly the six template lines; with one,
      the template lines are followed by the stack section, which ends with the stack. */
  lemma StackOnlyWhenPresent(levelStr: string, entry: Entry)
    ensures var header := AlertHeader(levelStr, entry);
      var m := AlertMessage(levelStr, entry);
      && HasPrefix(m, header)
      && (entry.stack == "" <==> m == header)
      && (entry.stack != "" ==> HasSuffix(m, "\n堆栈信息：\n" + entry.stack))
  {
  }

  /** Two single-line pieces make a single-line piece. */
  lemma LabelledLine(caption: string, s: string)
    requires '\n' !in caption && '\n' !in s
    ensures '\n' !in caption + s
  {
  }

  /** The characters a decimal number is written with. */
  lemma NumberHasNoNewline(i: int)
    ensures '\n' !in IntToString(i)
  {
    var digits := if i < 0 then NatToString(-i) else NatToString(i);
    assert forall k :: 0 <= k < |digits| ==> digits[k] != '\n';
    if i < 0 {
      assert IntToString(i) == "-" + digits;
    }
  }

  /** Case mapping only moves letters, so it creates no line break. */
  lemma UpperHasNoNewline(s: string)
    requires '\n' !in s
    ensures '\n' !in ToUpper(s)
  {
    forall k | 0 <= k < |s|
      ensures ToUpper(s)[k] != '\n'
    {
      assert s[k] != '\n';
    }
  }

  /** Digits are no line break. */
  lemma DigitsHaveNoNewline(s: string)
    requires IsDigits(s)
    ensures '\n' !in s
  {
    forall i | 0 <= i < |s| ensures s[i] != '\n' {
    }
  }

  /** The "2006-01-02 15:04:05" arrangement of single-line groups is single-line. */
  lemma AlertLayoutHasNoNewline(y: string, mo: string, d: string, h: string, mi: string, se: string)
    requires '\n' !in y && '\n' !in mo && '\n' !in d && '\n' !in h && '\n' !in mi && '\n' !in se
    ensures '\n' !in y + "-" + mo + "-" + d + " " + h + ":" + mi + ":" + se
  {
  }

  /** The time stamp of an alert is on one line. */
  lemma StampHasNoNewline(t: DateTime)
    ensures '\n' !in AlertStamp(t)
  {
    var y, mo, d := ZeroPad(t.year, 4), ZeroPad(t.month, 2), ZeroPad(t.day, 2);
    var h, mi, se := ZeroPad(t.hour, 2), ZeroPad(t.minute, 2), ZeroPad(t.second, 2);
    DigitsHaveNoNewline(y);
    DigitsHaveNoNewline(mo);
    DigitsHaveNoNewline(d);
    DigitsHaveNoNewline(h);
    DigitsHaveNoNewline(mi);
    DigitsHaveNoNewline(se);
    AlertLayoutHasNoNewline(y, mo, d, h, mi, se);
  }

  /** The title is single-line when the level is. */
  lemma TitleIsSingleLine(levelStr: string)
    requires '\n' !in levelStr
    ensures '\n' !in AlertTitle(levelStr)
  {
    UpperHasNoNewline(levelStr);
    LabelledLine("【", ToUpper(levelStr));
    LabelledLine("【" + ToUpper(levelStr), "告警】");
  }

  /** The time line is single-line. */
  lemma TimeLineIsSingleLine(t: DateTime)
    ensures '\n' !in "时间：" + AlertStamp(t)
  {
    StampHasNoNewline(t);
    LabelledLine("时间：", AlertStamp(t));
  }

  /** The line-number line is single-line. */
  lemma LineNumberIsSingleLine(line: int)
    ensures '\n' !in "行号：" + IntToString(line)
  {
    NumberHasNoNewline(line);
    LabelledLine("行号：", IntToString(line));
  }

  /** Six single-line pieces, joined by line breaks, split back into themselves. */
  lemma SixLinesSplit(l0: string, l1: string, l2: string, l3: string, l4: string, l5: string)
    requires '\n' !in l0 && '\n' !in l1 && '\n' !in l2 && '\n' !in l3 && '\n' !in l4 && '\n' !in l5
    ensures Split(Join([l0, l1, l2, l3, l4, l5], '\n'), '\n') == [l0, l1, l2, l3, l4, l5]
  {
    var lines := [l0, l1, l2, l3, l4, l5];
    forall i | 0 <= i < |lines|
      ensures '\n' !in lines[i]
    {
      if i == 0 {} else if i == 1 {} else if i == 2 {} else if i == 3 {} else if i == 4 {} else {}
    }
    SplitJoin(lines, '\n');
  }

  /** When level, file, function and message are single-line and there is no
      stack, splitting the alert at line breaks gives back the template lines:
      title, 时间, 文件, 函数, 行号, 消息, in that order. */
  lemma AlertLinesInOrder(levelStr: string, entry: Entry)
    requires '\n' !in levelStr && '\n' !in entry.caller.file && '\n' !in entry.caller.funcName
    requires '\n' !in entry.message && entry.stack == ""
    ensures Split(AlertMessage(levelStr, entry), '\n') == AlertLines(levelStr, entry)
  {
    var header := AlertHeader(levelStr, entry);
    assert AlertMessage(levelStr, entry) == header by {
      assert header + "" == header;
    }
    TitleIsSingleLine(levelStr);
    TimeLineIsSingleLine(entry.time);
    LabelledLine("文件：", entry.caller.file);
    LabelledLine("函数：", entry.caller.funcName);
    LineNumberIsSingleLine(entry.caller.line);
    LabelledLine("消息：", entry.message);
    var lines := AlertLines(levelStr, entry);
    SixLinesSplit(lines[0], lines[1], lines[2], lines[3], lines[4], lines[5]);
    assert lines == [lines[0], lines[1], lines[2], lines[3], lines[4], lines[5]];
  }

  /** Every zap level is all lower case already, so `Fire` compares to it unchanged. */
  lemma LevelStringIsLower(l: Level)
    ensures ToLower(LevelString(l)) == LevelString(l)
  {
    var s := LevelString(l);
    forall k | 0 <= k < |s|
      ensures LowerChar(s[k]) == s[k]
    {
    }
  }
}
