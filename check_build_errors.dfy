/** The decision made by shared-scripts/check-build-errors.py: which build
    errors in the `log` directory call for a retry, and which cleanup goes
    with it. The cleanups themselves (deleting derived data, clearing and
    regenerating the tuist cache) are shell commands and are not modelled;
    a handler is represented by the `Action` it is called with. Writing the
    flag to the workflow environment file is represented by the text
    appended, and `sys.exit(0)` by the run ending with that action. */
module CheckBuildErrors {
  import opened Wrappers
  import opened PyStrings

  /** Errors after which the build is simply retried. */
  const RetryErrors: seq<string> := [
    "The Xcode build system has crashed",
    "Command CodeSign failed with a nonzero exit code",
    "The test runner failed to initialize for UI testing",
    "Segmentation fault",
    "error: stat"
  ]

  /** Errors after which derived data is deleted before the retry. */
  const ClearDerivedDataErrors: seq<string> := ["ld: symbol(s) not found"]

  /** Errors after which the tuist cache is rebuilt before the retry. */
  const ClearTuistCacheErrors: seq<string> := ["Underlying Error: Crash", "Failed to load the test bundle"]

  /** The line appended to the workflow environment file. */
  const RetryFlag: string := "RETRY_BUILD=true"

  /** The three handlers, in the order they are tried on a message. */
  datatype Handler = ClearDerivedData | ClearTuistCache | RegularRetry

  /** A handler called with the pattern that was found. */
  datatype Action = Action(handler: Handler, pattern: string)

  function PatternsOf(h: Handler): seq<string> {
    match h
    case ClearDerivedData => ClearDerivedDataErrors
    case ClearTuistCache => ClearTuistCacheErrors
    case RegularRetry => RetryErrors
  }

  /** The position of a handler's check within one message's checks. */
  function Priority(h: Handler): nat {
    match h
    case ClearDerivedData => 0
    case ClearTuistCache => 1
    case RegularRetry => 2
  }

  /** `message` contains none of `patterns`. */
  predicate MatchesNone(patterns: seq<string>, message: string) {
    forall j :: 0 <= j < |patterns| ==> !Contains(message, patterns[j])
  }

  /** `p` is the first of `patterns`, in list order, that `message` contains. */
  predicate IsFirstMatch(patterns: seq<string>, message: string, p: string) {
    exists i :: 0 <= i < |patterns| && patterns[i] == p && Contains(message, p)
      && MatchesNone(patterns[..i], message)
  }

  /** The index of the first pattern that `message` contains, if any. */
  function FirstMatch(patterns: seq<string>, message: string): (r: Option<nat>)
    ensures r.None? <==> MatchesNone(patterns, message)
    ensures r.Some? ==>
      (r.value < |patterns| && Contains(message, patterns[r.value]) && MatchesNone(patterns[..r.value], message))
  {
    if patterns == [] then None
    else if Contains(message, patterns[0]) then Some(0)
    else
      assert patterns == [patterns[0]] + patterns[1..];
      match FirstMatch(patterns[1..], message)
      case None => None
      case Some(k) =>
        assert patterns[..k + 1] == [patterns[0]] + patterns[1..][..k];
        Some(k + 1)
  }

  /** What one message triggers: the first derived-data pattern it contains,
      else the first tuist pattern, else the first retry pattern, else
      nothing. */
  function MessageAction(message: string): Option<Action> {
    match FirstMatch(ClearDerivedDataErrors, message)
    case Some(i) => Some(Action(ClearDerivedData, ClearDerivedDataErrors[i]))
    case None =>
      match FirstMatch(ClearTuistCacheErrors, message)
      case Some(i) => Some(Action(ClearTuistCache, ClearTuistCacheErrors[i]))
      case None =>
        match FirstMatch(RetryErrors, message)
        case Some(i) => Some(Action(RegularRetry, RetryErrors[i]))
        case None => None
  }

  /** A message triggers nothing exactly when it contains no pattern of any
      list; otherwise it triggers the handler of the first list, in priority
      order, that has a pattern it contains, with the first such pattern of
      that list. */
  lemma MessageActionPriority(message: string)
    ensures MessageAction(message).None? <==>
      forall h: Handler :: MatchesNone(PatternsOf(h), message)
    ensures MessageAction(message).Some? ==>
      var a := MessageAction(message).value;
      && IsFirstMatch(PatternsOf(a.handler), message, a.pattern)
      && forall h :: Priority(h) < Priority(a.handler) ==> MatchesNone(PatternsOf(h), message)
  {
    var d := FirstMatch(ClearDerivedDataErrors, message);
    var t := FirstMatch(ClearTuistCacheErrors, message);
    var r := FirstMatch(RetryErrors, message);
    if d.Some? {
      assert ClearDerivedDataErrors[d.value] == MessageAction(message).value.pattern;
      assert !MatchesNone(PatternsOf(ClearDerivedData), message);
    } else if t.Some? {
      assert ClearTuistCacheErrors[t.value] == MessageAction(message).value.pattern;
      assert !MatchesNone(PatternsOf(ClearTuistCache), message);
    } else if r.Some? {
      assert RetryErrors[r.value] == MessageAction(message).value.pattern;
      assert !MatchesNone(PatternsOf(RegularRetry), message);
    } else {
      assert forall h: Handler :: MatchesNone(PatternsOf(h), message);
    }
  }

  /** The index of the first present value of `xs`, if any. */
  function FirstSome<T>(xs: seq<Option<T>>): (r: Option<nat>)
    ensures r.None? <==> forall k :: 0 <= k < |xs| ==> xs[k].None?
    ensures r.Some? ==>
      (r.value < |xs| && xs[r.value].Some? && forall k :: 0 <= k < r.value ==> xs[k].None?)
  {
    if xs == [] then None
    else if xs[0].Some? then Some(0)
    else
      assert forall k :: 0 < k < |xs| ==> xs[k] == xs[1..][k - 1];
      match FirstSome(xs[1..])
      case None => None
      case Some(k) => Some(k + 1)
  }

  /** A present value after only absent ones is the first. */
  lemma {:induction false} FirstSomeAt<T>(xs: seq<Option<T>>, i: nat)
    requires i < |xs| && xs[i].Some?
    requires forall k :: 0 <= k < i ==> xs[k].None?
    ensures FirstSome(xs) == Some(i)
    decreases i
  {
    if i > 0 {
      assert xs[1..][i - 1] == xs[i];
      assert forall k :: 0 <= k < i - 1 ==> xs[1..][k] == xs[k + 1];
      FirstSomeAt(xs[1..], i - 1);
    }
  }

  /** One more absent value extends a run of absent values. */
  lemma AbsentExtend<T>(xs: seq<Option<T>>, i: nat)
    requires i < |xs| && xs[i].None? && forall k :: 0 <= k < i ==> xs[k].None?
    ensures forall k :: 0 <= k < i + 1 ==> xs[k].None?
  {
  }

  /** The first present value of `xs`, if any. */
  function FirstPresent<T>(xs: seq<Option<T>>): Option<T> {
    match FirstSome(xs)
    case None => None
    case Some(i) => xs[i]
  }

  /** What each message triggers, in order. */
  function MessageActions(messages: seq<string>): (r: seq<Option<Action>>)
    ensures |r| == |messages|
    ensures forall k :: 0 <= k < |r| ==> r[k] == MessageAction(messages[k])
  {
    if messages == [] then [] else [MessageAction(messages[0])] + MessageActions(messages[1..])
  }

  /** What a list of messages triggers: the action of its earliest message
      that triggers one. */
  function FirstAction(messages: seq<string>): Option<Action> {
    FirstPresent(MessageActions(messages))
  }

  /** One more pattern that the message does not contain. */
  lemma MatchesNoneExtend(patterns: seq<string>, message: string, j: nat)
    requires j < |patterns| && MatchesNone(patterns[..j], message) && !Contains(message, patterns[j])
    ensures MatchesNone(patterns[..j + 1], message)
  {
    assert patterns[..j + 1] == patterns[..j] + [patterns[j]];
  }

  /** A hit after only misses is the first match. */
  lemma {:induction false} FirstMatchAt(patterns: seq<string>, message: string, j: nat)
    requires j < |patterns| && MatchesNone(patterns[..j], message) && Contains(message, patterns[j])
    ensures FirstMatch(patterns, message) == Some(j)
    decreases j
  {
    if j > 0 {
      assert patterns[..j][0] == patterns[0];
      assert patterns[1..][..j - 1] == patterns[..j][1..];
      FirstMatchAt(patterns[1..], message, j - 1);
    }
  }

  /** `process_errors`: the messages in order, and within each the three
      pattern lists in priority order; the first hit calls its handler,
      which ends the script. */
  method ProcessErrors(errorMessages: seq<string>) returns (action: Option<Action>)
    ensures action == FirstAction(errorMessages)
  {
    ghost var actions := MessageActions(errorMessages);
    for i := 0 to |errorMessages|
      invariant forall k :: 0 <= k < i ==> actions[k].None?
    {
      var errorMessage := errorMessages[i];
      for j := 0 to |ClearDerivedDataErrors|
        invariant MatchesNone(ClearDerivedDataErrors[..j], errorMessage)
      {
        if Contains(errorMessage, ClearDerivedDataErrors[j]) {
          FirstMatchAt(ClearDerivedDataErrors, errorMessage, j);
          FirstSomeAt(actions, i);
          return Some(Action(ClearDerivedData, ClearDerivedDataErrors[j]));
        }
        MatchesNoneExtend(ClearDerivedDataErrors, errorMessage, j);
      }
      assert ClearDerivedDataErrors[..|ClearDerivedDataErrors|] == ClearDerivedDataErrors;
      for j := 0 to |ClearTuistCacheErrors|
        invariant MatchesNone(ClearTuistCacheErrors[..j], errorMessage)
      {
        if Contains(errorMessage, ClearTuistCacheErrors[j]) {
          FirstMatchAt(ClearTuistCacheErrors, errorMessage, j);
          FirstSomeAt(actions, i);
          return Some(Action(ClearTuistCache, ClearTuistCacheErrors[j]));
        }
        MatchesNoneExtend(ClearTuistCacheErrors, errorMessage, j);
      }
      assert ClearTuistCacheErrors[..|ClearTuistCacheErrors|] == ClearTuistCacheErrors;
      for j := 0 to |RetryErrors|
        invariant MatchesNone(RetryErrors[..j], errorMessage)
      {
        if Contains(errorMessage, RetryErrors[j]) {
          FirstMatchAt(RetryErrors, errorMessage, j);
          FirstSomeAt(actions, i);
          return Some(Action(RegularRetry, RetryErrors[j]));
        }
        MatchesNoneExtend(RetryErrors, errorMessage, j);
      }
      assert RetryErrors[..|RetryErrors|] == RetryErrors;
      assert actions[i] == MessageAction(errorMessage);
      AbsentExtend(actions, i);
    }
    return None;
  }

  // ---------------------------------------------------------------------
  // Log files
  // ---------------------------------------------------------------------

  /** What `process_errors` iterates over when it is handed a log file's
      text as one `str`: its characters, each a one-character string. */
  function LogMessages(contents: string): seq<string> {
    seq(|contents|, i requires 0 <= i < |contents| => [contents[i]])
  }

  /** Every pattern is longer than one character. */
  lemma PatternsAreLong(h: Handler)
    ensures forall j :: 0 <= j < |PatternsOf(h)| ==> |PatternsOf(h)[j]| > 1
  {
  }

  /** No one-character message triggers anything. */
  lemma OneCharacterTriggersNothing(c: char)
    ensures MessageAction([c]).None?
  {
    forall h: Handler, j | 0 <= j < |PatternsOf(h)|
      ensures !Contains([c], PatternsOf(h)[j])
    {
      PatternsAreLong(h);
      if Contains([c], PatternsOf(h)[j]) {
        ContainsNeedsRoom([c], PatternsOf(h)[j]);
      }
    }
    assert MatchesNone(PatternsOf(ClearDerivedData), [c]);
    assert MatchesNone(PatternsOf(ClearTuistCache), [c]);
    assert MatchesNone(PatternsOf(RegularRetry), [c]);
  }

  /** As written, a `.log` file never triggers a handler, whatever it holds. */
  lemma LogFileNeverTriggers(contents: string)
    ensures FirstAction(LogMessages(contents)).None?
  {
    var ms := LogMessages(contents);
    forall i | 0 <= i < |ms|
      ensures MessageAction(ms[i]).None?
    {
      OneCharacterTriggersNothing(contents[i]);
    }
  }

  /** The log text searched as a whole, as the older script in
      xcode-build-app/scripts does. */
  function IntendedLogMessages(contents: string): seq<string> {
    [contents]
  }

  /** Searched as a whole, a log triggers a handler exactly when it contains
      one of the patterns, with the same priorities as any other message. */
  lemma IntendedLogTriggers(contents: string)
    ensures FirstAction(IntendedLogMessages(contents)) == MessageAction(contents)
    ensures FirstAction(IntendedLogMessages(contents)).Some? <==>
      exists h: Handler, j :: 0 <= j < |PatternsOf(h)| && Contains(contents, PatternsOf(h)[j])
  {
    var r := MessageAction(contents);
    if r.None? {
      forall h: Handler, j | 0 <= j < |PatternsOf(h)|
        ensures !Contains(contents, PatternsOf(h)[j])
      {
        assert MatchesNone(PatternsOf(h), contents);
      }
    } else {
      var a := r.value;
      var i :| 0 <= i < |PatternsOf(a.handler)| && PatternsOf(a.handler)[i] == a.pattern
        && Contains(contents, a.pattern) && MatchesNone(PatternsOf(a.handler)[..i], contents);
      assert Contains(contents, PatternsOf(a.handler)[i]);
    }
  }

  /** "error: stat" is shorter than every cleanup pattern, so it contains
      none of them. */
  lemma StatNeedsNoCleanup()
    ensures MatchesNone(ClearDerivedDataErrors, "error: stat")
    ensures MatchesNone(ClearTuistCacheErrors, "error: stat")
  {
    var t := "error: stat";
    forall j | 0 <= j < |ClearDerivedDataErrors| ensures !Contains(t, ClearDerivedDataErrors[j]) {
      TooLongToContain(t, ClearDerivedDataErrors[j]);
    }
    forall j | 0 <= j < |ClearTuistCacheErrors| ensures !Contains(t, ClearTuistCacheErrors[j]) {
      TooLongToContain(t, ClearTuistCacheErrors[j]);
    }
  }

  /** "error: stat" is shorter than the four retry patterns before it, so it
      is the first retry pattern that "error: stat" contains. */
  lemma StatIsFirstRetry()
    ensures FirstMatch(RetryErrors, "error: stat") == Some(4)
  {
    var t := "error: stat";
    forall j | 0 <= j < 4 ensures !Contains(t, RetryErrors[..4][j]) {
      TooLongToContain(t, RetryErrors[j]);
    }
    ContainsSelf(t);
    FirstMatchAt(RetryErrors, t, 4);
  }

  /** A message that is exactly "error: stat" calls for a regular retry. */
  lemma StatMessageRetries()
    ensures MessageAction("error: stat") == Some(Action(RegularRetry, "error: stat"))
  {
    StatNeedsNoCleanup();
    StatIsFirstRetry();
  }

  /** Matching is plain containment: any message that contains "error: stat"
      triggers a handler, a regular retry unless a pattern checked earlier
      matches too. */
  lemma StatAlwaysTriggers(message: string)
    requires Contains(message, "error: stat")
    ensures MessageAction(message).Some?
    ensures (MatchesNone(ClearDerivedDataErrors, message) && MatchesNone(ClearTuistCacheErrors, message)
             && MatchesNone(RetryErrors[..4], message))
      ==> MessageAction(message) == Some(Action(RegularRetry, "error: stat"))
  {
    assert RetryErrors[4] == "error: stat";
    assert !MatchesNone(PatternsOf(RegularRetry), message);
    MessageActionPriority(message);
    if MatchesNone(ClearDerivedDataErrors, message) && MatchesNone(ClearTuistCacheErrors, message)
      && MatchesNone(RetryErrors[..4], message) {
      FirstMatchAt(RetryErrors, message, 4);
    }
  }

  /** A log holding exactly "error: stat" triggers nothing as written, yet
      calls for a regular retry when its text is searched as a whole. */
  lemma LogFindingWitness()
    ensures FirstAction(LogMessages("error: stat")).None?
    ensures FirstAction(IntendedLogMessages("error: stat")) == Some(Action(RegularRetry, "error: stat"))
  {
    var t := "error: stat";
    LogFileNeverTriggers(t);
    StatMessageRetries();
    var actions := MessageActions(IntendedLogMessages(t));
    assert actions[0] == MessageAction(t);
    FirstSomeAt(actions, 0);
  }

  lemma TooLongToContain(s: string, p: string)
    requires |p| > |s|
    ensures !Contains(s, p)
  {
    if Contains(s, p) {
      ContainsNeedsRoom(s, p);
    }
  }

  // ---------------------------------------------------------------------
  // Result bundles
  // ---------------------------------------------------------------------

  /** `summary["message"]`: `_value` may be missing. */
  datatype MessageValue = MessageValue(text: Option<string>)

  /** One entry of `errorSummaries._values`: `message` may be missing. */
  datatype ErrorSummary = ErrorSummary(message: Option<MessageValue>)

  /** `issues.errorSummaries`: a missing `_values` reads as []. */
  datatype ErrorSummaries = ErrorSummaries(values: seq<ErrorSummary>)

  /** `issues`: `errorSummaries` may be missing. */
  datatype Issues = Issues(errorSummaries: Option<ErrorSummaries>)

  /** The decoded output of `xcresulttool get --format json --legacy`:
      `issues` may be missing. */
  datatype InvocationRecord = InvocationRecord(issues: Option<Issues>)

  /** The error text of one summary, when it has a message with a value. */
  function SummaryText(s: ErrorSummary): Option<string> {
    if s.message.Some? && s.message.value.text.Some? then Some(s.message.value.text.value) else None
  }

  /** The texts of the summaries that have one, in order. */
  function SummaryErrors(summaries: seq<ErrorSummary>): (r: seq<string>)
    ensures |r| <= |summaries|
    ensures forall x :: x in r <==> exists i :: 0 <= i < |summaries| && SummaryText(summaries[i]) == Some(x)
  {
    if summaries == [] then []
    else
      var rest := SummaryErrors(summaries[1..]);
      assert forall i :: 0 < i < |summaries| ==> summaries[i] == summaries[1..][i - 1];
      match SummaryText(summaries[0])
      case Some(x) => [x] + rest
      case None => rest
  }

  /** Extraction keeps the order of the summaries: it commutes with
      concatenation. */
  lemma {:induction false} SummaryErrorsAppend(a: seq<ErrorSummary>, b: seq<ErrorSummary>)
    ensures SummaryErrors(a + b) == SummaryErrors(a) + SummaryErrors(b)
    decreases |a|
  {
    if a == [] {
      assert a + b == b;
    } else {
      assert (a + b)[1..] == a[1..] + b;
      SummaryErrorsAppend(a[1..], b);
    }
  }

  /** The error messages of one result bundle; `None` when the tool failed
      or printed something that is not JSON. */
  function XcResultErrors(record: Option<InvocationRecord>): seq<string> {
    if record.Some? && record.value.issues.Some? && record.value.issues.value.errorSummaries.Some?
    then SummaryErrors(record.value.issues.value.errorSummaries.value.values)
    else []
  }

  /** `get_xcresult_errors` once the tool's output is decoded. */
  method GetXcResultErrors(record: Option<InvocationRecord>) returns (errors: seq<string>)
    ensures errors == XcResultErrors(record)
  {
    errors := [];
    if record.None? {
      return;
    }
    var data := record.value;
    if data.issues.Some? && data.issues.value.errorSummaries.Some? {
      var summaries := data.issues.value.errorSummaries.value.values;
      for i := 0 to |summaries|
        invariant errors == SummaryErrors(summaries[..i])
      {
        var summary := summaries[i];
        if summary.message.Some? && summary.message.value.text.Some? {
          errors := errors + [summary.message.value.text.value];
        }
        SummaryErrorsAppend(summaries[..i], [summary]);
        assert summaries[..i + 1] == summaries[..i] + [summary];
      }
      assert summaries[..|summaries|] == summaries;
    }
  }

  // ---------------------------------------------------------------------
  // The run over the log directory
  // ---------------------------------------------------------------------

  /** One directory entry: its name, the text a read of it gives, and what
      the result-bundle tool gives for it. Which of the last two is used
      depends on the name. */
  datatype DirEntry = DirEntry(name: string, contents: string, resultBundle: Option<InvocationRecord>)

  datatype FileKind = LogFile | ResultBundle | Ignored

  /** An entry is a log if its name ends in ".log", a result bundle if it
      ends in ".xcresult", and is skipped otherwise; never two of these. */
  function KindOf(name: string): (k: FileKind)
    ensures k == LogFile <==> EndsWith(name, ".log")
    ensures k == ResultBundle <==> EndsWith(name, ".xcresult")
  {
    if EndsWith(name, ".log") then
      assert name[|name| - 1] == 'g';
      LogFile
    else if EndsWith(name, ".xcresult") then ResultBundle
    else Ignored
  }

  /** The messages `process_errors` receives for an entry. */
  function EntryMessages(e: DirEntry): seq<string> {
    match KindOf(e.name)
    case LogFile => LogMessages(e.contents)
    case ResultBundle => XcResultErrors(e.resultBundle)
    case Ignored => []
  }

  /** What one entry triggers. */
  function EntryAction(e: DirEntry): Option<Action> {
    FirstAction(EntryMessages(e))
  }

  /** What each entry triggers, in listing order. */
  function EntryActions(entries: seq<DirEntry>): (r: seq<Option<Action>>)
    ensures |r| == |entries|
    ensures forall k :: 0 <= k < |r| ==> r[k] == EntryAction(entries[k])
  {
    if entries == [] then [] else [EntryAction(entries[0])] + EntryActions(entries[1..])
  }

  /** The action of the earliest entry that triggers one. */
  function FirstEntryAction(entries: seq<DirEntry>): Option<Action> {
    FirstPresent(EntryActions(entries))
  }

  /** Only a result bundle's error summaries can trigger a handler: the
      entry that decides the run is a result bundle. */
  lemma OnlyResultBundlesTrigger(entries: seq<DirEntry>)
    ensures var r := FirstSome(EntryActions(entries));
      r.Some? ==>
        && KindOf(entries[r.value].name) == ResultBundle
        && FirstEntryAction(entries) == FirstAction(XcResultErrors(entries[r.value].resultBundle))
  {
    var r := FirstSome(EntryActions(entries));
    if r.Some? && KindOf(entries[r.value].name) == LogFile {
      LogFileNeverTriggers(entries[r.value].contents);
    }
  }

  /** The text `set_retry_build` appends: the flag, when the environment
      names a file to append it to. */
  function RetryFlagAppend(githubEnv: Option<string>): (r: string)
    ensures r == RetryFlag <==> Truthy(githubEnv)
    ensures r == "" <==> !Truthy(githubEnv)
  {
    if Truthy(githubEnv) then RetryFlag else ""
  }

  /** The outcome of a run: the `log` directory was missing, or the loop
      ended, by a handler's exit or by running out of entries. */
  datatype RunResult = LogDirectoryMissing | Completed(action: Option<Action>, appended: string)

  /** The dispatch on one directory entry by its name's suffix: a log file's
      text and a result bundle's error summaries go through `ProcessErrors`,
      any other entry is skipped. */
  method ProcessEntry(e: DirEntry) returns (action: Option<Action>)
    ensures action == EntryAction(e)
  {
    action := None;
    if EndsWith(e.name, ".log") {
      action := ProcessErrors(LogMessages(e.contents));
    } else if EndsWith(e.name, ".xcresult") {
      var errors := GetXcResultErrors(e.resultBundle);
      action := ProcessErrors(errors);
    } else {
      assert FirstAction([]) == None;
    }
  }

  /** The script's top level, given the `log` directory's entries in the
      order the listing gives them (`None` when it does not exist) and the
      `GITHUB_ENV` variable. At most one handler runs, and the flag is
      appended only after a handler, and only when `GITHUB_ENV` is set. */
  method CheckBuildErrors(logDir: Option<seq<DirEntry>>, githubEnv: Option<string>) returns (result: RunResult)
    ensures logDir.None? <==> result == LogDirectoryMissing
    ensures logDir.Some? ==> result.action == FirstEntryAction(logDir.value)
    ensures logDir.Some? ==> result.appended == (if result.action.Some? && Truthy(githubEnv) then RetryFlag else "")
  {
    if logDir.None? {
      return LogDirectoryMissing;
    }
    var entries := logDir.value;
    ghost var actions := EntryActions(entries);
    for i := 0 to |entries|
      invariant forall k :: 0 <= k < i ==> actions[k].None?
    {
      var action := ProcessEntry(entries[i]);
      assert actions[i] == action;
      if action.Some? {
        FirstSomeAt(actions, i);
        return Completed(action, RetryFlagAppend(githubEnv));
      }
      AbsentExtend(actions, i);
    }
    return Completed(None, "");
  }
}
