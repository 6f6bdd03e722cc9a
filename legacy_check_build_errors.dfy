/** The older check kept in xcode-build-app/scripts/check-build-errors.py:
    every file of the `log` directory whose name contains ".log" is read as
    one text and searched for two known crash messages; the first hit
    appends the retry flag to the workflow environment file and ends the
    script. */
module LegacyCheckBuildErrors {
  import opened Wrappers
  import opened PyStrings
  import opened CheckBuildErrors

  /** The two errors the older script retries on. */
  const LegacyRetryErrors: seq<string> := [
    "The Xcode build system has crashed",
    "Command CodeSign failed with a nonzero exit code"
  ]

  /** One directory entry: its name and the text the script would read. */
  datatype LogEntry = LogEntry(name: string, contents: string)

  /** The hit that ends the script: the entry's position in the listing and
      the error found in it. */
  datatype Found = Found(entry: nat, pattern: string)

  /** Only entries whose name contains ".log" anywhere are read. */
  predicate Examined(e: LogEntry) {
    Contains(e.name, ".log")
  }

  /** An entry that does not end the script: skipped, or holding neither
      error. */
  predicate Clean(e: LogEntry) {
    !Examined(e) || MatchesNone(LegacyRetryErrors, e.contents)
  }

  /** The hit of the earliest entry that is not clean, with the first error,
      in list order, that its text contains. */
  function FirstFound(entries: seq<LogEntry>): (r: Option<Found>)
    ensures r.None? <==> forall k :: 0 <= k < |entries| ==> Clean(entries[k])
    ensures r.Some? ==>
      var e := r.value.entry;
      && e < |entries| && Examined(entries[e])
      && IsFirstMatch(LegacyRetryErrors, entries[e].contents, r.value.pattern)
      && forall k :: 0 <= k < e ==> Clean(entries[k])
  {
    if entries == [] then None
    else if !Clean(entries[0]) then
      var j := FirstMatch(LegacyRetryErrors, entries[0].contents).value;
      Some(Found(0, LegacyRetryErrors[j]))
    else
      assert forall k :: 0 < k < |entries| ==> entries[k] == entries[1..][k - 1];
      match FirstFound(entries[1..])
      case None => None
      case Some(f) => Some(Found(f.entry + 1, f.pattern))
  }

  /** A hit after only clean entries, at the first error that entry's text
      contains, is the one that ends the script. */
  lemma {:induction false} FirstFoundAt(entries: seq<LogEntry>, i: nat, j: nat)
    requires i < |entries| && Examined(entries[i])
    requires j < |LegacyRetryErrors| && Contains(entries[i].contents, LegacyRetryErrors[j])
    requires MatchesNone(LegacyRetryErrors[..j], entries[i].contents)
    requires forall k :: 0 <= k < i ==> Clean(entries[k])
    ensures FirstFound(entries) == Some(Found(i, LegacyRetryErrors[j]))
    decreases i
  {
    if i == 0 {
      FirstMatchAt(LegacyRetryErrors, entries[0].contents, j);
    } else {
      var rest := entries[1..];
      assert rest[i - 1] == entries[i];
      assert forall k :: 0 <= k < i - 1 ==> rest[k] == entries[k + 1];
      FirstFoundAt(rest, i - 1, j);
    }
  }

  /** The script, given the `log` directory's entries in the order the
      listing gives them and the `GITHUB_ENV` variable: it reports the first
      hit and appends the flag after it when `GITHUB_ENV` is set. */
  method CheckBuildErrorsLegacy(logDir: seq<LogEntry>, githubEnv: Option<string>)
    returns (found: Option<Found>, appended: string)
    ensures found == FirstFound(logDir)
    ensures appended == (if found.Some? && Truthy(githubEnv) then RetryFlag else "")
  {
    for i := 0 to |logDir|
      invariant forall k :: 0 <= k < i ==> Clean(logDir[k])
    {
      var logFile := logDir[i];
      if Contains(logFile.name, ".log") {
        var logFileContents := logFile.contents;
        for j := 0 to |LegacyRetryErrors|
          invariant MatchesNone(LegacyRetryErrors[..j], logFileContents)
        {
          if Contains(logFileContents, LegacyRetryErrors[j]) {
            FirstFoundAt(logDir, i, j);
            found := Some(Found(i, LegacyRetryErrors[j]));
            appended := "";
            if Truthy(githubEnv) {
              appended := RetryFlag;
            }
            return;
          }
          MatchesNoneExtend(LegacyRetryErrors, logFileContents, j);
        }
        assert LegacyRetryErrors[..|LegacyRetryErrors|] == LegacyRetryErrors;
      }
    }
    return None, "";
  }

  /** Both errors of the older script are errors the shared script retries
      on, so a text the older script would retry on also calls for a retry,
      possibly with a cleanup first, when the shared script searches the
      text as a whole. */
  lemma LegacyHitIsSharedHit(contents: string)
    requires !MatchesNone(LegacyRetryErrors, contents)
    ensures FirstAction(IntendedLogMessages(contents)).Some?
  {
    var j :| 0 <= j < |LegacyRetryErrors| && Contains(contents, LegacyRetryErrors[j]);
    assert LegacyRetryErrors[j] == RetryErrors[j];
    assert !MatchesNone(PatternsOf(RegularRetry), contents);
    MessageActionPriority(contents);
    IntendedLogTriggers(contents);
  }
}
