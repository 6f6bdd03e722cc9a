# Xcode result helpers of the GitHub workflows, in Dafny

This project models the text and tree processing done by the CI helper
scripts that read Xcode build and test results:

- `shared-scripts/show-test-failures.py` walks the decoded test-result tree
  of an `.xcresult` bundle and collects the failures, each with its test
  path, its message and its device. It resolves device ids through the
  bundle's device table, truncates long messages, and escapes the
  annotation data of the `::error` workflow command. It numbers the
  failures in a plain-text summary. Modelled in `test_failures.dfy`
  (module `TestFailures`) and `failure_report.dfy` (module `FailureReport`).
- `shared-scripts/check-build-errors.py` classifies the error messages
  found in the `log` directory. It checks three pattern lists in priority
  order: clear derived data, clear the tuist cache, then a plain retry. The
  first hit runs its handler, which appends `RETRY_BUILD=true` to the
  workflow environment file and ends the script. Modelled in
  `check_build_errors.dfy` (module `CheckBuildErrors`).
- `xcode-build-app/scripts/check-build-errors.py` is the older check. It
  searches every file whose name contains `.log` for two known crash
  messages. Modelled in `legacy_check_build_errors.dfy`
  (module `LegacyCheckBuildErrors`).

The support modules are `Wrappers` (`wrappers.dfy`, an `Option` type) and
`PyStrings` (`py_strings.dfy`). `PyStrings` holds the Python string
operations the scripts use: `in`, `endswith`, slicing, `join` and
`replace`. It also holds `startswith`, which `in` is defined with, and
`split`, which is used only to state that a test identifier can be split
back into its path.

The scripts are imperative, and so is the model of their loops.
`BuildDeviceMap`, `ExtractFailures`, `CollectFailures`, `ResolveDevices`,
`PlainTextSummary`, `ProcessErrors`, `GetXcResultErrors`, `CheckBuildErrors`
and `CheckBuildErrorsLegacy` are methods with loops. Each except
`PlainTextSummary` is proved equal to a specification function, and the
properties of that function are proved as lemmas or as its own `ensures`.
`PlainTextSummary` states its entries and total directly in its `ensures`.
Outside effects become results:
- Decoded JSON is given as typed records. `None` is the result of a run of
  the tool that the script catches: a non-zero exit status or output that
  is not JSON, and, in show-test-failures.py only, a timeout.
- The directory listing is given as a sequence in listing order.
- An appended environment file line is returned as the appended text.
- `sys.exit(0)` after a handler is the method returning the action that
  ended the run.

## Model

| member | source | states |
|---|---|---|
| TestFailures.DeviceMapKeys | shared-scripts/show-test-failures.py:44-56 | the device table has an entry for an id exactly when some device of the list carries that id and it is non-empty |
| TestFailures.DeviceMapLastWins | shared-scripts/show-test-failures.py:47-55 | the entry of an id is the label of the last device carrying it. The label is "name (os)" when the OS version is non-empty, else the name, and the name defaults to "Unknown Device" |
| TestFailures.BuildDeviceMap | shared-scripts/show-test-failures.py:44-56 | the loop builds exactly the table `DeviceMap` describes |
| TestFailures.NodeFailurePaths | shared-scripts/show-test-failures.py:86-102 | every failure of a subtree has a non-empty path that extends the path given on entry, so a Failure Message with no bundle, suite or test case above it reports nothing |
| TestFailures.ForestFailurePaths | shared-scripts/show-test-failures.py:104-106 | the same for a list of sibling subtrees |
| TestFailures.NodeFailuresAreSites | shared-scripts/show-test-failures.py:76-106 | the walk reports one failure per Failure Message node with a non-empty path, in depth-first pre-order with children in list order. The path is the names of its bundle, suite and test-case ancestors, root first. The device is the nearest Device ancestor's name, else the inherited device. The message is `details`, else the node's name |
| TestFailures.ForestFailuresAreSites | shared-scripts/show-test-failures.py:105-106 | the same for a list of sibling subtrees, one after the other |
| TestFailures.ForestFailuresAppend | shared-scripts/show-test-failures.py:105-106 | the failures of two runs of siblings are those of the first run followed by those of the second |
| TestFailures.ExtractFailures | shared-scripts/show-test-failures.py:66-108 | the recursive walk returns the accumulator given on entry followed by the subtree's failures |
| TestFailures.AllFailuresAppend | shared-scripts/show-test-failures.py:173-175 | the failures of the roots are concatenated in `testNodes` order |
| TestFailures.CollectFailures | shared-scripts/show-test-failures.py:171-175 | the loop returns the failures of every root, concatenated in `testNodes` order |
| TestFailures.ResolveDevices | shared-scripts/show-test-failures.py:177-181 | the loop resolves every failure's device and leaves each failure otherwise as it was, keeping the number and order of the failures |
| TestFailures.ProcessXcResult | shared-scripts/show-test-failures.py:164-183 | no decoded output gives no failures. Otherwise it gives the roots' failures in order with path and message kept. Each device is replaced by its table label only when it is non-empty and in the table |
| FailureReport.TruncateMessage | shared-scripts/show-test-failures.py:59-63 | a message that fits is returned unchanged. A longer one becomes its first `max_length - 3` characters plus "...", exactly `max_length` long for a limit of at least 3. For a smaller limit the kept prefix ends `3 - max_length` characters before the end of the message, as Python's negative slice bound does, or is empty when the message is shorter than that |
| FailureReport.TestIdentifierSplits | shared-scripts/show-test-failures.py:111-113 | the identifier joins the path with "/", and splitting it at "/" gives the path back when no name contains "/" |
| FailureReport.UnescapeEscapeData | shared-scripts/show-test-failures.py:130-135 | a left-to-right decoder of the three escapes (`%25`, `%0D`, `%0A`) recovers the original text from the escaped text |
| FailureReport.EscapeDataHasNoLineBreaks | shared-scripts/show-test-failures.py:130-135 | escaped data holds no raw carriage return or line feed |
| FailureReport.EscapeDataInjective | shared-scripts/show-test-failures.py:130-135 | two texts with the same escape are equal |
| FailureReport.EscapeDataOneChar | shared-scripts/show-test-failures.py:130-135 | because `%` is replaced first, the three replacements act on each character independently |
| FailureReport.AnnotationLine | shared-scripts/show-test-failures.py:116-137 | the annotation line starts with `::error title=<test id>::` |
| FailureReport.AnnotationDataDecodes | shared-scripts/show-test-failures.py:118-137 | the data after the title holds no line break and decodes to the truncated message, prefixed with "[device] " when the device is non-empty |
| FailureReport.PlainTextSummary | shared-scripts/show-test-failures.py:140-161 | no failures give no summary. Otherwise entry k is numbered k+1 and carries the test id, the device only when non-empty, and the truncated message, and the total is the failure count |
| CheckBuildErrors.FirstMatch | shared-scripts/check-build-errors.py:71-83 | no index exactly when the message contains none of the patterns. Otherwise the index is the first pattern, in list order, that the message contains |
| CheckBuildErrors.MessageActionPriority | shared-scripts/check-build-errors.py:69-83 | a message triggers nothing exactly when it contains no pattern of any list. Otherwise it triggers the first list, in the order derived data, tuist cache, retry, that has a pattern it contains, with that list's first such pattern |
| CheckBuildErrors.FirstSome | shared-scripts/check-build-errors.py:69-83 | the earliest present value decides: no index means every value is absent, and an index names a present value with only absent ones before it. Applied to the actions of the messages and of the directory entries, in list order |
| CheckBuildErrors.ProcessErrors | shared-scripts/check-build-errors.py:67-83 | the three nested loops, ended by the first hit, return exactly the action of the earliest triggering message, or none |
| CheckBuildErrors.StatAlwaysTriggers | shared-scripts/check-build-errors.py:17-83 | matching is plain containment: a message containing "error: stat" always triggers a handler, and a regular retry with that pattern unless a pattern checked earlier matches too |
| CheckBuildErrors.LogFileNeverTriggers | shared-scripts/check-build-errors.py:124-127 | the log text handed over as one string is iterated per character, and a log file triggers nothing whatever it holds |
| CheckBuildErrors.OneCharacterTriggersNothing | shared-scripts/check-build-errors.py:12-22 | every pattern is longer than one character, so no one-character message triggers anything |
| CheckBuildErrors.LogFindingWitness | shared-scripts/check-build-errors.py:124-127 | a log holding "error: stat" triggers nothing as written, and a regular retry when its text is searched as a whole |
| CheckBuildErrors.StatMessageRetries | shared-scripts/check-build-errors.py:12-22 | the message "error: stat" matches no cleanup pattern and no earlier retry pattern, so it calls for a regular retry with that pattern |
| CheckBuildErrors.IntendedLogTriggers | shared-scripts/check-build-errors.py:69-83 | a log searched as a whole acts like one message. It triggers exactly when it contains some pattern of some list |
| CheckBuildErrors.SummaryErrors | shared-scripts/check-build-errors.py:106-111 | the texts returned are exactly those of the summaries that have a `message._value`, and there are no more of them than summaries |
| CheckBuildErrors.SummaryErrorsAppend | shared-scripts/check-build-errors.py:107-111 | extraction keeps the summaries' order |
| CheckBuildErrors.GetXcResultErrors | shared-scripts/check-build-errors.py:86-115 | the loop returns the summary texts in order. It returns [] when the tool or decoding failed or `issues` or `errorSummaries` is absent |
| CheckBuildErrors.KindOf | shared-scripts/check-build-errors.py:124-130 | an entry is a log file exactly when its name ends in ".log" and a result bundle exactly when it ends in ".xcresult", never both |
| CheckBuildErrors.ProcessEntry | shared-scripts/check-build-errors.py:124-130 | the dispatch of one entry by suffix gives the action of that entry's messages |
| CheckBuildErrors.OnlyResultBundlesTrigger | shared-scripts/check-build-errors.py:121-130 | the entry that decides the run is always a result bundle, and its error summaries give the action |
| CheckBuildErrors.RetryFlagAppend | shared-scripts/check-build-errors.py:25-31 | `set_retry_build` appends exactly `RETRY_BUILD=true` when `GITHUB_ENV` is set and non-empty, and nothing otherwise |
| CheckBuildErrors.CheckBuildErrors | shared-scripts/check-build-errors.py:118-130 | a missing `log` directory ends the run with nothing done. Otherwise the run ends with the first entry's action, or none, and `RETRY_BUILD=true` is appended only after an action and only when `GITHUB_ENV` is set |
| LegacyCheckBuildErrors.FirstFound | xcode-build-app/scripts/check-build-errors.py:11-18 | no hit exactly when every file whose name contains ".log" holds neither error. A hit names the earliest such file holding one, and the first error, in list order, that the file holds |
| LegacyCheckBuildErrors.CheckBuildErrorsLegacy | xcode-build-app/scripts/check-build-errors.py:9-23 | the loops stop at the first hit, which is the one `FirstFound` describes. `RETRY_BUILD=true`, with no newline, is appended only after a hit and only when `GITHUB_ENV` is set |
| LegacyCheckBuildErrors.LegacyHitIsSharedHit | xcode-build-app/scripts/check-build-errors.py:9 | both errors of the older script are retry errors of the shared one, so a text the older script retries on also triggers the shared script when searched as a whole |

## Left out

- Running `xcrun xcresulttool` and decoding its JSON are not modelled. Their output is a typed record. `None` stands for the failures the scripts catch: a non-zero exit status and output that is not JSON, plus a timeout in show-test-failures.py (lines 33-41). check-build-errors.py sets no timeout (lines 89-103), so a hung tool hangs the script, and that is not modelled.
- A missing `xcrun` raises `FileNotFoundError`, which neither script catches (check-build-errors.py line 113, show-test-failures.py lines 33-41). The script then ends with a traceback instead of giving `None` or `[]`. That crash is not modelled.
- JSON values of unexpected types (a non-string `name`, a non-list `children`) are not modelled. Every field has the type the scripts expect.
- `os.listdir`, `os.path.exists` and file reads are not modelled. The directory is a sequence of entries in listing order, each carrying the text a read would give. A failed read, such as text that is not UTF-8, is not modelled.
- The cleanups of the handlers (`clear-xcode-derived-data.sh`, `rm -rf` of the tuist caches, `tuist install/cache/generate`) are shell commands. They are not modelled, and a handler is the `Action` it is called with.
- Printing, the banners and the stderr warnings are not modelled. Each operation returns the values it would print.
- Appending to the `GITHUB_ENV` file and `sys.exit(0)` are not modelled as I/O. They are the appended text that is returned and the action that ended the run.
- `main()` of show-test-failures.py (lines 186-213), which chooses between the argument and the `log` directory, is not modelled. It only lists directories and calls the modelled operations.
- TestFailures.ExtractFailures: the shared `failures` list is threaded through the calls as a value, not mutated in place. Order and contents are the same, and no caller observes aliasing.
- TestFailures.ResolveDevices: the failure records are replaced in the list rather than mutated in place. Nothing else holds them.
- LegacyCheckBuildErrors.CheckBuildErrorsLegacy: the crash of the older script when the `log` directory is missing is not modelled. The directory is always given.
- FailureReport.AnnotationLine: the title, the test identifier, is placed in the command unescaped, as the script does. Its property-value escaping is not modelled.

## Findings

| source | as written | input that shows it | evidently intended | confidence | as-written member | corrected member |
|---|---|---|---|---|---|---|
| shared-scripts/check-build-errors.py:125-127 | the log text is passed to `process_errors` as one `str`, so its loop visits single characters and no pattern, all longer than one character, can match a `.log` file | a file `build.log` holding "error: stat" triggers nothing | search the log text as a whole, as the older script does, so the file calls for a regular retry | high, not executed | CheckBuildErrors.LogFindingWitness | CheckBuildErrors.IntendedLogTriggers |

`CheckBuildErrors.CheckBuildErrors` keeps the behaviour as written, because
that is what the script does today. The corrected handling,
`IntendedLogMessages`, is what `IntendedLogTriggers` and
`LegacyCheckBuildErrors.LegacyHitIsSharedHit` are stated over.
