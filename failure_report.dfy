/** How shared-scripts/show-test-failures.py reports the failures it found:
    the message truncation, the test identifier, the `::error` workflow
    command with its data escaping, and the numbered plain-text summary.
    Printing is not modelled: each operation returns what it would print. */
module FailureReport {
  import opened Wrappers
  import opened PyStrings
  import opened TestFailures

  /** The longest failure message shown, in characters. */
  const MaxMessageLength: int := 500
  const Ellipsis: string := "..."

  /** `truncate_message`: a message that fits is kept; a longer one is cut
      with Python's `message[:max_length - 3]` and marked with "...". For a
      limit of at least 3 the result is exactly `maxLength` long; below 3 the
      negative slice bound counts from the end of the message, so the result
      is the message minus its last `3 - maxLength` characters, plus "...". */
  function TruncateMessage(message: string, maxLength: int): (r: string)
    ensures |message| <= maxLength ==> r == message
    ensures |message| > maxLength >= 3 ==> |r| == maxLength && r == message[..maxLength - 3] + Ellipsis
    ensures |message| > maxLength ==> EndsWith(r, Ellipsis) && r[..|r| - 3] <= message
    ensures maxLength >= 3 ==> |r| <= maxLength
    ensures |message| > maxLength && maxLength < 3 ==>
      r == message[..if |message| + maxLength - 3 >= 0 then |message| + maxLength - 3 else 0] + Ellipsis
  {
    if |message| <= maxLength then message
    else SliceTo(message, maxLength - 3) + Ellipsis
  }

  /** `format_test_identifier`: the path joined with "/". */
  function FormatTestIdentifier(path: seq<string>): string {
    Join(path, "/")
  }

  /** A test identifier names its path unambiguously as long as no name on
      the path contains "/": splitting it at "/" gives the path back. */
  lemma TestIdentifierSplits(path: seq<string>)
    requires path != []
    requires forall i :: 0 <= i < |path| ==> '/' !in path[i]
    ensures Split(FormatTestIdentifier(path), '/') == path
  {
    SplitJoin(path, '/');
  }

  // ---------------------------------------------------------------------
  // Workflow-command data escaping
  // ---------------------------------------------------------------------

  /** The escaping chain: "%" first, then carriage return, then line feed. */
  function EscapeData(s: string): string {
    ReplaceChar(ReplaceChar(ReplaceChar(s, '%', "%25"), '\r', "%0D"), '\n', "%0A")
  }

  /** A left-to-right decoder of the three escapes. */
  function UnescapeData(s: string): string
    decreases |s|
  {
    if |s| >= 3 && s[..3] == "%25" then "%" + UnescapeData(s[3..])
    else if |s| >= 3 && s[..3] == "%0D" then "\r" + UnescapeData(s[3..])
    else if |s| >= 3 && s[..3] == "%0A" then "\n" + UnescapeData(s[3..])
    else if s == [] then []
    else [s[0]] + UnescapeData(s[1..])
  }

  /** The escape of one character. */
  function EscapeChar(c: char): string {
    if c == '%' then "%25" else if c == '\r' then "%0D" else if c == '\n' then "%0A" else [c]
  }

  /** Escaping a concatenation escapes each half. */
  lemma EscapeDataAppend(a: string, b: string)
    ensures EscapeData(a + b) == EscapeData(a) + EscapeData(b)
  {
    var a1, b1 := ReplaceChar(a, '%', "%25"), ReplaceChar(b, '%', "%25");
    var a2, b2 := ReplaceChar(a1, '\r', "%0D"), ReplaceChar(b1, '\r', "%0D");
    ReplaceCharAppend(a, b, '%', "%25");
    ReplaceCharAppend(a1, b1, '\r', "%0D");
    ReplaceCharAppend(a2, b2, '\n', "%0A");
  }

  /** The three replacements never interfere: each character is escaped on
      its own. This holds because "%" is replaced first, and the text put in
      by a replacement holds neither a carriage return nor a line feed. */
  lemma EscapeDataOneChar(c: char)
    ensures EscapeData([c]) == EscapeChar(c)
  {
    assert ReplaceChar([], '%', "%25") == [];
    assert [c][1..] == [];
    if c == '%' {
      assert ReplaceChar([c], '%', "%25") == "%25";
      assert ReplaceChar("%25", '\r', "%0D") == "%25" by {
        assert "%25"[1..] == "25" && "25"[1..] == "5" && "5"[1..] == [];
      }
      assert ReplaceChar("%25", '\n', "%0A") == "%25" by {
        assert "%25"[1..] == "25" && "25"[1..] == "5" && "5"[1..] == [];
      }
    } else if c == '\r' {
      assert ReplaceChar([c], '%', "%25") == [c];
      assert ReplaceChar([c], '\r', "%0D") == "%0D";
      assert ReplaceChar("%0D", '\n', "%0A") == "%0D" by {
        assert "%0D"[1..] == "0D" && "0D"[1..] == "D" && "D"[1..] == [];
      }
    }
  }

  /** Decoding the escape of `c` in front of any text gives back `c` in
      front of the decoded text. */
  lemma UnescapeAfterEscapeChar(c: char, rest: string)
    ensures UnescapeData(EscapeChar(c) + rest) == [c] + UnescapeData(rest)
  {
    var s := EscapeChar(c) + rest;
    if c == '%' || c == '\r' || c == '\n' {
      assert s[..3] == EscapeChar(c) && s[3..] == rest;
    } else {
      assert s[0] == c && s[1..] == rest;
      assert |s| >= 3 ==> s[..3][0] == c;
    }
  }

  /** Round trip: decoding the three escapes undoes the escaping, so no two
      messages give the same annotation data. */
  lemma {:induction false} UnescapeEscapeData(s: string)
    ensures UnescapeData(EscapeData(s)) == s
    decreases |s|
  {
    if s != [] {
      assert s == [s[0]] + s[1..];
      EscapeDataAppend([s[0]], s[1..]);
      EscapeDataOneChar(s[0]);
      UnescapeAfterEscapeChar(s[0], EscapeData(s[1..]));
      UnescapeEscapeData(s[1..]);
    } else {
      assert ReplaceChar([], '%', "%25") == [];
    }
  }

  /** Escaped data never holds a raw line break, so the command stays on one
      line. */
  lemma {:induction false} EscapeDataHasNoLineBreaks(s: string)
    ensures '\n' !in EscapeData(s) && '\r' !in EscapeData(s)
    decreases |s|
  {
    if s != [] {
      assert s == [s[0]] + s[1..];
      EscapeDataAppend([s[0]], s[1..]);
      EscapeDataOneChar(s[0]);
      EscapeDataHasNoLineBreaks(s[1..]);
    } else {
      assert ReplaceChar([], '%', "%25") == [];
    }
  }

  /** Escaping is injective. */
  lemma EscapeDataInjective(a: string, b: string)
    requires EscapeData(a) == EscapeData(b)
    ensures a == b
  {
    UnescapeEscapeData(a);
    UnescapeEscapeData(b);
  }

  // ---------------------------------------------------------------------
  // The annotation and the summary
  // ---------------------------------------------------------------------

  /** The text of a failure's annotation before escaping: the truncated
      message, prefixed with "[device] " when the failure has a non-empty
      device. */
  function AnnotationMessage(f: Failure): string {
    var message := TruncateMessage(f.message, MaxMessageLength);
    if Truthy(f.device) then "[" + f.device.value + "] " + message else message
  }

  /** The command prefix before the data: the test identifier is the title. */
  function AnnotationPrefix(f: Failure): string {
    "::error title=" + FormatTestIdentifier(f.path) + "::"
  }

  /** `output_github_annotation`: the line it prints. */
  function AnnotationLine(f: Failure): (line: string)
    ensures AnnotationPrefix(f) <= line
  {
    AnnotationPrefix(f) + EscapeData(AnnotationMessage(f))
  }

  /** After its title the annotation line carries data that holds no line
      break and that decodes back to the device-prefixed,
      truncated message. */
  lemma AnnotationDataDecodes(f: Failure)
    ensures var data := AnnotationLine(f)[|AnnotationPrefix(f)|..];
      && '\n' !in data && '\r' !in data
      && UnescapeData(data) == AnnotationMessage(f)
  {
    var data := AnnotationLine(f)[|AnnotationPrefix(f)|..];
    assert data == EscapeData(AnnotationMessage(f));
    EscapeDataHasNoLineBreaks(AnnotationMessage(f));
    UnescapeEscapeData(AnnotationMessage(f));
  }

  /** One numbered entry of the plain-text summary; `device` is the device
      line, present only when the failure has a non-empty device. */
  datatype SummaryEntry = SummaryEntry(number: nat, testId: string, device: Option<string>, message: string)

  /** The summary's entries and the total count printed after them. */
  datatype Summary = Summary(entries: seq<SummaryEntry>, total: nat)

  /** `output_plain_text_summary`: nothing for no failures; otherwise the
      failures numbered 1 to n in order, then their count. */
  method PlainTextSummary(failures: seq<Failure>) returns (summary: Option<Summary>)
    ensures summary.None? <==> failures == []
    ensures summary.Some? ==> summary.value.total == |failures| && |summary.value.entries| == |failures|
    ensures summary.Some? ==> forall k :: 0 <= k < |failures| ==>
      && summary.value.entries[k].number == k + 1
      && summary.value.entries[k].testId == FormatTestIdentifier(failures[k].path)
      && summary.value.entries[k].device == (if Truthy(failures[k].device) then failures[k].device else None)
      && summary.value.entries[k].message == TruncateMessage(failures[k].message, MaxMessageLength)
  {
    if failures == [] {
      return None;
    }
    var entries: seq<SummaryEntry> := [];
    var i := 1;
    while i <= |failures|
      invariant 1 <= i <= |failures| + 1
      invariant |entries| == i - 1
      invariant forall k :: 0 <= k < i - 1 ==>
        entries[k] == SummaryEntry(k + 1, FormatTestIdentifier(failures[k].path),
                                   if Truthy(failures[k].device) then failures[k].device else None,
                                   TruncateMessage(failures[k].message, MaxMessageLength))
    {
      var failure := failures[i - 1];
      var testId := FormatTestIdentifier(failure.path);
      var message := TruncateMessage(failure.message, MaxMessageLength);
      var device: Option<string> := None;
      if failure.device.Some? && failure.device.value != "" {
        device := failure.device;
      }
      entries := entries + [SummaryEntry(i, testId, device, message)];
      i := i + 1;
    }
    summary := Some(Summary(entries, |failures|));
  }
}
