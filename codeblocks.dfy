/** test_code_blocks.py: every ```json fenced block of the example
    document is extracted, stripped, written to a temporary file, run
    through the validator, reported under its number, and the file is
    removed again.

    The document's text is a parameter; the validator is an opaque function
    from the JSON text it is given to what it prints.  What the script does
    to the outside world is recorded as a trace of events. */
module CodeBlocks {

  import opened Results
  import Text

  /** The opening fence the pattern looks for. */
  const OpenFence: string := "```json"

  /** The closing fence. */
  const CloseFence: string := "```"

  const NoBlocksMessage: string := "No JSON code blocks found."

  const ErrorsHeading: string := "Errors:"

  // ---------------------------------------------------------------------
  // Extraction: re.compile(r"```json(.*?)```", re.DOTALL).findall(content)
  // ---------------------------------------------------------------------

  /** The first position at or after `from` where `w` occurs. */
  function FindFrom(s: string, w: string, from: nat): (r: Option<nat>)
    requires |w| > 0
    ensures r.Some? ==> from <= r.value && Text.OccursAt(s, w, r.value)
    decreases |s| - from
  {
    if from + |w| > |s| then None
    else if Text.OccursAt(s, w, from) then Some(from)
    else FindFrom(s, w, from + 1)
  }

  /** `FindFrom` finds the leftmost occurrence, and none means none. */
  lemma {:induction false} FindFromFirst(s: string, w: string, from: nat)
    requires |w| > 0
    ensures forall k | from <= k && (FindFrom(s, w, from).None? || k < FindFrom(s, w, from).value) ::
              !Text.OccursAt(s, w, k)
    decreases |s| - from
  {
    if from + |w| <= |s| && s[from..from + |w|] != w {
      FindFromFirst(s, w, from + 1);
    }
  }

  /** One match of the pattern: the opening fence at `open`, the closing
      fence at `close`; the block is what lies between them. */
  datatype Span = Span(open: nat, close: nat)

  /** The matches `findall` makes from position `from` on: the leftmost
      opening fence, the nearest closing fence after it, and then the
      search resumes after that closing fence. */
  function Spans(s: string, from: nat): seq<Span>
    decreases |s| - from
  {
    var open := FindFrom(s, OpenFence, from);
    if open.None? then []
    else
      var close := FindFrom(s, CloseFence, open.value + |OpenFence|);
      if close.None? then []
      else [Span(open.value, close.value)] + Spans(s, close.value + |CloseFence|)
  }

  /** Every span lies inside the text, after `from`. */
  lemma {:induction false} SpansInside(s: string, from: nat)
    ensures forall i | 0 <= i < |Spans(s, from)| ::
              from <= Spans(s, from)[i].open && Spans(s, from)[i].open + |OpenFence| <= Spans(s, from)[i].close &&
              Spans(s, from)[i].close + |CloseFence| <= |s|
    decreases |s| - from
  {
    var r := Spans(s, from);
    if r != [] {
      var open, close := SpansCons(s, from);
      SpansInside(s, close + |CloseFence|);
      assert forall i | 1 <= i < |r| :: r[i] == Spans(s, close + |CloseFence|)[i - 1];
    }
  }

  /** The text a span captures. */
  function Captured(s: string, m: Span): string
    requires m.open + |OpenFence| <= m.close <= |s|
  {
    s[m.open + |OpenFence|..m.close]
  }

  /** `code_block_pattern.findall(content)`: the captured texts, in
      document order. */
  function JsonBlocks(content: string): seq<string>
  {
    var spans := Spans(content, 0);
    SpansInside(content, 0);
    seq(|spans|, i requires 0 <= i < |spans| => Captured(content, spans[i]))
  }

  /** Where the search for the i-th match started: `from` for the first,
      just after the previous closing fence otherwise. */
  function SearchStart(from: nat, r: seq<Span>, i: nat): nat
    requires i < |r|
  {
    if i == 0 then from else r[i - 1].close + |CloseFence|
  }

  /** `m` is the match a search from `start` makes: an opening fence with
      none skipped since `start`, and the first closing fence after it (the
      lazy group stops there). */
  predicate LeftmostMatch(s: string, start: nat, m: Span)
  {
    start <= m.open && Text.OccursAt(s, OpenFence, m.open) && Text.OccursAt(s, CloseFence, m.close) &&
    (forall k | m.open + |OpenFence| <= k < m.close :: !Text.OccursAt(s, CloseFence, k)) &&
    (forall k | start <= k < m.open :: !Text.OccursAt(s, OpenFence, k))
  }

  /** From `start` on, no opening fence is followed by a closing fence. */
  ghost predicate NoMatchFrom(s: string, start: nat)
  {
    forall k, e | start <= k && k + |OpenFence| <= e ::
      !(Text.OccursAt(s, OpenFence, k) && Text.OccursAt(s, CloseFence, e))
  }

  /** The first span `Spans` returns is the leftmost, shortest match. */
  lemma FirstSpanMatches(s: string, from: nat, open: nat, close: nat)
    requires FindFrom(s, OpenFence, from) == Some(open)
    requires FindFrom(s, CloseFence, open + |OpenFence|) == Some(close)
    ensures LeftmostMatch(s, from, Span(open, close))
  {
    FindFromFirst(s, OpenFence, from);
    FindFromFirst(s, CloseFence, open + |OpenFence|);
  }

  /** When `Spans` stops, no match is left. */
  lemma SpansStopWhenNoMatch(s: string, from: nat)
    requires Spans(s, from) == []
    ensures NoMatchFrom(s, from)
  {
    FindFromFirst(s, OpenFence, from);
    var open := FindFrom(s, OpenFence, from);
    if open.Some? {
      FindFromFirst(s, CloseFence, open.value + |OpenFence|);
    }
  }

  /** A non-empty `Spans` is its first match followed by the matches after
      it. */
  lemma SpansCons(s: string, from: nat) returns (open: nat, close: nat)
    requires Spans(s, from) != []
    ensures FindFrom(s, OpenFence, from) == Some(open)
    ensures FindFrom(s, CloseFence, open + |OpenFence|) == Some(close)
    ensures Spans(s, from) == [Span(open, close)] + Spans(s, close + |CloseFence|)
  {
    var o := FindFrom(s, OpenFence, from);
    assert o.Some?;
    open := o.value;
    var c := FindFrom(s, CloseFence, open + |OpenFence|);
    assert c.Some?;
    close := c.value;
  }

  /** The i-th span is the leftmost, shortest match of the search that
      starts where the previous match ended. */
  lemma {:induction false} SpanIsLeftmostMatch(s: string, from: nat, i: nat)
    requires i < |Spans(s, from)|
    ensures LeftmostMatch(s, SearchStart(from, Spans(s, from), i), Spans(s, from)[i])
    decreases i
  {
    var open, close := SpansCons(s, from);
    var r := Spans(s, from);
    var next := close + |CloseFence|;
    var tail := Spans(s, next);
    if i == 0 {
      FirstSpanMatches(s, from, open, close);
    } else {
      SpanIsLeftmostMatch(s, next, i - 1);
      assert r[i] == tail[i - 1];
      assert SearchStart(from, r, i) == SearchStart(next, tail, i - 1);
    }
  }

  /** What makes `Spans` the matching `findall` does for the pattern with
      DOTALL, first half: each span is the leftmost, shortest match of a
      search that starts where the previous match ended. */
  lemma SpansAreLeftmostMatches(s: string, from: nat)
    ensures var r := Spans(s, from);
            forall i | 0 <= i < |r| :: LeftmostMatch(s, SearchStart(from, r, i), r[i])
  {
    forall i | 0 <= i < |Spans(s, from)|
      ensures LeftmostMatch(s, SearchStart(from, Spans(s, from), i), Spans(s, from)[i])
    {
      SpanIsLeftmostMatch(s, from, i);
    }
  }

  /** Second half: after the last span no match is left. */
  lemma {:induction false} SpansAreAllMatches(s: string, from: nat)
    ensures var r := Spans(s, from);
            NoMatchFrom(s, if |r| == 0 then from else r[|r| - 1].close + |CloseFence|)
    decreases |s| - from
  {
    var r := Spans(s, from);
    if r == [] {
      SpansStopWhenNoMatch(s, from);
    } else {
      var open, close := SpansCons(s, from);
      var next := close + |CloseFence|;
      var tail := Spans(s, next);
      SpansAreAllMatches(s, next);
      if tail != [] {
        assert r[|r| - 1] == tail[|tail| - 1];
      }
    }
  }

  // ---------------------------------------------------------------------
  // Stripping: block.strip()
  // ---------------------------------------------------------------------

  /** Python's `str.isspace` for one character. */
  predicate IsSpace(c: char)
  {
    c == ' ' || c == '\t' || c == '\n' || c == '\r' || c == '\U{000B}' || c == '\U{000C}' ||
    ('\U{001C}' <= c <= '\U{001F}') || c == '\U{0085}' || c == '\U{00A0}' || c == '\U{1680}' ||
    ('\U{2000}' <= c <= '\U{200A}') || c == '\U{2028}' || c == '\U{2029}' || c == '\U{202F}' ||
    c == '\U{205F}' || c == '\U{3000}'
  }

  /** Every character of s is whitespace. */
  predicate AllSpace(s: string)
  {
    forall k | 0 <= k < |s| :: IsSpace(s[k])
  }

  /** The number of whitespace characters s starts with. */
  function LeadingSpaces(s: string): (n: nat)
    ensures n <= |s|
  {
    if |s| > 0 && IsSpace(s[0]) then 1 + LeadingSpaces(s[1..]) else 0
  }

  /** The number of whitespace characters s ends with. */
  function TrailingSpaces(s: string): (n: nat)
    ensures n <= |s|
  {
    if |s| > 0 && IsSpace(s[|s| - 1]) then 1 + TrailingSpaces(s[..|s| - 1]) else 0
  }

  /** `s.strip()`: s without its leading and then its trailing whitespace. */
  function Strip(s: string): string
  {
    var t := s[LeadingSpaces(s)..];
    t[..|t| - TrailingSpaces(t)]
  }

  lemma {:induction false} LeadingSpacesFacts(s: string)
    ensures AllSpace(s[..LeadingSpaces(s)])
    ensures LeadingSpaces(s) < |s| ==> !IsSpace(s[LeadingSpaces(s)])
  {
    if |s| > 0 && IsSpace(s[0]) {
      LeadingSpacesFacts(s[1..]);
      assert s[..LeadingSpaces(s)] == [s[0]] + s[1..][..LeadingSpaces(s[1..])];
    }
  }

  lemma {:induction false} TrailingSpacesFacts(s: string)
    ensures AllSpace(s[|s| - TrailingSpaces(s)..])
    ensures TrailingSpaces(s) < |s| ==> !IsSpace(s[|s| - TrailingSpaces(s) - 1])
  {
    if |s| > 0 && IsSpace(s[|s| - 1]) {
      var front := s[..|s| - 1];
      TrailingSpacesFacts(front);
      assert s[|s| - TrailingSpaces(s)..] == front[|front| - TrailingSpaces(front)..] + [s[|s| - 1]];
    }
  }

  /** Trimming the end of a text that starts with a non-space keeps it. */
  lemma {:induction false} TrailingStopsAtText(t: string)
    requires |t| > 0 && !IsSpace(t[0])
    ensures TrailingSpaces(t) < |t|
  {
    if |t| >= 2 && IsSpace(t[|t| - 1]) {
      assert t[..|t| - 1][0] == t[0];
      TrailingStopsAtText(t[..|t| - 1]);
    }
  }

  /** The stripped text is a contiguous piece of s with only whitespace
      around it, and it neither starts nor ends with whitespace. */
  lemma StripIsTrim(s: string) returns (i: nat, j: nat)
    ensures i <= j <= |s| && Strip(s) == s[i..j]
    ensures AllSpace(s[..i]) && AllSpace(s[j..])
    ensures Strip(s) != "" ==> !IsSpace(Strip(s)[0]) && !IsSpace(Strip(s)[|Strip(s)| - 1])
  {
    var t := s[LeadingSpaces(s)..];
    LeadingSpacesFacts(s);
    TrailingSpacesFacts(t);
    if |t| > 0 {
      TrailingStopsAtText(t);
    }
    i := LeadingSpaces(s);
    j := i + |t| - TrailingSpaces(t);
    assert s[j..] == t[|t| - TrailingSpaces(t)..];
    assert Strip(s) == s[i..j];
  }

  /** Stripping twice strips no more. */
  lemma StripIdempotent(s: string)
    ensures Strip(Strip(s)) == Strip(s)
  {
    var r := Strip(s);
    var _, _ := StripIsTrim(s);
    if r != "" {
      assert LeadingSpaces(r) == 0;
      assert TrailingSpaces(r) == 0;
    }
  }

  // ---------------------------------------------------------------------
  // The per-block loop as a trace
  // ---------------------------------------------------------------------

  /** What the validator process printed. */
  datatype Completed = Completed(stdout: string, stderr: string)

  /** What the script does: write a temporary file with the given text, run
      the validator on it, print a line, delete the temporary file. */
  datatype Event = Write(text: string) | Invoke(text: string) | Print(line: string) | Delete

  /** The heading printed before the n-th block's result. */
  function Heading(n: nat): string
  {
    "--- Validation result for code block " + Text.NatToText(n) + " ---"
  }

  /** One pass of the loop for block number n: write the stripped text,
      run the validator, print the heading and its output (and its error
      output under "Errors:" when there is any), then delete the file. */
  function Report(n: nat, block: string, validator: string -> Completed): seq<Event>
  {
    var text := Strip(block);
    var run := validator(text);
    [Write(text), Invoke(text), Print(Heading(n)), Print(run.stdout)] + ErrorLines(run) + [Delete]
  }

  /** "Errors:" and the error output, when the validator wrote any. */
  function ErrorLines(run: Completed): seq<Event>
  {
    if run.stderr != "" then [Print(ErrorsHeading), Print(run.stderr)] else []
  }

  /** The loop over `blocks`, numbered from 1 (`enumerate(..., start=1)`). */
  function Reports(blocks: seq<string>, validator: string -> Completed): seq<Event>
  {
    if |blocks| == 0 then []
    else Reports(blocks[..|blocks| - 1], validator) + Report(|blocks|, blocks[|blocks| - 1], validator)
  }

  /** The script: extract the blocks; with none, print the message and exit
      with status 1; otherwise report every block, numbered from 1. */
  method TestCodeBlocks(content: string, validator: string -> Completed) returns (trace: seq<Event>, exitStatus: nat)
    ensures JsonBlocks(content) == [] ==> trace == [Print(NoBlocksMessage)] && exitStatus == 1
    ensures JsonBlocks(content) != [] ==> trace == Reports(JsonBlocks(content), validator) && exitStatus == 0
  {
    var codeBlocks := JsonBlocks(content);
    if |codeBlocks| == 0 {
      return [Print(NoBlocksMessage)], 1;
    }
    trace := [];
    for i := 0 to |codeBlocks|
      invariant trace == Reports(codeBlocks[..i], validator)
    {
      var idx := i + 1;
      var jsonText := Strip(codeBlocks[i]);
      var result := validator(jsonText);
      // the temporary file is written, the validator run on it, and its
      // output printed under the heading
      var events := [Write(jsonText), Invoke(jsonText), Print(Heading(idx)), Print(result.stdout)];
      if result.stderr != "" {
        events := events + [Print(ErrorsHeading), Print(result.stderr)];
      }
      // the `finally` clause removes the file
      events := events + [Delete];
      trace := trace + events;
      assert codeBlocks[..i + 1][..i] == codeBlocks[..i];
    }
    assert codeBlocks[..|codeBlocks|] == codeBlocks;
    exitStatus := 0;
  }

  // ---------------------------------------------------------------------
  // What the trace shows
  // ---------------------------------------------------------------------

  /** The file events of a trace: its writes and deletes, in order. */
  function FileEvents(trace: seq<Event>): seq<Event>
  {
    if |trace| == 0 then [] else FileEvent(trace[0]) + FileEvents(trace[1..])
  }

  function FileEvent(e: Event): seq<Event>
  {
    if e.Write? || e.Delete? then [e] else []
  }

  lemma {:induction false} FileEventsAppend(a: seq<Event>, b: seq<Event>)
    ensures FileEvents(a + b) == FileEvents(a) + FileEvents(b)
    decreases |a|
  {
    if |a| == 0 {
      assert a + b == b;
    } else {
      assert (a + b)[0] == a[0];
      assert (a + b)[1..] == a[1..] + b;
      calc {
        FileEvents(a + b);
        FileEvent(a[0]) + FileEvents(a[1..] + b);
        { FileEventsAppend(a[1..], b); }
        FileEvent(a[0]) + (FileEvents(a[1..]) + FileEvents(b));
        (FileEvent(a[0]) + FileEvents(a[1..])) + FileEvents(b);
      }
    }
  }

  lemma {:induction false} NoFileEvents(t: seq<Event>)
    requires forall k | 0 <= k < |t| :: t[k].Invoke? || t[k].Print?
    ensures FileEvents(t) == []
    decreases |t|
  {
    if |t| > 0 {
      NoFileEvents(t[1..]);
    }
  }

  lemma ReportFileEvents(n: nat, block: string, validator: string -> Completed)
    ensures FileEvents(Report(n, block, validator)) == [Write(Strip(block)), Delete]
  {
    var text := Strip(block);
    var run := validator(text);
    var middle := [Invoke(text), Print(Heading(n)), Print(run.stdout)] + ErrorLines(run);
    assert Report(n, block, validator) == [Write(text)] + middle + [Delete];
    FileEventsAppend([Write(text)] + middle, [Delete]);
    FileEventsAppend([Write(text)], middle);
    NoFileEvents(middle);
  }

  /** Every temporary file the loop writes is deleted before the next one
      is written, whatever the validator printed: the file events of the
      trace are a write of each stripped block followed by its delete, in
      block order. */
  lemma {:induction false} TempFilesRemoved(blocks: seq<string>, validator: string -> Completed)
    ensures var files := FileEvents(Reports(blocks, validator));
            |files| == 2 * |blocks| &&
            forall k | 0 <= k < |blocks| :: files[2 * k] == Write(Strip(blocks[k])) && files[2 * k + 1] == Delete
    decreases |blocks|
  {
    if |blocks| > 0 {
      var front := blocks[..|blocks| - 1];
      var last := blocks[|blocks| - 1];
      TempFilesRemoved(front, validator);
      FileEventsAppend(Reports(front, validator), Report(|blocks|, last, validator));
      ReportFileEvents(|blocks|, last, validator);
      assert blocks == front + [last];
      WritesSnoc(FileEvents(Reports(front, validator)), front, last);
    }
  }

  lemma WritesSnoc(earlier: seq<Event>, front: seq<string>, last: string)
    requires |earlier| == 2 * |front|
    requires forall k | 0 <= k < |front| :: earlier[2 * k] == Write(Strip(front[k])) && earlier[2 * k + 1] == Delete
    ensures var files := earlier + [Write(Strip(last)), Delete];
            var blocks := front + [last];
            forall k | 0 <= k < |blocks| :: files[2 * k] == Write(Strip(blocks[k])) && files[2 * k + 1] == Delete
  {
  }

  /** The validator runs of a trace: the texts it was given, in order. */
  function Invocations(trace: seq<Event>): seq<string>
  {
    if |trace| == 0 then [] else Invocation(trace[0]) + Invocations(trace[1..])
  }

  function Invocation(e: Event): seq<string>
  {
    if e.Invoke? then [e.text] else []
  }

  lemma {:induction false} InvocationsAppend(a: seq<Event>, b: seq<Event>)
    ensures Invocations(a + b) == Invocations(a) + Invocations(b)
    decreases |a|
  {
    if |a| == 0 {
      assert a + b == b;
    } else {
      assert (a + b)[0] == a[0];
      assert (a + b)[1..] == a[1..] + b;
      calc {
        Invocations(a + b);
        Invocation(a[0]) + Invocations(a[1..] + b);
        { InvocationsAppend(a[1..], b); }
        Invocation(a[0]) + (Invocations(a[1..]) + Invocations(b));
        (Invocation(a[0]) + Invocations(a[1..])) + Invocations(b);
      }
    }
  }

  lemma {:induction false} NoInvocations(t: seq<Event>)
    requires forall k | 0 <= k < |t| :: !t[k].Invoke?
    ensures Invocations(t) == []
    decreases |t|
  {
    if |t| > 0 {
      NoInvocations(t[1..]);
    }
  }

  lemma ReportInvocations(n: nat, block: string, validator: string -> Completed)
    ensures Invocations(Report(n, block, validator)) == [Strip(block)]
  {
    var text := Strip(block);
    var run := validator(text);
    var tail := [Print(Heading(n)), Print(run.stdout)] + ErrorLines(run) + [Delete];
    assert Report(n, block, validator) == [Write(text), Invoke(text)] + tail;
    InvocationsAppend([Write(text), Invoke(text)], tail);
    NoInvocations(tail);
  }

  /** The validator is run once per block, on that block's stripped text,
      in document order. */
  lemma {:induction false} EachBlockValidatedOnce(blocks: seq<string>, validator: string -> Completed)
    ensures var runs := Invocations(Reports(blocks, validator));
            |runs| == |blocks| && forall k | 0 <= k < |blocks| :: runs[k] == Strip(blocks[k])
    decreases |blocks|
  {
    if |blocks| > 0 {
      var front := blocks[..|blocks| - 1];
      var last := blocks[|blocks| - 1];
      EachBlockValidatedOnce(front, validator);
      InvocationsAppend(Reports(front, validator), Report(|blocks|, last, validator));
      ReportInvocations(|blocks|, last, validator);
      assert blocks == front + [last];
      RunsSnoc(Invocations(Reports(front, validator)), front, last);
    }
  }

  lemma RunsSnoc(earlier: seq<string>, front: seq<string>, last: string)
    requires |earlier| == |front|
    requires forall k | 0 <= k < |front| :: earlier[k] == Strip(front[k])
    ensures var runs := earlier + [Strip(last)];
            var blocks := front + [last];
            forall k | 0 <= k < |blocks| :: runs[k] == Strip(blocks[k])
  {
  }

  /** The lines printed right after a validator run: the headings. */
  function Headings(trace: seq<Event>): seq<string>
    decreases |trace|
  {
    if |trace| < 2 then [] else HeadingAfter(trace[0], trace[1]) + Headings(trace[1..])
  }

  /** The line printed by `next`, when it directly follows a validator run. */
  function HeadingAfter(e: Event, next: Event): seq<string>
  {
    if e.Invoke? && next.Print? then [next.line] else []
  }

  lemma {:induction false} HeadingsAppend(a: seq<Event>, b: seq<Event>)
    requires |a| == 0 || !a[|a| - 1].Invoke?
    ensures Headings(a + b) == Headings(a) + Headings(b)
    decreases |a|
  {
    if |a| == 0 {
      assert a + b == b;
    } else if |a| == 1 {
      assert (a + b)[1..] == b;
      if |b| > 0 {
        assert HeadingAfter((a + b)[0], (a + b)[1]) == [];
      }
    } else {
      assert (a + b)[0] == a[0] && (a + b)[1] == a[1];
      assert (a + b)[1..] == a[1..] + b;
      calc {
        Headings(a + b);
        HeadingAfter(a[0], a[1]) + Headings(a[1..] + b);
        { HeadingsAppend(a[1..], b); }
        HeadingAfter(a[0], a[1]) + (Headings(a[1..]) + Headings(b));
        (HeadingAfter(a[0], a[1]) + Headings(a[1..])) + Headings(b);
      }
    }
  }

  lemma {:induction false} NoInvokeNoHeadings(t: seq<Event>)
    requires forall k | 0 <= k < |t| :: !t[k].Invoke?
    ensures Headings(t) == []
    decreases |t|
  {
    if |t| >= 2 {
      NoInvokeNoHeadings(t[1..]);
    }
  }

  lemma ReportHeading(n: nat, block: string, validator: string -> Completed)
    ensures Headings(Report(n, block, validator)) == [Heading(n)]
  {
    var text := Strip(block);
    var run := validator(text);
    var tail := [Print(run.stdout)] + ErrorLines(run) + [Delete];
    var second := [Invoke(text), Print(Heading(n))] + tail;
    var third := [Print(Heading(n))] + tail;
    assert Report(n, block, validator) == [Write(text)] + second;
    assert ([Write(text)] + second)[1..] == second;
    assert second[1..] == third;
    assert third[1..] == tail;
    NoInvokeNoHeadings(tail);
    assert Headings(third) == [];
  }

  /** The reports are numbered 1, 2, … in block order. */
  lemma {:induction false} ReportsNumbered(blocks: seq<string>, validator: string -> Completed)
    ensures var headings := Headings(Reports(blocks, validator));
            |headings| == |blocks| && forall k | 0 <= k < |blocks| :: headings[k] == Heading(k + 1)
    decreases |blocks|
  {
    if |blocks| > 0 {
      var front := blocks[..|blocks| - 1];
      var done := Reports(front, validator);
      ReportsNumbered(front, validator);
      if done != [] {
        ReportsEndWithDelete(front, validator);
      }
      HeadingsAppend(done, Report(|blocks|, blocks[|blocks| - 1], validator));
      ReportHeading(|blocks|, blocks[|blocks| - 1], validator);
      HeadingsSnoc(Headings(done), |front|);
    }
  }

  lemma HeadingsSnoc(earlier: seq<string>, count: nat)
    requires |earlier| == count
    requires forall k | 0 <= k < count :: earlier[k] == Heading(k + 1)
    ensures var headings := earlier + [Heading(count + 1)];
            forall k | 0 <= k < count + 1 :: headings[k] == Heading(k + 1)
  {
  }

  /** Every report ends with the file's deletion. */
  lemma ReportsEndWithDelete(blocks: seq<string>, validator: string -> Completed)
    requires Reports(blocks, validator) != []
    ensures Reports(blocks, validator)[|Reports(blocks, validator)| - 1] == Delete
  {
    var last := Report(|blocks|, blocks[|blocks| - 1], validator);
    assert last[|last| - 1] == Delete;
  }

  /** "Errors:" and the error output follow the output exactly when the
      validator wrote to its error stream. */
  lemma ErrorsOnlyWithStderr(n: nat, block: string, validator: string -> Completed)
    ensures var r := Report(n, block, validator);
            var run := validator(Strip(block));
            |r| == (if run.stderr != "" then 7 else 5) && r[3] == Print(run.stdout) && r[|r| - 1] == Delete &&
            (r[4] == Print(ErrorsHeading) <==> run.stderr != "") &&
            (run.stderr != "" ==> r[5] == Print(run.stderr))
  {
  }
}
