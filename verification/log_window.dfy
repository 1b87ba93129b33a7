/** The log file writer: it keeps a count of the lines of a file beside the file, and shortens the
    file to its last lines before a write would make it too long. */
module LogWindow {
  import opened Common

  const NEWLINE: byte := 10

  // ---------------------------------------------------------------- lines of a byte string

  function Newlines(s: seq<byte>): nat {
    if s == [] then 0 else Newlines(s[..|s| - 1]) + if s[|s| - 1] == NEWLINE then 1 else 0
  }

  /** Whether the last line is unfinished. */
  predicate Open(s: seq<byte>) { s != [] && s[|s| - 1] != NEWLINE }

  function Lines(s: seq<byte>): nat { Newlines(s) + if Open(s) then 1 else 0 }

  lemma {:induction false} NewlinesAdd(a: seq<byte>, b: seq<byte>)
    ensures Newlines(a + b) == Newlines(a) + Newlines(b)
  {
    if b == [] {
      assert a + b == a;
    } else {
      assert (a + b)[..|a + b| - 1] == a + b[..|b| - 1];
      NewlinesAdd(a, b[..|b| - 1]);
    }
  }

  /** The line count of a file grows by what is added, minus one if that continues an unfinished line. */
  lemma LinesAdd(a: seq<byte>, b: seq<byte>)
    ensures b != [] ==> Lines(a + b) == Lines(a) + Lines(b) - (if Open(a) then 1 else 0)
    ensures Lines(a + []) == Lines(a) && Open(a + []) == Open(a)
    ensures b != [] ==> Open(a + b) == Open(b)
  {
    NewlinesAdd(a, b);
    assert a + [] == a;
  }

  function FirstNewline(s: seq<byte>, i: nat): (next: nat)
    requires i <= |s|
    ensures i <= next <= |s|
    ensures next < |s| ==> s[next] == NEWLINE
    ensures forall k :: i <= k < next ==> s[k] != NEWLINE
    decreases |s| - i
  {
    if i == |s| || s[i] == NEWLINE then i else FirstNewline(s, i + 1)
  }

  /** countBytesLines. */
  method CountBytesLines(payload: seq<byte>) returns (count: nat)
    ensures count == Lines(payload)
  {
    if |payload| == 0 { return 0; }
    count := Newlines(payload);
    if payload[|payload| - 1] != NEWLINE { count := count + 1; }
  }

  /** `s[offset..]` starts at the beginning of a line. */
  predicate AtLineStart(s: seq<byte>, offset: nat)
    requires offset <= |s|
  {
    offset == 0 || s[offset - 1] == NEWLINE
  }

  lemma {:induction false} NoNewline(s: seq<byte>)
    requires forall k :: 0 <= k < |s| ==> s[k] != NEWLINE
    ensures Newlines(s) == 0
  {
    if s != [] { NoNewline(s[..|s| - 1]); }
  }

  lemma DropOneLine(s: seq<byte>, offset: nat)
    requires offset <= |s| && Lines(s[offset..]) > 0
    ensures var next := FirstNewline(s, offset);
            && (next == |s| ==> Lines(s[offset..]) == 1)
            && (next < |s| ==> Lines(s[next + 1..]) == Lines(s[offset..]) - 1)
  {
    var next := FirstNewline(s, offset);
    NoNewline(s[offset..next]);
    if next == |s| {
      assert s[offset..] == s[offset..next];
    } else {
      assert s[offset..] == s[offset..next] + ([NEWLINE] + s[next + 1..]);
      LineAndRest(s[offset..next], s[next + 1..]);
    }
  }

  lemma LineAndRest(line: seq<byte>, rest: seq<byte>)
    requires Newlines(line) == 0
    ensures Lines(line + ([NEWLINE] + rest)) == 1 + Lines(rest)
  {
    NewlinesAdd(line, [NEWLINE] + rest);
    NewlinesAdd([NEWLINE], rest);
    assert [NEWLINE][..0] == [];
    assert Newlines([NEWLINE]) == 1;
    var all := line + ([NEWLINE] + rest);
    if rest == [] {
      assert all[|all| - 1] == NEWLINE;
    } else {
      assert all[|all| - 1] == rest[|rest| - 1];
    }
  }

  ghost predicate IsLastLines(s: seq<byte>, target: nat, kept: seq<byte>) {
    && Lines(kept) == (if Lines(s) <= target then Lines(s) else target)
    && |kept| <= |s| && kept == s[|s| - |kept|..]
    && AtLineStart(s, |s| - |kept|)
    && (kept != [] ==> Open(kept) == Open(s))
  }

  lemma {:induction false} NoLinesIsEmpty(s: seq<byte>)
    ensures Lines(s) == 0 <==> s == []
  {
    if s != [] && s[|s| - 1] == NEWLINE { assert Newlines(s) >= 1; }
  }

  /** lastLinesBytes: the last lines as a byte suffix.  The search for a newline never fails.  With a
      target of no lines the whole text goes, an unfinished last line included. */
  method LastLinesBytes(payload: seq<byte>, targetLines: int) returns (trimmed: seq<byte>, lineCount: nat)
    ensures targetLines <= 0 ==> trimmed == []
    ensures targetLines > 0 ==> IsLastLines(payload, targetLines, trimmed)
    ensures lineCount == Lines(trimmed)
  {
    if |payload| == 0 || targetLines <= 0 { return [], 0; }
    lineCount := CountBytesLines(payload);
    if lineCount <= targetLines {
      assert payload[0..] == payload;
      return payload, lineCount;
    }
    var dropLines := lineCount - targetLines;
    var offset := 0;
    for i := 0 to dropLines
      invariant 0 <= offset <= |payload| && AtLineStart(payload, offset)
      invariant Lines(payload[offset..]) == Lines(payload) - i
    {
      var next := FirstNewline(payload, offset);
      DropOneLine(payload, offset);
      if next == |payload| { assert false; }
      offset := next + 1;
    }
    trimmed := payload[offset..];
    lineCount := CountBytesLines(trimmed);
  }

  // ---------------------------------------------------------------- one write

  /** The lines a payload adds to a file that ends in an unfinished line or not. */
  function Added(open: bool, payload: seq<byte>): int {
    if payload == [] then 0
    else
      Newlines(payload) + if open && !Open(payload) then -1 else if !open && Open(payload) then 1 else 0
  }

  /** How many lines to keep before a payload of `newLines` lines is written. */
  function Target(maxLines: int, trimReserve: nat, newLines: nat): nat {
    if maxLines - newLines - trimReserve >= 0 then maxLines - newLines - trimReserve
    else if maxLines - newLines >= 0 then maxLines - newLines
    else 0
  }

  predicate MustTrim(maxLines: int, lineCount: nat, newLines: nat) {
    maxLines > 0 && newLines > 0 && lineCount + newLines > maxLines
  }

  lemma AddedIsTheDifference(s: seq<byte>, payload: seq<byte>)
    ensures Added(Open(s), payload) == Lines(s + payload) - Lines(s) >= 0
  {
    LinesAdd(s, payload);
    if payload == [] { assert s + payload == s; }
    else if payload[|payload| - 1] == NEWLINE { assert Newlines(payload) >= 1; }
  }

  /** What keeping `target` lines of a file makes of it. */
  ghost predicate Keeps(s: seq<byte>, target: nat, kept: seq<byte>) {
    if target == 0 then kept == [] else IsLastLines(s, target, kept)
  }

  /** A write that adds a line leaves the file within its limit exactly when the payload by itself is. */
  lemma BoundedIff(s: seq<byte>, kept: seq<byte>, payload: seq<byte>, maxLines: int, trimReserve: nat)
    requires maxLines > 0 && Added(Open(s), payload) > 0
    requires var n := Added(Open(s), payload);
             if MustTrim(maxLines, Lines(s), n) then Keeps(s, Target(maxLines, trimReserve, n), kept) else kept == s
    ensures Lines(kept + payload) <= maxLines <==> Lines(payload) <= maxLines
  {
    AddedIsTheDifference(s, payload);
    LinesAdd(s, payload);
    LinesAdd(kept, payload);
    NoLinesIsEmpty(kept);
    NoLinesIsEmpty(s);
  }

  /** The count of lines added is not bound enough: a payload that adds exactly the limit to an
      unfinished line is written whole on an emptied file, and is one line more. */
  lemma AddedWithinLimitIsNotEnough()
    ensures exists s, payload, kept ::
      && Added(Open(s), payload) == 1 && MustTrim(1, Lines(s), 1) && Keeps(s, Target(1, 0, 1), kept)
      && Lines(kept + payload) == 2
  {
    var a: byte, s: seq<byte>, payload, kept: seq<byte> := 97, [97], [NEWLINE, 97, NEWLINE], [];
    assert payload == [NEWLINE, a] + [NEWLINE] && [NEWLINE, a] == [NEWLINE] + s;
    assert [NEWLINE][..0] == [] && s[..0] == [];
    assert Newlines([NEWLINE]) == 1 && Newlines(s) == 0;
    NewlinesAdd([NEWLINE, a], [NEWLINE]);
    NewlinesAdd([NEWLINE], s);
    assert kept + payload == payload;
    assert Added(Open(s), payload) == 1 && MustTrim(1, Lines(s), 1) && Keeps(s, Target(1, 0, 1), kept);
  }

  // ---------------------------------------------------------------- the writer

  /** The file, and what the writer believes about it. */
  datatype Window = Window(contents: seq<byte>, lineCount: nat, openLine: bool, attached: bool)

  /** What can go wrong while the file is shortened.  A failed rewrite leaves some first bytes.  After a
      failed read or rewrite the file is opened again, which may fail as well. */
  datatype Fault =
    | NoFault
    | CloseFails
    | ReadFails(reopens: bool)
    | RewriteFails(left: nat, reopens: bool)
    | ReopenFails

  predicate Exact(w: Window) {
    w.attached ==> w.lineCount == Lines(w.contents) && w.openLine == Open(w.contents)
  }

  ghost predicate TrimStep(w: Window, target: nat, fault: Fault, after: Window, ok: bool) {
    ok == fault.NoFault?
    && match fault
       case CloseFails => after == w
       case ReadFails(reopens) => after == w.(attached := reopens)
       case RewriteFails(left, reopens) =>
         exists kept :: Keeps(w.contents, target, kept) && left <= |kept|
                        && after == w.(contents := kept[..left], attached := reopens)
       case ReopenFails =>
         exists kept :: Keeps(w.contents, target, kept) && after == w.(contents := kept, attached := false)
       case NoFault =>
         exists kept :: Keeps(w.contents, target, kept) && after == Window(kept, Lines(kept), Open(kept), true)
  }

  /** The payload's first `n` bytes reach the file. */
  ghost predicate AppendStep(w: Window, payload: seq<byte>, n: nat, after: Window) {
    && n <= |payload| && Added(w.openLine, payload[..n]) + w.lineCount >= 0
    && after == Window(w.contents + payload[..n], w.lineCount + Added(w.openLine, payload[..n]),
                       if n > 0 then Open(payload[..n]) else w.openLine, true)
  }

  ghost predicate WriteStep(maxLines: int, trimReserve: nat, w: Window, payload: seq<byte>, fault: Fault, n: nat,
                            after: Window) {
    if !w.attached then after == w && n == 0
    else if Added(w.openLine, payload) > 0 && MustTrim(maxLines, w.lineCount, Added(w.openLine, payload)) then
      exists trimmed, ok ::
        && TrimStep(w, Target(maxLines, trimReserve, Added(w.openLine, payload)), fault, trimmed, ok)
        && if ok then AppendStep(trimmed, payload, n, after) else after == trimmed && n == 0
    else AppendStep(w, payload, n, after)
  }

  class LineWindowFileWriter {
    const maxLines: int
    const trimReserve: nat
    var contents: seq<byte>
    var lineCount: nat
    var openLine: bool
    var attached: bool

    ghost function State(): Window
      reads this
    {
      Window(contents, lineCount, openLine, attached)
    }

    /** newLineWindowFileWriter over a file that holds `initial`. */
    constructor (maxLines: int, trimReserve: nat, initial: seq<byte>)
      ensures this.maxLines == maxLines && this.trimReserve == trimReserve
      ensures Exact(State()) && attached
      ensures if maxLines > 0 && Lines(initial) > maxLines then IsLastLines(initial, maxLines, contents)
              else contents == initial
    {
      this.maxLines, this.trimReserve := maxLines, trimReserve;
      contents, attached := initial, true;
      lineCount, openLine := 0, false;
      new;
      lineCount := CountBytesLines(contents);
      openLine := |contents| > 0 && contents[|contents| - 1] != NEWLINE;
      if maxLines > 0 && lineCount > maxLines {
        var _ := TrimToLastLines(maxLines, NoFault);
      }
    }

    /** countIncomingLines.  Its guard against a negative count is never needed. */
    method CountIncomingLines(payload: seq<byte>) returns (delta: nat)
      ensures delta == Added(openLine, payload)
      ensures Exact(State()) && attached ==> delta == Lines(contents + payload) - Lines(contents)
    {
      AddedIsTheDifference(contents, payload);
      if |payload| == 0 { return 0; }
      var d: int := Newlines(payload);
      var endsWithNewline := payload[|payload| - 1] == NEWLINE;
      if openLine && endsWithNewline {
        d := d - 1;
      } else if !openLine && !endsWithNewline {
        d := d + 1;
      }
      if d < 0 { assert false; }
      delta := d;
    }

    method TrimToLastLines(target: nat, fault: Fault) returns (ok: bool)
      requires attached
      modifies this`contents, this`lineCount, this`openLine, this`attached
      ensures fault.RewriteFails? || TrimStep(old(State()), target, fault, State(), ok)
      ensures fault.RewriteFails? ==>
        && !ok && (exists left :: TrimStep(old(State()), target, RewriteFails(left, fault.reopens), State(), ok))
    {
      if fault.CloseFails? { return false; }
      if fault.ReadFails? {
        attached := fault.reopens;
        return false;
      }
      var trimmed, count := LastLinesBytes(contents, target);
      assert Keeps(contents, target, trimmed);
      if fault.RewriteFails? {
        var left := if fault.left <= |trimmed| then fault.left else |trimmed|;
        contents, attached := trimmed[..left], fault.reopens;
        assert TrimStep(old(State()), target, RewriteFails(left, fault.reopens), State(), false);
        return false;
      }
      contents := trimmed;
      if fault.ReopenFails? {
        attached := false;
        return false;
      }
      lineCount := count;
      openLine := |trimmed| > 0 && trimmed[|trimmed| - 1] != NEWLINE;
      ok := true;
    }

    /** The first part of Write: the file is shortened if the payload would make it too long. */
    method MakeRoom(payload: seq<byte>, fault: Fault) returns (ok: bool)
      requires attached
      modifies this`contents, this`lineCount, this`openLine, this`attached
      ensures var n := Added(old(openLine), payload);
              if n > 0 && MustTrim(maxLines, old(lineCount), n) then
                exists left ::
                  TrimStep(old(State()), Target(maxLines, trimReserve, n), Actual(fault, left), State(), ok)
              else ok && State() == old(State())
    {
      ok := true;
      var newLines := CountIncomingLines(payload);
      if maxLines > 0 && newLines > 0 && lineCount + newLines > maxLines {
        var target := maxLines - newLines - trimReserve;
        if target < 0 { target := maxLines - newLines; }
        if target < 0 { target := 0; }
        ok := TrimToLastLines(target, fault);
        ghost var left: nat := 0;
        if fault.RewriteFails? {
          left :| TrimStep(old(State()), target, RewriteFails(left, fault.reopens), State(), ok);
        }
        assert TrimStep(old(State()), target, Actual(fault, left), State(), ok);
      }
    }

    /** The last part of Write: the operating system takes the payload's first `takes` bytes. */
    method Append(payload: seq<byte>, takes: nat)
      requires attached && takes <= |payload|
      modifies this`contents, this`lineCount, this`openLine
      ensures AppendStep(old(State()), payload, takes, State())
    {
      AddedIsTheDifference(contents, payload[..takes]);
      var delta := CountIncomingLines(payload[..takes]);
      contents := contents + payload[..takes];
      lineCount := lineCount + delta;
      if takes > 0 { openLine := payload[takes - 1] != NEWLINE; }
    }

    /** Write. */
    method Write(payload: seq<byte>, takes: nat, fault: Fault) returns (n: nat)
      requires takes <= |payload|
      modifies this`contents, this`lineCount, this`openLine, this`attached
      ensures exists left :: WriteStep(maxLines, trimReserve, old(State()), payload, Actual(fault, left), n, State())
    {
      if !attached {
        assert WriteStep(maxLines, trimReserve, old(State()), payload, Actual(fault, 0), 0, State());
        return 0;
      }
      var ok := MakeRoom(payload, fault);
      ghost var trimmed := State();
      if ok { Append(payload, takes); }
      n := if ok then takes else 0;
      ComposeWrite(maxLines, trimReserve, old(State()), payload, fault, n, trimmed, ok, State());
    }
  }

  /** The fault that happens: a failing rewrite leaves some number of bytes. */
  function Actual(fault: Fault, left: nat): Fault { if fault.RewriteFails? then fault.(left := left) else fault }

  lemma ComposeWrite(maxLines: int, trimReserve: nat, w: Window, payload: seq<byte>, fault: Fault, n: nat,
                     trimmed: Window, ok: bool, after: Window)
    requires w.attached
    requires var added := Added(w.openLine, payload);
             if added > 0 && MustTrim(maxLines, w.lineCount, added) then
               exists left :: TrimStep(w, Target(maxLines, trimReserve, added), Actual(fault, left), trimmed, ok)
             else ok && trimmed == w
    requires if ok then AppendStep(trimmed, payload, n, after) else after == trimmed && n == 0
    ensures exists left :: WriteStep(maxLines, trimReserve, w, payload, Actual(fault, left), n, after)
  {
    var added := Added(w.openLine, payload);
    var left: nat := 0;
    if added > 0 && MustTrim(maxLines, w.lineCount, added) {
      left :| TrimStep(w, Target(maxLines, trimReserve, added), Actual(fault, left), trimmed, ok);
    }
    assert WriteStep(maxLines, trimReserve, w, payload, Actual(fault, left), n, after);
  }

  // ---------------------------------------------------------------- runs

  predicate EndsWith(s: seq<byte>, end: seq<byte>) { |end| <= |s| && s[|s| - |end|..] == end }

  lemma KeptEndsAndIsShort(s: seq<byte>, target: nat, kept: seq<byte>)
    requires Keeps(s, target, kept)
    ensures EndsWith(s, kept) && Lines(kept) <= target && Lines(kept) <= Lines(s)
  {
    NoLinesIsEmpty(kept);
  }

  lemma LinesOfPrefix(a: seq<byte>, n: nat)
    requires n <= |a|
    ensures Lines(a[..n]) <= Lines(a)
  {
    assert a == a[..n] + a[n..];
    AddedIsTheDifference(a[..n], a[n..]);
  }

  /** What a write should do to an exactly counted file: it stays exactly counted, loses only from its
      front, holds what was accepted whole at its end, and stays within a limit the payload respects. */
  ghost predicate Proper(maxLines: int, w: Window, payload: seq<byte>, n: nat, after: Window) {
    && Exact(after) && n <= |payload| && EndsWith(w.contents + payload[..n], after.contents)
    && EndsWith(after.contents, payload[..n])
    && (maxLines > 0 && Lines(w.contents) <= maxLines && Lines(payload) <= maxLines
        ==> Lines(after.contents) <= maxLines)
  }

  lemma AppendKeepsExact(base: Window, payload: seq<byte>, n: nat, after: Window)
    requires Exact(base) && base.attached && AppendStep(base, payload, n, after)
    ensures Exact(after) && Lines(after.contents) <= Lines(base.contents + payload)
  {
    AddedIsTheDifference(base.contents, payload[..n]);
    LinesAdd(base.contents, payload[..n]);
    assert (base.contents + payload)[..|base.contents| + n] == base.contents + payload[..n];
    LinesOfPrefix(base.contents + payload, |base.contents| + n);
  }

  lemma TrimKeepsExact(w: Window, target: nat, fault: Fault, trimmed: Window, ok: bool)
    requires Exact(w) && w.attached && !fault.RewriteFails? && TrimStep(w, target, fault, trimmed, ok)
    ensures Exact(trimmed) && EndsWith(w.contents, trimmed.contents) && Lines(trimmed.contents) <= Lines(w.contents)
    ensures ok ==> trimmed.attached && Keeps(w.contents, target, trimmed.contents)
  {
    if !fault.CloseFails? && !fault.ReadFails? { KeptEndsAndIsShort(w.contents, target, trimmed.contents); }
  }

  lemma TrimmedWriteIsProper(maxLines: int, trimReserve: nat, w: Window, payload: seq<byte>, fault: Fault, n: nat,
                             trimmed: Window, ok: bool, after: Window)
    requires Exact(w) && w.attached && !fault.RewriteFails?
    requires Added(Open(w.contents), payload) > 0
    requires MustTrim(maxLines, Lines(w.contents), Added(Open(w.contents), payload))
    requires TrimStep(w, Target(maxLines, trimReserve, Added(Open(w.contents), payload)), fault, trimmed, ok)
    requires if ok then AppendStep(trimmed, payload, n, after) else after == trimmed && n == 0
    ensures Proper(maxLines, w, payload, n, after)
  {
    TrimKeepsExact(w, Target(maxLines, trimReserve, Added(Open(w.contents), payload)), fault, trimmed, ok);
    if ok {
      BoundedIff(w.contents, trimmed.contents, payload, maxLines, trimReserve);
      AppendKeepsExact(trimmed, payload, n, after);
      EndsWithBoth(w.contents, trimmed.contents, payload[..n]);
    } else {
      assert w.contents + payload[..0] == w.contents;
    }
  }

  lemma WriteIsProper(maxLines: int, trimReserve: nat, w: Window, payload: seq<byte>, fault: Fault, n: nat,
                      after: Window)
    requires Exact(w) && !fault.RewriteFails? && WriteStep(maxLines, trimReserve, w, payload, fault, n, after)
    ensures Proper(maxLines, w, payload, n, after)
  {
    if !w.attached {
      assert w.contents + payload[..0] == w.contents;
    } else {
      var newLines := Added(w.openLine, payload);
      if newLines > 0 && MustTrim(maxLines, w.lineCount, newLines) {
        var trimmed, ok :| TrimStep(w, Target(maxLines, trimReserve, newLines), fault, trimmed, ok)
                           && if ok then AppendStep(trimmed, payload, n, after) else after == trimmed && n == 0;
        TrimmedWriteIsProper(maxLines, trimReserve, w, payload, fault, n, trimmed, ok, after);
      } else {
        AddedIsTheDifference(w.contents, payload);
        AppendKeepsExact(w, payload, n, after);
      }
    }
  }

  lemma EndsWithBoth(all: seq<byte>, end: seq<byte>, more: seq<byte>)
    requires EndsWith(all, end)
    ensures EndsWith(all + more, end + more)
  {
    var d := |all| - |end|;
    assert all == all[..d] + end;
    assert all + more == all[..d] + (end + more);
  }

  lemma EndsWithTrans(a: seq<byte>, b: seq<byte>, c: seq<byte>)
    requires EndsWith(a, b) && EndsWith(b, c)
    ensures EndsWith(a, c)
  {
    assert a == a[..|a| - |b|] + b;
    assert b == b[..|b| - |c|] + c;
    assert a == (a[..|a| - |b|] + b[..|b| - |c|]) + c;
  }

  datatype Call = Call(payload: seq<byte>, fault: Fault, n: nat)

  ghost predicate Run(maxLines: int, trimReserve: nat, states: seq<Window>, calls: seq<Call>) {
    && |states| == |calls| + 1
    && forall i :: 0 <= i < |calls|
                   ==> WriteStep(maxLines, trimReserve, states[i], calls[i].payload, calls[i].fault, calls[i].n,
                                 states[i + 1])
  }

  /** The bytes the first `k` calls had accepted. */
  function Accepted(calls: seq<Call>, k: nat): seq<byte>
    requires k <= |calls|
  {
    if k == 0 then []
    else
      var last := calls[k - 1];
      Accepted(calls, k - 1) + if last.n <= |last.payload| then last.payload[..last.n] else []
  }

  /** The counts are those of the file, and the file is the end of everything ever accepted. */
  ghost predicate IsWindowOf(all: seq<byte>, w: Window) { Exact(w) && EndsWith(all, w.contents) }

  lemma StepKeepsWindow(maxLines: int, first: seq<byte>, accepted: seq<byte>, w: Window, payload: seq<byte>, n: nat,
                        after: Window)
    requires IsWindowOf(first + accepted, w) && Proper(maxLines, w, payload, n, after)
    ensures IsWindowOf(first + (accepted + payload[..n]), after)
  {
    var all := first + accepted;
    EndsWithBoth(all, w.contents, payload[..n]);
    EndsWithTrans(all + payload[..n], w.contents + payload[..n], after.contents);
    assert first + (accepted + payload[..n]) == all + payload[..n];
  }

  lemma CallIsProper(maxLines: int, trimReserve: nat, states: seq<Window>, calls: seq<Call>, i: nat)
    requires Run(maxLines, trimReserve, states, calls) && i < |calls|
    requires Exact(states[i]) && !calls[i].fault.RewriteFails?
    ensures Proper(maxLines, states[i], calls[i].payload, calls[i].n, states[i + 1])
    ensures Accepted(calls, i + 1) == Accepted(calls, i) + calls[i].payload[..calls[i].n]
  {
    WriteIsProper(maxLines, trimReserve, states[i], calls[i].payload, calls[i].fault, calls[i].n, states[i + 1]);
  }

  /** Over every run in which no rewrite fails half-way, the file is the end of everything accepted. */
  lemma {:induction false} RunKeepsWindow(maxLines: int, trimReserve: nat, states: seq<Window>, calls: seq<Call>,
                                          k: nat)
    requires Run(maxLines, trimReserve, states, calls) && Exact(states[0]) && k <= |calls|
    requires forall i :: 0 <= i < k ==> !calls[i].fault.RewriteFails?
    ensures IsWindowOf(states[0].contents + Accepted(calls, k), states[k])
  {
    if k == 0 {
      assert states[0].contents + [] == states[0].contents;
    } else {
      RunKeepsWindow(maxLines, trimReserve, states, calls, k - 1);
      CallIsProper(maxLines, trimReserve, states, calls, k - 1);
      StepKeepsWindow(maxLines, states[0].contents, Accepted(calls, k - 1), states[k - 1], calls[k - 1].payload,
                      calls[k - 1].n, states[k]);
    }
  }

  /** What the last call had accepted is whole at its end. */
  lemma LastPayloadIsWhole(maxLines: int, trimReserve: nat, states: seq<Window>, calls: seq<Call>, k: nat)
    requires Run(maxLines, trimReserve, states, calls) && Exact(states[0]) && 0 < k <= |calls|
    requires forall i :: 0 <= i < k ==> !calls[i].fault.RewriteFails?
    ensures calls[k - 1].n <= |calls[k - 1].payload|
    ensures EndsWith(states[k].contents, calls[k - 1].payload[..calls[k - 1].n])
  {
    RunKeepsWindow(maxLines, trimReserve, states, calls, k - 1);
    CallIsProper(maxLines, trimReserve, states, calls, k - 1);
  }

  /** Over such a run the file stays within a limit that every payload respects. */
  lemma {:induction false} RunStaysWithinLimit(maxLines: int, trimReserve: nat, states: seq<Window>, calls: seq<Call>,
                                               k: nat)
    requires Run(maxLines, trimReserve, states, calls) && Exact(states[0]) && k <= |calls|
    requires forall i :: 0 <= i < k ==> !calls[i].fault.RewriteFails? && Lines(calls[i].payload) <= maxLines
    requires maxLines > 0 && Lines(states[0].contents) <= maxLines
    ensures Lines(states[k].contents) <= maxLines
  {
    if k > 0 {
      RunStaysWithinLimit(maxLines, trimReserve, states, calls, k - 1);
      RunKeepsWindow(maxLines, trimReserve, states, calls, k - 1);
      CallIsProper(maxLines, trimReserve, states, calls, k - 1);
    }
  }

  /** Everything is still there, or at least the lines the limit leaves when the reserve is free. */
  predicate Retains(maxLines: int, trimReserve: nat, all: seq<byte>, contents: seq<byte>) {
    Lines(all) <= Lines(contents) || (maxLines > 0 && maxLines - trimReserve <= Lines(contents))
  }

  /** The file is shortened for a payload that then is not written whole. */
  predicate Cut(maxLines: int, w: Window, call: Call) {
    && w.attached && Added(w.openLine, call.payload) > 0
    && MustTrim(maxLines, w.lineCount, Added(w.openLine, call.payload))
    && !call.fault.CloseFails? && !call.fault.ReadFails?
    && !(call.fault.NoFault? && call.n == |call.payload|)
  }

  lemma AppendRetains(maxLines: int, trimReserve: nat, all: seq<byte>, contents: seq<byte>, more: seq<byte>)
    requires EndsWith(all, contents) && Retains(maxLines, trimReserve, all, contents)
    ensures Retains(maxLines, trimReserve, all + more, contents + more)
  {
    LinesAdd(all, more);
    LinesAdd(contents, more);
    NoLinesIsEmpty(contents);
    NoLinesIsEmpty(all);
    if contents != [] { assert all[|all| - 1] == contents[|contents| - 1]; }
  }

  /** Shortening for a payload and writing it whole fills the file up to the limit but the reserve, exactly so
      if the payload leaves room for any old line. */
  lemma TrimFillsUp(s: seq<byte>, kept: seq<byte>, payload: seq<byte>, maxLines: int, trimReserve: nat)
    requires maxLines > 0 && Added(Open(s), payload) > 0 && MustTrim(maxLines, Lines(s), Added(Open(s), payload))
    requires Keeps(s, Target(maxLines, trimReserve, Added(Open(s), payload)), kept)
    ensures maxLines - trimReserve <= Lines(kept + payload)
    ensures maxLines - trimReserve > Added(Open(s), payload) ==> Lines(kept + payload) == maxLines - trimReserve
  {
    LinesAdd(kept, payload);
    NoLinesIsEmpty(kept);
    NoLinesIsEmpty(s);
  }

  lemma CallRetains(maxLines: int, trimReserve: nat, all: seq<byte>, w: Window, call: Call, after: Window)
    requires Exact(w) && EndsWith(all, w.contents) && Retains(maxLines, trimReserve, all, w.contents)
    requires WriteStep(maxLines, trimReserve, w, call.payload, call.fault, call.n, after) && !Cut(maxLines, w, call)
    ensures call.n <= |call.payload| && Retains(maxLines, trimReserve, all + call.payload[..call.n], after.contents)
  {
    var payload, newLines := call.payload, Added(w.openLine, call.payload);
    if !w.attached {
      assert all + payload[..0] == all;
    } else if newLines > 0 && MustTrim(maxLines, w.lineCount, newLines) {
      var trimmed, ok :| TrimStep(w, Target(maxLines, trimReserve, newLines), call.fault, trimmed, ok)
                         && if ok then AppendStep(trimmed, payload, call.n, after) else after == trimmed && call.n == 0;
      if ok {
        assert payload[..call.n] == payload;
        TrimFillsUp(w.contents, trimmed.contents, payload, maxLines, trimReserve);
      } else {
        assert all + payload[..0] == all;
      }
    } else {
      AppendRetains(maxLines, trimReserve, all, w.contents, payload[..call.n]);
    }
  }

  /** Over every run in which the file is only shortened for payloads that are then written whole, it holds
      everything accepted, or at least as many of the last lines as the limit and the reserve leave. */
  lemma {:induction false} RunRetains(maxLines: int, trimReserve: nat, states: seq<Window>, calls: seq<Call>, k: nat)
    requires Run(maxLines, trimReserve, states, calls) && Exact(states[0]) && k <= |calls|
    requires forall i :: 0 <= i < k ==> !Cut(maxLines, states[i], calls[i]) && !calls[i].fault.RewriteFails?
    ensures Retains(maxLines, trimReserve, states[0].contents + Accepted(calls, k), states[k].contents)
  {
    if k == 0 {
      assert states[0].contents + [] == states[0].contents;
    } else {
      RunRetains(maxLines, trimReserve, states, calls, k - 1);
      RunKeepsWindow(maxLines, trimReserve, states, calls, k - 1);
      CallIsProper(maxLines, trimReserve, states, calls, k - 1);
      OneCallRetains(maxLines, trimReserve, states[0].contents, Accepted(calls, k - 1), states[k - 1], calls[k - 1],
                     states[k]);
    }
  }

  lemma OneCallRetains(maxLines: int, trimReserve: nat, first: seq<byte>, accepted: seq<byte>, w: Window, call: Call,
                       after: Window)
    requires IsWindowOf(first + accepted, w) && Retains(maxLines, trimReserve, first + accepted, w.contents)
    requires WriteStep(maxLines, trimReserve, w, call.payload, call.fault, call.n, after) && !Cut(maxLines, w, call)
    ensures call.n <= |call.payload|
    ensures Retains(maxLines, trimReserve, first + (accepted + call.payload[..call.n]), after.contents)
  {
    CallRetains(maxLines, trimReserve, first + accepted, w, call, after);
    assert first + (accepted + call.payload[..call.n]) == first + accepted + call.payload[..call.n];
  }

  /** A rewrite that fails half-way leaves the counts right exactly when there was nothing to rewrite, or
      the file could not be opened again and nothing is written any more. */
  lemma FailedRewriteKeepsCountIff(maxLines: int, trimReserve: nat, w: Window, payload: seq<byte>, left: nat,
                                   reopens: bool, n: nat, after: Window)
    requires Exact(w) && w.attached
    requires WriteStep(maxLines, trimReserve, w, payload, RewriteFails(left, reopens), n, after)
    requires Added(w.openLine, payload) > 0 && MustTrim(maxLines, w.lineCount, Added(w.openLine, payload))
    ensures Exact(after) <==> w.contents == [] || !reopens
  {
    var target := Target(maxLines, trimReserve, Added(w.openLine, payload));
    var trimmed, ok :| TrimStep(w, target, RewriteFails(left, reopens), trimmed, ok)
                       && if ok then AppendStep(trimmed, payload, n, after) else after == trimmed && n == 0;
    var kept :| Keeps(w.contents, target, kept) && left <= |kept|
                && trimmed == w.(contents := kept[..left], attached := reopens);
    KeptEndsAndIsShort(w.contents, target, kept);
    LinesOfPrefix(kept, left);
    NoLinesIsEmpty(w.contents);
    NoLinesIsEmpty(kept);
  }
}
