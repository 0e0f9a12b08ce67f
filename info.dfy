/**
 `info`: the enumeration of chips and lines. The method `Info` follows the
 source loop for loop; everything it does to the outside world is recorded,
 in order, as one trace of events: each attempt to open a chip, the header
 printed for an opened chip, each line query, each detail line printed, each
 error handed to the diagnostic sink and each close. `RunEvents` is the
 trace the loop is proved to produce, and the lemmas below state the
 ordering, isolation and exit-status rules about it.
 */
module Info {
  import opened Gpiod
  import opened Text
  import opened Format

  datatype Event =
    | Open(id: string)                   // gpiod.NewChip(id) is called
    | Header(name: string, lines: nat)   // the chip header is printed
    | Query(offset: nat)                 // Chip.LineInfo(offset) is called
    | Print(info: LineInfo)              // printLineInfo(info) prints LineText(info)
    | Report(error: Error)               // logErr is called
    | Close(id: string)                  // the chip opened from id is closed

  /** The header line `"%s - %d lines:\n"`. */
  function HeaderText(name: string, lines: nat): string {
    name + " - " + IntText(lines) + " lines:\n"
  }

  /** The header is the chip name, " - ", the line count in decimal and
      " lines:" with a line break; the count reads back as a number. */
  lemma HeaderTextFields(name: string, lines: nat)
    ensures var h := HeaderText(name, lines);
      && |h| == |name| + |IntText(lines)| + 11
      && h[..|name|] == name
      && h[|name|..|name| + 3] == " - "
      && ParseInt(h[|name| + 3..|h| - 8]) == Some(lines as int)
      && h[|h| - 8..] == " lines:\n"
  {
    var d := IntText(lines);
    var h := HeaderText(name, lines);
    var tail := d + " lines:\n";
    assert h == name + (" - " + tail);
    assert h[|name|..] == " - " + tail;
    assert h[|name| + 3..] == tail;
    assert h[|name| + 3..|h| - 8] == tail[..|d|] == d;
    assert h[|h| - 8..] == tail[|d|..];
    IntTextRoundTrip(lines);
  }

  /** The chips to visit: the arguments, or all chips present when there are none. */
  function Targets(args: seq<string>, host: Host): seq<string> {
    if |args| == 0 then host.chips else args
  }

  /** The identifiers attempted are the arguments, in order, or, when there
      are none, the discovered chips in discovery order. */
  lemma TargetsAttempted(args: seq<string>, host: Host)
    ensures |args| > 0 ==> Project(RunEvents(host, Targets(args, host)), OpenOf) == args
    ensures |args| == 0 ==> Project(RunEvents(host, Targets(args, host)), OpenOf) == host.chips
  {
    AttemptsInOrder(host, Targets(args, host));
  }

  // ---------------------------------------------------------------------
  // The trace the enumeration produces

  /** What follows the query of one line: its record is printed, or its error reported. */
  function Outcome(c: Chip, o: nat): (e: Event)
    ensures e.Print? || e.Report?
    ensures e.Report? <==> c.lineInfo(o).Err?
  {
    match c.lineInfo(o)
    case Ok(li) => Print(li)
    case Err(e) => Report(e)
  }

  /** The events for offsets 0 .. n-1 of an open chip. */
  function LinesEvents(c: Chip, n: nat): seq<Event> {
    if n == 0 then [] else LinesEvents(c, n - 1) + [Query(n - 1), Outcome(c, n - 1)]
  }

  lemma LinesEventsStep(c: Chip, n: nat)
    ensures LinesEvents(c, n + 1) == LinesEvents(c, n) + [Query(n), Outcome(c, n)]
    ensures LinesOut(c, n + 1) == LinesOut(c, n) + LineOut(c, n)
  {
  }

  /** What one line adds to standard output: its detail line, or nothing when
      its query failed. */
  function LineOut(c: Chip, o: nat): seq<string> {
    match c.lineInfo(o)
    case Ok(li) => [LineText(li)]
    case Err(_) => []
  }

  function LinesOut(c: Chip, n: nat): seq<string> {
    if n == 0 then [] else LinesOut(c, n - 1) + LineOut(c, n - 1)
  }

  /** The events for one chip identifier. */
  function ChipEvents(host: Host, id: string): seq<Event> {
    match host.open(id)
    case Err(e) => [Open(id), Report(e)]
    case Ok(c) => [Open(id), Header(c.name, c.lines)] + LinesEvents(c, c.lines) + [Close(id)]
  }

  /** The events for a list of chip identifiers, visited in order. */
  function RunEvents(host: Host, ids: seq<string>): seq<Event> {
    if ids == [] then [] else RunEvents(host, ids[..|ids| - 1]) + ChipEvents(host, ids[|ids| - 1])
  }

  /** What one chip identifier adds to standard output. */
  function ChipOut(host: Host, id: string): seq<string> {
    match host.open(id)
    case Err(_) => []
    case Ok(c) => [HeaderText(c.name, c.lines)] + LinesOut(c, c.lines)
  }

  function RunOut(host: Host, ids: seq<string>): seq<string> {
    if ids == [] then [] else RunOut(host, ids[..|ids| - 1]) + ChipOut(host, ids[|ids| - 1])
  }

  lemma RunEventsSnoc(host: Host, ids: seq<string>, id: string)
    ensures RunEvents(host, ids + [id]) == RunEvents(host, ids) + ChipEvents(host, id)
  {
    assert (ids + [id])[..|ids|] == ids;
  }

  lemma RunEventsNext(host: Host, ids: seq<string>, i: nat)
    requires i < |ids|
    ensures RunEvents(host, ids[..i + 1]) == RunEvents(host, ids[..i]) + ChipEvents(host, ids[i])
  {
    assert ids[..i + 1] == ids[..i] + [ids[i]];
    RunEventsSnoc(host, ids[..i], ids[i]);
  }

  lemma RunOutSnoc(host: Host, ids: seq<string>, id: string)
    ensures RunOut(host, ids + [id]) == RunOut(host, ids) + ChipOut(host, id)
  {
    assert (ids + [id])[..|ids|] == ids;
  }

  // ---------------------------------------------------------------------
  // Failures and the exit status

  predicate QueryFails(c: Chip, o: nat) {
    c.lineInfo(o).Err?
  }

  /** Some query among offsets 0 .. n-1 fails. */
  predicate SomeQueryFails(c: Chip, n: nat) {
    exists o: nat :: o < n && QueryFails(c, o)
  }

  /** The chip cannot be opened, or one of its lines cannot be queried. */
  predicate ChipFails(host: Host, id: string) {
    match host.open(id)
    case Err(_) => true
    case Ok(c) => SomeQueryFails(c, c.lines)
  }

  predicate AnyFailure(host: Host, ids: seq<string>) {
    exists k :: 0 <= k < |ids| && ChipFails(host, ids[k])
  }

  /** The exit status the source passes to `os.Exit`. */
  function Status(host: Host, ids: seq<string>): int {
    if AnyFailure(host, ids) then 1 else 0
  }

  lemma SomeQueryFailsStep(c: Chip, n: nat)
    ensures SomeQueryFails(c, n + 1) <==> SomeQueryFails(c, n) || QueryFails(c, n)
  {
    if SomeQueryFails(c, n + 1) && !QueryFails(c, n) {
      var o: nat :| o < n + 1 && QueryFails(c, o);
      assert o < n;
    }
  }

  lemma AnyFailureSnoc(host: Host, ids: seq<string>, id: string)
    ensures AnyFailure(host, ids + [id]) <==> AnyFailure(host, ids) || ChipFails(host, id)
  {
    var all := ids + [id];
    if AnyFailure(host, ids) {
      var k :| 0 <= k < |ids| && ChipFails(host, ids[k]);
      assert all[k] == ids[k];
    }
    if ChipFails(host, id) {
      assert all[|ids|] == id;
    }
    if AnyFailure(host, all) {
      var k :| 0 <= k < |all| && ChipFails(host, all[k]);
      if k < |ids| { assert all[k] == ids[k]; }
    }
  }

  // ---------------------------------------------------------------------
  // The enumeration loop

  /** One pass of the loop over chip identifiers: open the chip, or report
      the failure and mark the run failed; print the header, visit its lines,
      then close the chip. `out` holds the lines written to standard output,
      one per `fmt.Printf`. */
  method VisitChip(host: Host, path: string, rc0: int) returns (events: seq<Event>, out: seq<string>, rc: int)
    ensures events == ChipEvents(host, path)
    ensures out == Project(events, StdoutOf)
    ensures rc == if Project(events, ReportOf) != [] then 1 else rc0
  {
    var r := host.open(path);
    if r.Err? {
      events := [Open(path), Report(r.error)];
      out := [];
      rc := 1;
      StdoutOfChip(host, path);
      ChipReports(host, path);
      return;
    }
    var c := r.value;
    var lines, printed;
    lines, printed, rc := VisitLines(c, rc0);
    events := [Open(path), Header(c.name, c.lines)] + lines + [Close(path)];
    out := [HeaderText(c.name, c.lines)] + printed;
    StdoutOfChip(host, path);
    ChipReports(host, path);
  }

  /** The loop over the lines of an open chip: every offset from 0 up to the
      line count, in ascending order; a failed query marks the run failed. */
  method VisitLines(c: Chip, rc0: int) returns (events: seq<Event>, out: seq<string>, rc: int)
    ensures events == LinesEvents(c, c.lines)
    ensures out == LinesOut(c, c.lines)
    ensures rc == if SomeQueryFails(c, c.lines) then 1 else rc0
  {
    events, out, rc := [], [], rc0;
    var o: nat := 0;
    while o < c.lines
      invariant o <= c.lines
      invariant events == LinesEvents(c, o)
      invariant out == LinesOut(c, o)
      invariant rc == if SomeQueryFails(c, o) then 1 else rc0
    {
      SomeQueryFailsStep(c, o);
      var e, line := VisitLine(c, o);
      if e.Report? {
        rc := 1;
      }
      events := events + [Query(o), e];
      out := out + line;
      o := o + 1;
    }
  }

  /** The body of the inner loop for one offset: query the line, then print
      its record or report the query's error. */
  method VisitLine(c: Chip, o: nat) returns (e: Event, line: seq<string>)
    ensures e == Outcome(c, o)
    ensures line == LineOut(c, o)
  {
    var q := c.lineInfo(o);
    if q.Err? {
      e := Report(q.error);
      line := [];
    } else {
      var text := PrintLineInfo(q.value);
      e := Print(q.value);
      line := [text];
    }
  }

  /** The `info` command: visit every target in order and return the exit status. */
  method Info(args: seq<string>, host: Host) returns (trace: seq<Event>, out: seq<string>, rc: int)
    ensures trace == RunEvents(host, Targets(args, host))
    ensures out == Project(trace, StdoutOf)
    ensures rc == Status(host, Targets(args, host))
  {
    var cc := args;
    if |cc| == 0 {
      cc := host.chips;
    }
    trace, out, rc := VisitChips(host, cc);
    ReportsIffFailure(host, cc);
  }

  /** The loop over chip identifiers: visit each one in order, whatever fails. */
  method VisitChips(host: Host, cc: seq<string>) returns (trace: seq<Event>, out: seq<string>, rc: int)
    ensures trace == RunEvents(host, cc)
    ensures out == Project(trace, StdoutOf)
    ensures rc == if Project(trace, ReportOf) != [] then 1 else 0
  {
    rc := 0;
    trace, out := [], [];
    var i := 0;
    while i < |cc|
      invariant 0 <= i <= |cc|
      invariant trace == RunEvents(host, cc[..i])
      invariant out == Project(trace, StdoutOf)
      invariant rc == if Project(trace, ReportOf) != [] then 1 else 0
    {
      var path := cc[i];
      RunEventsNext(host, cc, i);
      var events, printed;
      events, printed, rc := VisitChip(host, path, rc);
      ProjectAppend(trace, events, StdoutOf);
      ProjectAppend(trace, events, ReportOf);
      trace := trace + events;
      out := out + printed;
      i := i + 1;
    }
    assert cc[..i] == cc;
  }

  // ---------------------------------------------------------------------
  // Views of a trace

  /** The elements `f` selects from a trace, in trace order. */
  function Project<T>(t: seq<Event>, f: Event -> Option<T>): seq<T> {
    if t == [] then []
    else Project(t[..|t| - 1], f) + match f(t[|t| - 1]) { case Some(x) => [x] case None => [] }
  }

  function OpenOf(e: Event): Option<string> {
    if e.Open? then Some(e.id) else None
  }

  function HeaderOf(e: Event): Option<(string, nat)> {
    if e.Header? then Some((e.name, e.lines)) else None
  }

  function QueryOf(e: Event): Option<nat> {
    if e.Query? then Some(e.offset) else None
  }

  function ReportOf(e: Event): Option<Error> {
    if e.Report? then Some(e.error) else None
  }

  function CloseOf(e: Event): Option<string> {
    if e.Close? then Some(e.id) else None
  }

  /** What an event writes to standard output: the header line or the detail line. */
  function StdoutOf(e: Event): Option<string> {
    match e
    case Header(name, lines) => Some(HeaderText(name, lines))
    case Print(li) => Some(LineText(li))
    case _ => None
  }

  /** The offsets 0 .. n-1 in ascending order. */
  function Offsets(n: nat): (r: seq<nat>)
    ensures |r| == n && forall i :: 0 <= i < n ==> r[i] == i
  {
    if n == 0 then [] else Offsets(n - 1) + [n - 1]
  }

  /** The identifiers whose chips open, in order. */
  function OpenedIds(host: Host, ids: seq<string>): seq<string> {
    if ids == [] then []
    else OpenedIds(host, ids[..|ids| - 1]) + if host.open(ids[|ids| - 1]).Ok? then [ids[|ids| - 1]] else []
  }

  lemma {:induction false} ProjectAppend<T>(a: seq<Event>, b: seq<Event>, f: Event -> Option<T>)
    ensures Project(a + b, f) == Project(a, f) + Project(b, f)
    decreases |b|
  {
    if b == [] {
      assert a + b == a;
    } else {
      var b' := b[..|b| - 1];
      assert (a + b)[..|a + b| - 1] == a + b';
      assert (a + b)[|a + b| - 1] == b[|b| - 1];
      ProjectAppend(a, b', f);
    }
  }

  lemma ProjectOne<T>(x: Event, f: Event -> Option<T>)
    ensures Project([x], f) == if f(x).Some? then [f(x).value] else []
  {
    assert [x][..0] == [];
  }

  lemma ProjectPair<T>(x: Event, y: Event, f: Event -> Option<T>)
    ensures Project([x, y], f) == Project([x], f) + Project([y], f)
  {
    ProjectAppend([x], [y], f);
    assert [x] + [y] == [x, y];
  }

  // ---------------------------------------------------------------------
  // Lines of one chip

  /** Every offset below the line count is queried, in ascending order, and
      each query is followed at once by exactly its own outcome: the report
      line, or the error report when that query failed. */
  lemma {:induction false} LinesEventsShape(c: Chip, n: nat)
    ensures |LinesEvents(c, n)| == 2 * n
    ensures forall o :: 0 <= o < n ==> LinesEvents(c, n)[2 * o] == Query(o)
    ensures forall o :: 0 <= o < n ==> LinesEvents(c, n)[2 * o + 1] == Outcome(c, o)
  {
    if n > 0 {
      LinesEventsShape(c, n - 1);
      var prev := LinesEvents(c, n - 1);
      assert LinesEvents(c, n) == prev + [Query(n - 1), Outcome(c, n - 1)];
      forall o | 0 <= o < n
        ensures LinesEvents(c, n)[2 * o] == Query(o) && LinesEvents(c, n)[2 * o + 1] == Outcome(c, o)
      {
        if o < n - 1 {
          assert LinesEvents(c, n)[2 * o] == prev[2 * o];
          assert LinesEvents(c, n)[2 * o + 1] == prev[2 * o + 1];
        }
      }
    }
  }

  /** The queries of a chip's lines are exactly the offsets 0 .. n-1, in order. */
  lemma {:induction false} LinesQueries(c: Chip, n: nat)
    ensures Project(LinesEvents(c, n), QueryOf) == Offsets(n)
    ensures Project(LinesEvents(c, n), OpenOf) == []
    ensures Project(LinesEvents(c, n), HeaderOf) == []
    ensures Project(LinesEvents(c, n), CloseOf) == []
  {
    if n > 0 {
      LinesQueries(c, n - 1);
      var step := [Query(n - 1), Outcome(c, n - 1)];
      ProjectAppend(LinesEvents(c, n - 1), step, QueryOf);
      ProjectAppend(LinesEvents(c, n - 1), step, OpenOf);
      ProjectAppend(LinesEvents(c, n - 1), step, HeaderOf);
      ProjectAppend(LinesEvents(c, n - 1), step, CloseOf);
      ProjectPair(Query(n - 1), Outcome(c, n - 1), QueryOf);
      ProjectPair(Query(n - 1), Outcome(c, n - 1), OpenOf);
      ProjectPair(Query(n - 1), Outcome(c, n - 1), HeaderOf);
      ProjectPair(Query(n - 1), Outcome(c, n - 1), CloseOf);
    }
  }

  /** A chip's lines produce an error report exactly when one of their queries fails. */
  lemma {:induction false} LinesReports(c: Chip, n: nat)
    ensures Project(LinesEvents(c, n), ReportOf) != [] <==> SomeQueryFails(c, n)
  {
    if n > 0 {
      LinesReports(c, n - 1);
      SomeQueryFailsStep(c, n - 1);
      ProjectAppend(LinesEvents(c, n - 1), [Query(n - 1), Outcome(c, n - 1)], ReportOf);
      ProjectPair(Query(n - 1), Outcome(c, n - 1), ReportOf);
    } else {
      assert !SomeQueryFails(c, 0);
    }
  }

  // ---------------------------------------------------------------------
  // One chip

  /** A chip that cannot be opened yields its attempt and one error report, and
      nothing else: no header, no query, no close. An opened chip yields the
      attempt, then exactly one header, then its line events, then exactly
      one close, of the identifier it was opened from, as the last event. */
  lemma ChipBracket(host: Host, id: string)
    ensures host.open(id).Err? ==> ChipEvents(host, id) == [Open(id), Report(host.open(id).error)]
    ensures host.open(id).Ok? ==>
      var c := host.open(id).value;
      var t := ChipEvents(host, id);
      && t[0] == Open(id) && t[1] == Header(c.name, c.lines) && t[|t| - 1] == Close(id)
      && Project(t, OpenOf) == [id]
      && Project(t, HeaderOf) == [(c.name, c.lines)]
      && Project(t, CloseOf) == [id]
      && Project(t, QueryOf) == Offsets(c.lines)
  {
    if host.open(id).Ok? {
      var c := host.open(id).value;
      var lines := LinesEvents(c, c.lines);
      LinesQueries(c, c.lines);
      var head: seq<Event> := [Open(id), Header(c.name, c.lines)];
      ProjectAppend(head, lines, OpenOf);
      ProjectAppend(head + lines, [Close(id)], OpenOf);
      ProjectAppend(head, lines, HeaderOf);
      ProjectAppend(head + lines, [Close(id)], HeaderOf);
      ProjectAppend(head, lines, CloseOf);
      ProjectAppend(head + lines, [Close(id)], CloseOf);
      ProjectAppend(head, lines, QueryOf);
      ProjectAppend(head + lines, [Close(id)], QueryOf);
      ProjectPair(Open(id), Header(c.name, c.lines), OpenOf);
      ProjectPair(Open(id), Header(c.name, c.lines), HeaderOf);
      ProjectPair(Open(id), Header(c.name, c.lines), CloseOf);
      ProjectPair(Open(id), Header(c.name, c.lines), QueryOf);
    }
  }

  lemma ChipReports(host: Host, id: string)
    ensures Project(ChipEvents(host, id), ReportOf) != [] <==> ChipFails(host, id)
  {
    var t := ChipEvents(host, id);
    match host.open(id)
    case Err(e) =>
      ProjectPair(Open(id), Report(e), ReportOf);
    case Ok(c) =>
      var lines := LinesEvents(c, c.lines);
      var head: seq<Event> := [Open(id), Header(c.name, c.lines)];
      LinesReports(c, c.lines);
      ProjectAppend(head, lines, ReportOf);
      ProjectAppend(head + lines, [Close(id)], ReportOf);
      ProjectPair(Open(id), Header(c.name, c.lines), ReportOf);
  }

  // ---------------------------------------------------------------------
  // The whole run

  /** Chips do not influence one another: the run over `a + b` is the run
      over `a` followed by the run over `b`. */
  lemma {:induction false} RunEventsAppend(host: Host, a: seq<string>, b: seq<string>)
    ensures RunEvents(host, a + b) == RunEvents(host, a) + RunEvents(host, b)
    decreases |b|
  {
    if b == [] {
      assert a + b == a;
    } else {
      var b', x := b[..|b| - 1], b[|b| - 1];
      assert a + b == (a + b') + [x];
      assert b == b' + [x];
      calc {
        RunEvents(host, a + b);
        { RunEventsSnoc(host, a + b', x); }
        RunEvents(host, a + b') + ChipEvents(host, x);
        { RunEventsAppend(host, a, b'); }
        RunEvents(host, a) + RunEvents(host, b') + ChipEvents(host, x);
        { RunEventsSnoc(host, b', x); }
        RunEvents(host, a) + RunEvents(host, b);
      }
    }
  }

  /** The same for standard output. */
  lemma RunOutAppend(host: Host, a: seq<string>, b: seq<string>)
    ensures RunOut(host, a + b) == RunOut(host, a) + RunOut(host, b)
  {
    RunEventsAppend(host, a, b);
    ProjectAppend(RunEvents(host, a), RunEvents(host, b), StdoutOf);
    StdoutOfRun(host, a + b);
    StdoutOfRun(host, a);
    StdoutOfRun(host, b);
  }

  /** Every identifier is attempted, once, in the given order, whatever fails. */
  lemma {:induction false} AttemptsInOrder(host: Host, ids: seq<string>)
    ensures Project(RunEvents(host, ids), OpenOf) == ids
  {
    if ids != [] {
      var init, id := ids[..|ids| - 1], ids[|ids| - 1];
      assert ids == init + [id];
      calc {
        Project(RunEvents(host, init + [id]), OpenOf);
        { RunEventsSnoc(host, init, id); }
        Project(RunEvents(host, init) + ChipEvents(host, id), OpenOf);
        { ProjectAppend(RunEvents(host, init), ChipEvents(host, id), OpenOf); }
        Project(RunEvents(host, init), OpenOf) + Project(ChipEvents(host, id), OpenOf);
        { AttemptsInOrder(host, init); ChipOpens(host, id); }
        init + [id];
      }
    }
  }

  lemma ChipOpens(host: Host, id: string)
    ensures Project(ChipEvents(host, id), OpenOf) == [id]
  {
    ChipBracket(host, id);
    if host.open(id).Err? {
      ProjectPair(Open(id), Report(host.open(id).error), OpenOf);
    }
  }

  lemma OpenedIdsSnoc(host: Host, ids: seq<string>, id: string)
    ensures OpenedIds(host, ids + [id]) == OpenedIds(host, ids) + if host.open(id).Ok? then [id] else []
  {
    assert (ids + [id])[..|ids|] == ids;
  }

  /** Exactly the chips that open are closed, once each, in the order they
      were opened, and each of them has printed one header. */
  lemma {:induction false} ClosesFollowOpens(host: Host, ids: seq<string>)
    ensures Project(RunEvents(host, ids), CloseOf) == OpenedIds(host, ids)
    ensures |Project(RunEvents(host, ids), HeaderOf)| == |OpenedIds(host, ids)|
  {
    if ids != [] {
      var init, id := ids[..|ids| - 1], ids[|ids| - 1];
      assert ids == init + [id];
      RunEventsSnoc(host, init, id);
      OpenedIdsSnoc(host, init, id);
      ClosesFollowOpens(host, init);
      ChipCloses(host, id);
      ProjectAppend(RunEvents(host, init), ChipEvents(host, id), CloseOf);
      ProjectAppend(RunEvents(host, init), ChipEvents(host, id), HeaderOf);
    }
  }

  lemma ChipCloses(host: Host, id: string)
    ensures Project(ChipEvents(host, id), CloseOf) == if host.open(id).Ok? then [id] else []
    ensures |Project(ChipEvents(host, id), HeaderOf)| == if host.open(id).Ok? then 1 else 0
  {
    ChipBracket(host, id);
    if host.open(id).Err? {
      ProjectPair(Open(id), Report(host.open(id).error), CloseOf);
      ProjectPair(Open(id), Report(host.open(id).error), HeaderOf);
    }
  }

  /** Some error is reported exactly when some open or some query failed: the
      reason the exit status is 1. */
  lemma {:induction false} ReportsIffFailure(host: Host, ids: seq<string>)
    ensures Project(RunEvents(host, ids), ReportOf) != [] <==> AnyFailure(host, ids)
  {
    if ids == [] {
      assert !AnyFailure(host, ids);
    } else {
      var init, id := ids[..|ids| - 1], ids[|ids| - 1];
      assert ids == init + [id];
      RunEventsSnoc(host, init, id);
      AnyFailureSnoc(host, init, id);
      ReportsIffFailure(host, init);
      ChipReports(host, id);
      ProjectAppend(RunEvents(host, init), ChipEvents(host, id), ReportOf);
    }
  }

  /** Standard output is exactly what the header and detail events of the
      trace write, in trace order. */
  lemma {:induction false} StdoutOfRun(host: Host, ids: seq<string>)
    ensures Project(RunEvents(host, ids), StdoutOf) == RunOut(host, ids)
  {
    if ids != [] {
      var init, id := ids[..|ids| - 1], ids[|ids| - 1];
      assert ids == init + [id];
      RunEventsSnoc(host, init, id);
      RunOutSnoc(host, init, id);
      StdoutOfRun(host, init);
      StdoutOfChip(host, id);
      ProjectAppend(RunEvents(host, init), ChipEvents(host, id), StdoutOf);
    }
  }

  lemma StdoutOfChip(host: Host, id: string)
    ensures Project(ChipEvents(host, id), StdoutOf) == ChipOut(host, id)
  {
    match host.open(id)
    case Err(e) =>
      ProjectPair(Open(id), Report(e), StdoutOf);
      ProjectOne(Open(id), StdoutOf);
      ProjectOne(Report(e), StdoutOf);
    case Ok(c) =>
      StdoutOfOpened(c, id);
  }

  lemma StdoutOfOpened(c: Chip, id: string)
    ensures Project([Open(id), Header(c.name, c.lines)] + LinesEvents(c, c.lines) + [Close(id)], StdoutOf)
         == [HeaderText(c.name, c.lines)] + LinesOut(c, c.lines)
  {
    var head: seq<Event> := [Open(id), Header(c.name, c.lines)];
    var lines := LinesEvents(c, c.lines);
    StdoutOfLines(c, c.lines);
    ProjectAppend(head, lines, StdoutOf);
    ProjectAppend(head + lines, [Close(id)], StdoutOf);
    ProjectPair(Open(id), Header(c.name, c.lines), StdoutOf);
    ProjectOne(Open(id), StdoutOf);
    ProjectOne(Header(c.name, c.lines), StdoutOf);
    ProjectOne(Close(id), StdoutOf);
  }

  lemma {:induction false} StdoutOfLines(c: Chip, n: nat)
    ensures Project(LinesEvents(c, n), StdoutOf) == LinesOut(c, n)
  {
    if n > 0 {
      var m := n - 1;
      StdoutOfLines(c, m);
      StdoutOfLinesNext(c, m);
    }
  }

  lemma StdoutOfLinesNext(c: Chip, m: nat)
    requires Project(LinesEvents(c, m), StdoutOf) == LinesOut(c, m)
    ensures Project(LinesEvents(c, m + 1), StdoutOf) == LinesOut(c, m + 1)
  {
    LinesEventsStep(c, m);
    StdoutOfLinesStep(LinesEvents(c, m), c, m);
  }

  lemma StdoutOfLinesStep(t: seq<Event>, c: Chip, o: nat)
    requires Project(t, StdoutOf) == LinesOut(c, o)
    ensures Project(t + [Query(o), Outcome(c, o)], StdoutOf) == LinesOut(c, o + 1)
  {
    ProjectAppend(t, [Query(o), Outcome(c, o)], StdoutOf);
    ProjectPair(Query(o), Outcome(c, o), StdoutOf);
    ProjectOne(Query(o), StdoutOf);
    StdoutOfOutcome(c, o);
    LinesEventsStep(c, o);
  }

  lemma StdoutOfOutcome(c: Chip, o: nat)
    ensures Project([Outcome(c, o)], StdoutOf) == LineOut(c, o)
  {
    ProjectOne(Outcome(c, o), StdoutOf);
  }

  /** Once the status is 1 it stays 1, whatever chips are visited afterwards. */
  lemma StatusMonotone(host: Host, ids: seq<string>, more: seq<string>)
    ensures Status(host, ids) <= Status(host, ids + more)
    ensures Status(host, ids) == 0 || Status(host, ids) == 1
  {
    if AnyFailure(host, ids) {
      var k :| 0 <= k < |ids| && ChipFails(host, ids[k]);
      assert (ids + more)[k] == ids[k];
    }
  }

  /** No identifiers and no chips present: nothing is printed, status 0. */
  lemma NoChips(host: Host)
    requires host.chips == []
    ensures RunEvents(host, Targets([], host)) == []
    ensures RunOut(host, Targets([], host)) == []
    ensures Status(host, Targets([], host)) == 0
  {
  }

  /** An identifier that cannot be opened leaves its attempt and one error
      report, and the chips after it are still processed in full. */
  lemma BadChipIsolated(host: Host, bad: string, rest: seq<string>)
    requires host.open(bad).Err?
    ensures RunEvents(host, [bad] + rest) == [Open(bad), Report(host.open(bad).error)] + RunEvents(host, rest)
  {
    RunEventsAppend(host, [bad], rest);
    RunEventsOne(host, bad);
  }

  lemma RunEventsOne(host: Host, id: string)
    ensures RunEvents(host, [id]) == ChipEvents(host, id)
  {
    RunEventsSnoc(host, [], id);
    assert [] + [id] == [id];
  }

  /** ... and the exit status is 1 whatever follows it. */
  lemma BadChipFails(host: Host, bad: string, rest: seq<string>)
    requires host.open(bad).Err?
    ensures Status(host, [bad] + rest) == 1
  {
    assert ChipFails(host, ([bad] + rest)[0]);
  }

  /** ... and it prints nothing: standard output is that of the chips after it. */
  lemma BadChipSilent(host: Host, bad: string, rest: seq<string>)
    requires host.open(bad).Err?
    ensures RunOut(host, [bad] + rest) == RunOut(host, rest)
  {
    RunOutAppend(host, [bad], rest);
    RunOutSnoc(host, [], bad);
    assert [] + [bad] == [bad];
  }
}
