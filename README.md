# gpiodctl `info`, modelled in Dafny

This project models the `info` subcommand of `gpiodctl`, the command-line
tool that comes with the Go GPIO library gpiod
(`cmd/gpiodctl/info.go`). The command has two parts:

- `printLineInfo` turns the line-info record of one GPIO line into one
  report line. It applies these rules:
  - an empty name is shown as a placeholder;
  - the consumer gets a default and is quoted when it holds a space;
  - the direction and the polarity each get a label;
  - up to three flags are collected in a fixed order;
  - every field is right-aligned in a fixed-width column.
- `info` enumerates chips and lines. It visits the chips named on the
  command line, or, when none are named, every chip present. For each chip
  it:
  - opens the chip, or reports the error and moves on;
  - prints a header;
  - queries every line offset in ascending order, printing the report line
    or reporting the error, and moving on either way;
  - closes the chip.

  The exit status is 1 when anything failed, and 0 otherwise.

The model is in four modules:

- `Gpiod` (`gpiod.dfy`) holds the library's types that the command
  consumes:
  - the `LineInfo` record and its `LineConfig`;
  - a `Chip`, with its name, its line count and a `lineInfo` oracle;
  - a `Host`, with the discovered chip list and an `open` oracle.
- `Text` (`text.dfy`) holds the text primitives:
  - `%Ns` padding (`PadLeft`), `%d` (`IntText`), `strings.Contains` and
    `strings.Join`;
  - their inverses (`TrimLeft`, `ParseInt`, `Split`), with round-trip
    lemmas.
- `Format` (`format.dfy`) models `printLineInfo`:
  - the pure derivation of the display fields (`Fields`), with the
    fixed-column rendering (`Render`, `LineText`);
  - the source's own imperative formulation (`PrintLineInfo`, which
    overwrites fields of a local copy, and `CollectFlags`, which appends
    flags one test at a time), proved to print exactly `LineText`;
  - a column parser (`Parse`) that reads a report line back, proved to
    invert the renderer whenever every field fits its column.
- `Info` (`info.dfy`) models `info`:
  - the loops are the methods `Info`, `VisitChips`, `VisitChip`,
    `VisitLines` and `VisitLine`;
  - everything the command does to the outside world is recorded as one
    ordered trace of `Event`s (open attempt, header, line query, printed
    line, error report, close);
  - `RunEvents` is the trace the loops are proved to produce, and the
    lemmas state the ordering, isolation and exit-status rules about it.
  - Standard output is the projection `Project(trace, StdoutOf)`. The error
    reports are `Project(trace, ReportOf)` and the closes are
    `Project(trace, CloseOf)`.

## Model

| member | source | states |
|---|---|---|
| Format.PrintLineInfo | cmd/gpiodctl/info.go:59-106 | The source's step-by-step formatter prints exactly `LineText(info)`, the rendering of the derived fields. It overwrites the name and consumer of a local copy, picks the labels, collects the flags, brackets the flags and formats. |
| Format.CollectFlags | cmd/gpiodctl/info.go:81-99 | The six conditional appends produce exactly the flag list `Flags(li)`. |
| Format.NameRule | cmd/gpiodctl/info.go:60-62 | An empty name is shown as "unnamed", any other name is shown unchanged, and the shown name is never empty. |
| Format.ConsumerRules | cmd/gpiodctl/info.go:63-72 | A free line shows "unused". A used line with no consumer shows "kernel". A used consumer holding a space is shown in double quotes, and one without a space unchanged. A shown consumer with a space always starts and ends with a quote. |
| Format.UnusedIgnoresConsumer | cmd/gpiodctl/info.go:70-72 | For a free line, the stored consumer has no effect at all on the printed line. |
| Format.LabelRules | cmd/gpiodctl/info.go:73-80 | The direction is "output" exactly for an output line and "input" otherwise. The polarity is "active-low" exactly when the line is active-low, and "active-high" otherwise. |
| Format.FlagsOrdered | cmd/gpiodctl/info.go:81-99 | Every flag is a known flag, and flag ranks strictly increase: "used" comes first, then the drive flag, then the bias flag. So there is at most one drive flag, at most one bias flag, and at most three flags. |
| Format.FlagsPresence | cmd/gpiodctl/info.go:81-99 | Each of the six flags is present exactly when the record's `used`, drive or bias says so. |
| Format.FlagsHaveNoSpace | cmd/gpiodctl/info.go:81-102 | No flag holds the space that `strings.Join` places between flags. |
| Format.NoFlags | cmd/gpiodctl/info.go:100-103 | The flag column is empty exactly for a free, push-pull line with unset bias. |
| Format.FlagTextRoundTrip | cmd/gpiodctl/info.go:100-103 | A non-empty flag column is bracketed. When no flag holds a space, splitting the column's inside gives the flag list back. |
| Format.LayoutShape | cmd/gpiodctl/info.go:104-105 | `Layout`, the detail-line `Printf` with format `"\tline %3d:%12s%12s%8s%13s%s\n"`, writes a line that starts with a tab and "line ", is at least as wide as the fixed columns plus its flag text and a line break, and ends with that flag text and a line break, whatever the fields hold. |
| Format.RenderShape | cmd/gpiodctl/info.go:104-105 | Every report line starts with a tab and "line ", is at least as long as the fixed columns plus a line break, and ends with the flag column and a line break. |
| Format.RenderColumns | cmd/gpiodctl/info.go:104-105 | When the fields fit, each field's padded form sits in its own column at a fixed position. |
| Format.RenderFieldsBack | cmd/gpiodctl/info.go:104-105 | When the fields fit, trimming each column gives back the offset, name, consumer, direction and polarity that were printed. The flag column is the flag text. |
| Format.RenderRoundTrip | cmd/gpiodctl/info.go:104-105 | When every field fits its column, parsing the printed line gives back exactly the row that was printed. |
| Format.LineTextRoundTrip | cmd/gpiodctl/info.go:59-106 | The condition is an offset from -99 to 999, a name of at most 12 characters that does not begin with a space, and a shown consumer of at most 12 characters. For such a record, parsing its printed line gives back its display fields. |
| Format.FieldsFit | cmd/gpiodctl/info.go:59-105 | The derived fields of such a record fit their columns. |
| Format.LayoutCells | cmd/gpiodctl/info.go:104-105 | The cells of a line built from padded cells of widths 3, 12, 12, 8 and 13 lie at positions 6-9, 10-22, 22-34, 34-42 and 42-55, with the flag column from 55 up to the line break. |
| Format.LayoutOf | cmd/gpiodctl/info.go:104-105 | Each field that fits is preceded by exactly the spaces that fill its column up to the width. |
| Format.ExampleFreeLine | cmd/gpiodctl/info.go:59-106 | A free, unnamed, push-pull input line at offset 0 with default polarity prints as offset "0" after 2 spaces, "unnamed" after 5, "unused" after 6, "input" after 3 and "active-high" after 2. It has no flag column, whatever consumer it stores. |
| Format.ExampleUsedFields | cmd/gpiodctl/info.go:59-99 | A used, active-low, open-drain, pull-up output named "LED", with consumer "my app", shows the consumer quoted and the flags used, open-drain and pull-up. |
| Format.ExampleUsedFlags | cmd/gpiodctl/info.go:100-103 | Those flags print as "[used open-drain pull-up]". |
| Format.ExampleQuotedColumn | cmd/gpiodctl/info.go:63-72 | For that line, the quoted consumer takes 8 of its 12 columns and is preceded by 4 spaces. |
| Text.PadLeft | cmd/gpiodctl/info.go:104-105 | The `%Ns` padding is as long as the width, or as the field when the field is longer. It is the field preceded by spaces, so a field at or over its width is kept unchanged. |
| Text.TrimLeft | cmd/gpiodctl/info.go:104-105 | The inverse of padding: the result does not start with a space and is no longer than its input. |
| Text.TrimLeftSplit | cmd/gpiodctl/info.go:104-105 | Trimming removes only a run of leading spaces. |
| Text.TrimSpaces | cmd/gpiodctl/info.go:104-105 | Any run of spaces before a field that does not begin with a space is removed exactly. |
| Text.TrimPadLeft | cmd/gpiodctl/info.go:104-105 | Trimming a padded field that does not begin with a space gives the field back. |
| Text.NatText | cmd/gpiodctl/info.go:104-105 | The `%d` digits of a natural number: at least one digit, and a single digit exactly below 10. |
| Text.IntText | cmd/gpiodctl/info.go:104-105 | The `%d` text of an integer is never empty and never begins with a space. |
| Text.NatTextRoundTrip | cmd/gpiodctl/info.go:104-105 | Decimal parsing reads back what `%d` writes for a natural number. |
| Text.IntTextRoundTrip | cmd/gpiodctl/info.go:104-105 | Decimal parsing, with an optional minus sign, reads back what `%d` writes for any integer. |
| Text.IntTextWidth | cmd/gpiodctl/info.go:104-105 | Every offset from -99 to 999 fits the three-wide offset column. |
| Text.Join | cmd/gpiodctl/info.go:102 | `strings.Join` of no pieces is the empty string. |
| Text.Split | cmd/gpiodctl/info.go:102 | `strings.Split` always gives at least one piece. |
| Text.SplitJoin | cmd/gpiodctl/info.go:102 | When no piece holds the separator, splitting a non-empty list of joined pieces gives the list back. |
| Info.HeaderTextFields | cmd/gpiodctl/info.go:44 | `HeaderText`, the header `Printf` with format `"%s - %d lines:\n"`, is the chip name, then " - ", then the decimal line count, then " lines:" and a line break. The count in that position reads back as the line count. |
| Info.TargetsAttempted | cmd/gpiodctl/info.go:32-37 | Through `Targets`, the identifiers attempted are the arguments in order when there are any, and otherwise the discovered chips in discovery order. |
| Info.Info | cmd/gpiodctl/info.go:30-57 | The command visits the arguments, or every discovered chip when there are none. Its trace is `RunEvents` of those targets, its output is the trace's standard-output projection, and the status it passes to `os.Exit` is `Status`: 1 when some open or some query failed, 0 otherwise. |
| Info.VisitChips | cmd/gpiodctl/info.go:37-55 | The loop over chip identifiers produces `RunEvents(host, cc)`. Its status is 1 exactly when the trace holds an error report. |
| Info.VisitChip | cmd/gpiodctl/info.go:38-54 | One chip gives its attempt and error report, or its attempt, header, line events and close. The status becomes 1 when it reported an error, and stays as it was otherwise. |
| Info.VisitLines | cmd/gpiodctl/info.go:45-53 | Every offset from 0 up to the line count is visited in order. The status becomes 1 exactly when some query fails, and stays as it was otherwise. |
| Info.VisitLine | cmd/gpiodctl/info.go:46-52 | One query prints the record's line, or reports the error and prints nothing. |
| Info.Outcome | cmd/gpiodctl/info.go:46-52 | What follows a query is a printed line or an error report, and an error report exactly when the query failed. |
| Info.Offsets | cmd/gpiodctl/info.go:45 | The offsets queried are 0, 1, …, n-1 in order. |
| Info.LinesEventsShape | cmd/gpiodctl/info.go:45-53 | A chip's line events alternate: the query of offset o at position 2o, and that query's own outcome at once after it. |
| Info.LinesQueries | cmd/gpiodctl/info.go:45-53 | The queries of a chip's lines are exactly the offsets 0 .. n-1, in ascending order. The line loop opens, closes and prints no header. |
| Info.LinesReports | cmd/gpiodctl/info.go:46-51 | A chip's line loop reports an error exactly when one of its queries fails. |
| Info.ChipBracket | cmd/gpiodctl/info.go:38-54 | A chip that cannot be opened gives its attempt and one report, and no header, query or close. An opened chip gives its attempt first, then its one header, and its close, of the same identifier, last. It has exactly one open, one header and one close, and its queries are the offsets in order. |
| Info.ChipReports | cmd/gpiodctl/info.go:38-51 | A chip produces an error report exactly when it fails to open or one of its queries fails. |
| Info.ChipOpens | cmd/gpiodctl/info.go:38 | Each identifier is attempted exactly once. |
| Info.ChipCloses | cmd/gpiodctl/info.go:38-54 | A chip is closed, once, and given one header exactly when it opened. |
| Info.RunEventsAppend | cmd/gpiodctl/info.go:37-55 | Chips do not influence each other: the trace over `a + b` is the trace over `a` followed by the trace over `b`. |
| Info.RunOutAppend | cmd/gpiodctl/info.go:37-55 | The same holds for standard output. |
| Info.AttemptsInOrder | cmd/gpiodctl/info.go:34-38 | Every identifier is attempted once, in the given order, whatever fails. |
| Info.ClosesFollowOpens | cmd/gpiodctl/info.go:38-54 | Exactly the chips that opened are closed, once each, in the order they were opened. The number of headers equals the number of opened chips. |
| Info.ReportsIffFailure | cmd/gpiodctl/info.go:38-51 | The run reports some error exactly when some open or some query failed; with `Info.Info`, this is exactly when `rc` ends at 1. |
| Info.StdoutOfRun | cmd/gpiodctl/info.go:44-52 | Standard output is exactly the headers and printed lines of the trace, in trace order: for each opened chip, its header and then its line texts. |
| Info.StdoutOfChip | cmd/gpiodctl/info.go:44-52 | One chip writes nothing when it cannot be opened, and otherwise its header followed by the lines of its successful queries. |
| Info.StdoutOfLines | cmd/gpiodctl/info.go:45-53 | A chip's line loop writes the texts of the successful queries, in offset order. |
| Info.StatusMonotone | cmd/gpiodctl/info.go:37-56 | The status is 0 or 1, and once it is 1 no further chip brings it back to 0. |
| Info.NoChips | cmd/gpiodctl/info.go:34-36 | With no arguments and no chips present, nothing happens, nothing is printed, and the status is 0. |
| Info.BadChipIsolated | cmd/gpiodctl/info.go:38-43 | A chip that cannot be opened leaves only its attempt and one report, and every chip after it is processed in full. |
| Info.BadChipFails | cmd/gpiodctl/info.go:38-43 | A chip that cannot be opened makes the status 1, whatever follows. |
| Info.BadChipSilent | cmd/gpiodctl/info.go:38-43 | A chip that cannot be opened prints nothing: standard output is that of the chips after it. |

`%12s` pads the eight-character quoted consumer `"my app"` with four
spaces (`Format.ExampleQuotedColumn`).

## Left out

- Cobra command registration and `init` (`cmd/gpiodctl/info.go:18-28`): this
  is command-line framework wiring and computes nothing.
- `gpiod.Chips`, `gpiod.NewChip`, `Chip.LineInfo` and `Chip.Close` are
  kernel device calls in library code that is not part of this model.
  - Discovery is the `Host.chips` sequence.
  - Opening and querying are the total, deterministic oracles `Host.open`
    and `Chip.lineInfo`: the same identifier or offset always gives the
    same answer.
  - Closing is the `Close` event.
- `logErr`'s message format: each call is one `Report` event carrying the
  library's error value.
- `fmt.Printf` to standard output and `os.Exit`: output is a sequence of
  strings, one per `Printf`, and the exit status is the method's returned
  `rc`. The process termination itself is not modelled.
- Go's `fmt` counts widths in runes, and a Dafny `char` is one Unicode
  scalar value, the same unit. A Go string can also hold bytes that are not
  valid UTF-8, each of which `fmt` counts as one rune; a Dafny string cannot
  hold such bytes, so names and consumers that are not valid UTF-8 are not
  modelled. The byte-length tests `len(li.Name) == 0` and
  `len(li.Consumer) == 0` (`cmd/gpiodctl/info.go:60,64`) agree with
  `|s| == 0`.
- Direction is modelled with the two values input and output. The code
  prints "input" for every direction that is not output, which is what the
  two-valued model gives.
- Offsets and line counts are unbounded integers. Go's `int` is 32 or
  64 bits wide, and no real chip comes near either bound.
- Format.LineTextRoundTrip: holds only for records whose offset, name and
  shown consumer fit their columns. A longer field shifts every later
  column, and the fixed-column parser then cannot read the line back.
- Format.RenderRoundTrip: holds only under `Fits`, for the same reason.
  With a name that begins with a space, that space cannot be told apart
  from padding.
