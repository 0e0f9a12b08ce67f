/**
 `printLineInfo`: the one-line report for one GPIO line. The derivation of
 the display fields (placeholders, quoting, labels, flags) is given as pure
 functions, the fixed-column rendering as `Render`, and the source's
 imperative version, which overwrites fields of its local copy of the
 record and builds the flag list by appending, as the method
 `PrintLineInfo`, proved to print exactly `LineText`.

 The partner of the renderer is `Parse`, which reads the columns back; the
 round trip holds whenever every field fits its column.
 */
module Format {
  import opened Gpiod
  import opened Text

  /** The display form of one line: the six fields printed, in print order. */
  datatype Row = Row(
    offset: int,
    name: string,
    consumer: string,
    direction: string,
    polarity: string,
    flags: seq<string>)

  // Column widths of the `%3d`, `%12s`, `%12s`, `%8s` and `%13s` verbs.
  const OffsetWidth: nat := 3
  const NameWidth: nat := 12
  const ConsumerWidth: nat := 12
  const DirectionWidth: nat := 8
  const PolarityWidth: nat := 13

  // ---------------------------------------------------------------------
  // Derivation of the display fields

  function DisplayName(name: string): string {
    if |name| == 0 then "unnamed" else name
  }

  /** The consumer shown: "unused" for a free line; for a used one the stored
      consumer, "kernel" when it is empty, quoted when it holds a space. */
  function DisplayConsumer(used: bool, consumer: string): string {
    if used then
      var c := if |consumer| == 0 then "kernel" else consumer;
      if Contains(c, ' ') then "\"" + c + "\"" else c
    else
      "unused"
  }

  function DirectionLabel(d: LineDirection): string {
    if d == Output then "output" else "input"
  }

  function PolarityLabel(activeLow: bool): string {
    if activeLow then "active-low" else "active-high"
  }

  function DriveFlags(d: LineDrive): seq<string> {
    match d
    case PushPull => []
    case OpenDrain => ["open-drain"]
    case OpenSource => ["open-source"]
  }

  function BiasFlags(b: LineBias): seq<string> {
    match b
    case BiasUnset => []
    case PullUp => ["pull-up"]
    case PullDown => ["pull-down"]
    case BiasDisabled => ["bias-disabled"]
  }

  function Flags(li: LineInfo): seq<string> {
    (if li.used then ["used"] else []) + DriveFlags(li.config.drive) + BiasFlags(li.config.bias)
  }

  /** The flag column: nothing for no flags, else the flags in brackets,
      separated by single spaces. */
  function FlagText(flags: seq<string>): string {
    if |flags| > 0 then "[" + Join(flags, ' ') + "]" else ""
  }

  function Fields(li: LineInfo): Row {
    Row(li.offset,
        DisplayName(li.name),
        DisplayConsumer(li.used, li.consumer),
        DirectionLabel(li.config.direction),
        PolarityLabel(li.config.activeLow),
        Flags(li))
  }

  // ---------------------------------------------------------------------
  // Rendering

  /** The `fmt.Printf` call with format `"\tline %3d:%12s%12s%8s%13s%s\n"`.
      Each padded field takes at least its column width, so the line is at
      least as wide as the fixed columns, the flag column and the line
      break. */
  function Layout(offset: int, name: string, consumer: string, dirn: string, active: string, flstr: string): string {
    "\tline " + PadLeft(IntText(offset), OffsetWidth) + ":"
      + PadLeft(name, NameWidth)
      + PadLeft(consumer, ConsumerWidth)
      + PadLeft(dirn, DirectionWidth)
      + PadLeft(active, PolarityWidth)
      + flstr + "\n"
  }

  function Render(row: Row): string {
    Layout(row.offset, row.name, row.consumer, row.direction, row.polarity, FlagText(row.flags))
  }

  /** The text `printLineInfo` prints for `li`. */
  function LineText(li: LineInfo): string {
    Render(Fields(li))
  }

  /** The flag list of `printLineInfo`, built as the source builds it: one
      test per flag, in the fixed order, each appending at most one flag. */
  method CollectFlags(li: LineInfo) returns (flags: seq<string>)
    ensures flags == Flags(li)
  {
    flags := [];
    if li.used {
      flags := flags + ["used"];
    }
    if li.config.drive == OpenDrain {
      flags := flags + ["open-drain"];
    }
    if li.config.drive == OpenSource {
      flags := flags + ["open-source"];
    }
    if li.config.bias == PullUp {
      flags := flags + ["pull-up"];
    }
    if li.config.bias == PullDown {
      flags := flags + ["pull-down"];
    }
    if li.config.bias == BiasDisabled {
      flags := flags + ["bias-disabled"];
    }
  }

  /** The source's own formulation: it overwrites `Name` and `Consumer` of its
      local copy, picks the two labels, collects the flags, then formats. */
  method PrintLineInfo(info: LineInfo) returns (text: string)
    ensures text == LineText(info)
  {
    var li := info;
    if |li.name| == 0 {
      li := li.(name := "unnamed");
    }
    if li.used {
      if |li.consumer| == 0 {
        li := li.(consumer := "kernel");
      }
      if Contains(li.consumer, ' ') {
        li := li.(consumer := "\"" + li.consumer + "\"");
      }
    } else {
      li := li.(consumer := "unused");
    }
    assert li == info.(name := DisplayName(info.name), consumer := DisplayConsumer(info.used, info.consumer));
    var dirn := "input";
    if li.config.direction == Output {
      dirn := "output";
    }
    var active := "active-high";
    if li.config.activeLow {
      active := "active-low";
    }
    var flags := CollectFlags(li);
    var flstr := "";
    if |flags| > 0 {
      flstr := "[" + Join(flags, ' ') + "]";
    }
    assert flstr == FlagText(Flags(info));
    text := Layout(li.offset, li.name, li.consumer, dirn, active, flstr);
  }

  // ---------------------------------------------------------------------
  // Reading a report line back

  function ParseFlags(s: string): Option<seq<string>> {
    if s == "" then Some([])
    else if |s| >= 2 && s[0] == '[' && s[|s| - 1] == ']' then Some(Split(s[1..|s| - 1], ' '))
    else None
  }

  /** Position of the flag column when every field fits its width. */
  const FlagColumn: nat := 6 + OffsetWidth + 1 + NameWidth + ConsumerWidth + DirectionWidth + PolarityWidth

  /** Reads the fixed columns of a report line and trims their padding. */
  function Parse(text: string): Option<Row> {
    if |text| < FlagColumn + 1 || text[..6] != "\tline " || text[9] != ':' || text[|text| - 1] != '\n' then
      None
    else
      match (ParseInt(TrimLeft(text[6..9])), ParseFlags(text[FlagColumn..|text| - 1]))
      case (Some(offset), Some(flags)) =>
        Some(Row(offset, TrimLeft(text[10..22]), TrimLeft(text[22..34]),
                 TrimLeft(text[34..42]), TrimLeft(text[42..55]), flags))
      case _ => None
  }

  /** A text field that fills at most `width` columns and does not itself begin
      with padding. */
  predicate FitsColumn(s: string, width: nat) {
    |s| <= width && (s == [] || s[0] != ' ')
  }

  /** Every field of the row stays inside its column, and no flag holds a space. */
  predicate Fits(row: Row) {
    && |IntText(row.offset)| <= OffsetWidth
    && FitsColumn(row.name, NameWidth)
    && FitsColumn(row.consumer, ConsumerWidth)
    && FitsColumn(row.direction, DirectionWidth)
    && FitsColumn(row.polarity, PolarityWidth)
    && forall i :: 0 <= i < |row.flags| ==> ' ' !in row.flags[i]
  }

  // ---------------------------------------------------------------------
  // Properties of the derivation rules

  /** An empty name shows as "unnamed"; any other name shows unchanged. */
  lemma NameRule(li: LineInfo)
    ensures li.name == "" ==> Fields(li).name == "unnamed"
    ensures li.name != "" ==> Fields(li).name == li.name
    ensures Fields(li).name != ""
  {
  }

  /** The consumer rules, and that a consumer holding a space is never shown
      unquoted. */
  lemma ConsumerRules(li: LineInfo)
    ensures !li.used ==> Fields(li).consumer == "unused"
    ensures li.used && li.consumer == "" ==> Fields(li).consumer == "kernel"
    ensures li.used && ' ' in li.consumer ==> Fields(li).consumer == "\"" + li.consumer + "\""
    ensures li.used && li.consumer != "" && ' ' !in li.consumer ==> Fields(li).consumer == li.consumer
    ensures ' ' in Fields(li).consumer ==> Fields(li).consumer[0] == '"' && Fields(li).consumer[|Fields(li).consumer| - 1] == '"'
  {
  }

  /** The stored consumer of a free line does not reach the output at all. */
  lemma UnusedIgnoresConsumer(li: LineInfo, other: string)
    requires !li.used
    ensures LineText(li.(consumer := other)) == LineText(li)
  {
  }

  lemma LabelRules(li: LineInfo)
    ensures Fields(li).direction == "output" <==> li.config.direction == Output
    ensures Fields(li).direction == "input" <==> li.config.direction != Output
    ensures Fields(li).polarity == "active-low" <==> li.config.activeLow
    ensures Fields(li).polarity == "active-high" <==> !li.config.activeLow
  {
  }

  /** Where a flag sits in the fixed order: "used", then the drive flag,
      then the bias flag; 3 for anything that is not a flag. */
  function FlagRank(f: string): nat {
    if f == "used" then 0
    else if f == "open-drain" || f == "open-source" then 1
    else if f == "pull-up" || f == "pull-down" || f == "bias-disabled" then 2
    else 3
  }

  /** Flags appear in the fixed order with strictly increasing rank, so at
      most one drive flag and one bias flag, and never more than three. */
  lemma FlagsOrdered(li: LineInfo)
    ensures forall i :: 0 <= i < |Flags(li)| ==> FlagRank(Flags(li)[i]) < 3
    ensures forall i, j :: 0 <= i < j < |Flags(li)| ==> FlagRank(Flags(li)[i]) < FlagRank(Flags(li)[j])
    ensures |Flags(li)| <= 3
  {
  }

  /** Each flag is present exactly when the record says so. */
  lemma FlagsPresence(li: LineInfo)
    ensures "used" in Flags(li) <==> li.used
    ensures "open-drain" in Flags(li) <==> li.config.drive == OpenDrain
    ensures "open-source" in Flags(li) <==> li.config.drive == OpenSource
    ensures "pull-up" in Flags(li) <==> li.config.bias == PullUp
    ensures "pull-down" in Flags(li) <==> li.config.bias == PullDown
    ensures "bias-disabled" in Flags(li) <==> li.config.bias == BiasDisabled
  {
  }

  /** The flag column is empty exactly for a free, push-pull line with unset bias. */
  lemma NoFlags(li: LineInfo)
    ensures FlagText(Flags(li)) == "" <==> !li.used && li.config.drive == PushPull && li.config.bias == BiasUnset
  {
    if Flags(li) != [] {
      assert FlagText(Flags(li))[0] == '[';
    }
  }

  /** A non-empty flag column is bracketed and reads back as the flag list. */
  lemma FlagTextRoundTrip(flags: seq<string>)
    requires forall i :: 0 <= i < |flags| ==> ' ' !in flags[i]
    ensures flags != [] ==> FlagText(flags)[0] == '[' && FlagText(flags)[|FlagText(flags)| - 1] == ']'
    ensures ParseFlags(FlagText(flags)) == Some(flags)
  {
    if flags != [] {
      var t := FlagText(flags);
      assert t[1..|t| - 1] == Join(flags, ' ');
      SplitJoin(flags, ' ');
    }
  }

  // ---------------------------------------------------------------------
  // Properties of the rendering

  /** The `Printf` of a report line: it starts with the tab-indented "line "
      marker, is at least as wide as the fixed columns, and ends with the flag
      column and a line break, whatever the fields hold. */
  lemma LayoutShape(offset: int, name: string, consumer: string, dirn: string, active: string, flstr: string)
    ensures |Layout(offset, name, consumer, dirn, active, flstr)| >= FlagColumn + |flstr| + 1
    ensures Layout(offset, name, consumer, dirn, active, flstr)[..6] == "\tline "
    ensures var t := Layout(offset, name, consumer, dirn, active, flstr); t[|t| - |flstr| - 1..] == flstr + "\n"
  {
    var t := Layout(offset, name, consumer, dirn, active, flstr);
    var head := "\tline " + PadLeft(IntText(offset), OffsetWidth) + ":"
      + PadLeft(name, NameWidth) + PadLeft(consumer, ConsumerWidth)
      + PadLeft(dirn, DirectionWidth) + PadLeft(active, PolarityWidth);
    assert t == head + (flstr + "\n");
    assert head[..6] == "\tline ";
  }

  /** Every report line starts with the tab-indented "line " marker and ends
      with the flag column and a line break. */
  lemma RenderShape(row: Row)
    ensures |Render(row)| >= FlagColumn + 1
    ensures Render(row)[..6] == "\tline "
    ensures Render(row)[|Render(row)| - |FlagText(row.flags)| - 1..] == FlagText(row.flags) + "\n"
  {
    var fl := FlagText(row.flags);
    LayoutShape(row.offset, row.name, row.consumer, row.direction, row.polarity, fl);
    assert Render(row) == Layout(row.offset, row.name, row.consumer, row.direction, row.polarity, fl);
  }

  // The Layout of a line whose fields all fit their columns, cut into its
  // cells from the left, a few cells at a time.

  lemma CutHead(p0: string, rest: string, t: string)
    requires |p0| == 3 && t == "\tline " + p0 + ":" + rest
    ensures t[..6] == "\tline " && t[6..9] == p0 && t[9] == ':' && t[10..] == rest
  {
    assert t == "\tline " + (p0 + (":" + rest));
  }

  lemma CutTwo(p: string, q: string, rest: string, t: string)
    requires t == p + q + rest
    ensures t[..|p|] == p && t[|p|..|p| + |q|] == q && t[|p| + |q|..] == rest
  {
    assert t == p + (q + rest);
  }

  lemma {:induction false} LayoutCells(p0: string, p1: string, p2: string, p3: string, p4: string, fl: string)
    requires |p0| == 3 && |p1| == 12 && |p2| == 12 && |p3| == 8 && |p4| == 13
    ensures var t := "\tline " + p0 + ":" + p1 + p2 + p3 + p4 + fl + "\n";
      && t[..6] == "\tline " && t[6..9] == p0 && t[9] == ':'
      && t[10..22] == p1 && t[22..34] == p2 && t[34..42] == p3 && t[42..55] == p4
      && t[55..|t| - 1] == fl
  {
    var t := "\tline " + p0 + ":" + p1 + p2 + p3 + p4 + fl + "\n";
    var r4 := p3 + p4 + fl + "\n";
    var r2 := p1 + p2 + r4;
    var r6 := fl + "\n";
    assert t == "\tline " + p0 + ":" + r2;
    CutHead(p0, r2, t);
    CutTwo(p1, p2, r4, r2);
    assert r4 == p3 + p4 + r6;
    CutTwo(p3, p4, r6, r4);
    assert t[10..22] == r2[..12];
    assert t[22..34] == r2[12..24];
    assert t[34..] == r4;
    assert t[34..42] == r4[..8];
    assert t[42..55] == r4[8..21];
    assert t[55..] == r6;
    assert t[55..|t| - 1] == r6[..|fl|];
  }

  /** With every field inside its column, the columns sit at fixed positions. */
  lemma RenderColumns(row: Row)
    requires Fits(row)
    ensures Render(row)[..6] == "\tline " && Render(row)[9] == ':'
    ensures Render(row)[6..9] == PadLeft(IntText(row.offset), OffsetWidth)
    ensures Render(row)[10..22] == PadLeft(row.name, NameWidth)
    ensures Render(row)[22..34] == PadLeft(row.consumer, ConsumerWidth)
    ensures Render(row)[34..42] == PadLeft(row.direction, DirectionWidth)
    ensures Render(row)[42..55] == PadLeft(row.polarity, PolarityWidth)
    ensures Render(row)[FlagColumn..|Render(row)| - 1] == FlagText(row.flags)
  {
    LayoutCells(PadLeft(IntText(row.offset), OffsetWidth), PadLeft(row.name, NameWidth),
                PadLeft(row.consumer, ConsumerWidth), PadLeft(row.direction, DirectionWidth),
                PadLeft(row.polarity, PolarityWidth), FlagText(row.flags));
  }

  /** When every field fits its column, the columns read back as exactly the
      fields that were printed. */
  lemma RenderRoundTrip(row: Row)
    requires Fits(row)
    ensures Parse(Render(row)) == Some(row)
  {
    var t := Render(row);
    RenderFieldsBack(row);
    FlagTextRoundTrip(row.flags);
    RenderShape(row);
    assert ParseInt(TrimLeft(t[6..9])) == Some(row.offset);
    assert ParseFlags(t[FlagColumn..|t| - 1]) == Some(row.flags);
  }

  /** Trimming each padded column gives back its field. */
  lemma RenderFieldsBack(row: Row)
    requires Fits(row)
    ensures ParseInt(TrimLeft(Render(row)[6..9])) == Some(row.offset)
    ensures TrimLeft(Render(row)[10..22]) == row.name
    ensures TrimLeft(Render(row)[22..34]) == row.consumer
    ensures TrimLeft(Render(row)[34..42]) == row.direction
    ensures TrimLeft(Render(row)[42..55]) == row.polarity
    ensures Render(row)[FlagColumn..|Render(row)| - 1] == FlagText(row.flags)
    ensures Render(row)[..6] == "\tline " && Render(row)[9] == ':'
  {
    RenderColumns(row);
    TrimPadLeft(IntText(row.offset), OffsetWidth);
    IntTextRoundTrip(row.offset);
    TrimPadLeft(row.name, NameWidth);
    TrimPadLeft(row.consumer, ConsumerWidth);
    TrimPadLeft(row.direction, DirectionWidth);
    TrimPadLeft(row.polarity, PolarityWidth);
  }

  /** A line whose offset has at most three characters, whose name fits twelve
      columns without leading blanks and whose consumer fits twelve columns is
      printed so that its display fields can be read back unambiguously. */
  lemma LineTextRoundTrip(li: LineInfo)
    requires -99 <= li.offset <= 999
    requires |li.name| <= NameWidth && (li.name == [] || li.name[0] != ' ')
    requires |DisplayConsumer(li.used, li.consumer)| <= ConsumerWidth
    ensures Parse(LineText(li)) == Some(Fields(li))
  {
    FieldsFit(li);
    RenderRoundTrip(Fields(li));
  }

  lemma FieldsFit(li: LineInfo)
    requires -99 <= li.offset <= 999
    requires |li.name| <= NameWidth && (li.name == [] || li.name[0] != ' ')
    requires |DisplayConsumer(li.used, li.consumer)| <= ConsumerWidth
    ensures Fits(Fields(li))
  {
    IntTextWidth(li.offset);
    FlagsHaveNoSpace(li);
    var f := Fields(li);
    assert FitsColumn(f.name, NameWidth);
    assert FitsColumn(f.consumer, ConsumerWidth);
  }

  /** No flag contains the space that separates flags. */
  lemma FlagsHaveNoSpace(li: LineInfo)
    ensures forall i :: 0 <= i < |Flags(li)| ==> ' ' !in Flags(li)[i]
  {
    FlagsOrdered(li);
  }

  /** A layout of fields that fit their columns, spelt out cell by cell:
      each field preceded by the spaces that fill its column. */
  lemma {:induction false} LayoutOf(offset: int, name: string, consumer: string, dirn: string, active: string, flstr: string,
                 k0: nat, k1: nat, k2: nat, k3: nat, k4: nat)
    requires |IntText(offset)| + k0 == OffsetWidth && |name| + k1 == NameWidth
    requires |consumer| + k2 == ConsumerWidth && |dirn| + k3 == DirectionWidth && |active| + k4 == PolarityWidth
    ensures Layout(offset, name, consumer, dirn, active, flstr)
         == "\tline " + Spaces(k0) + IntText(offset) + ":" + Spaces(k1) + name + Spaces(k2) + consumer
            + Spaces(k3) + dirn + Spaces(k4) + active + flstr + "\n"
  {
    var t0 := IntText(offset);
    PadCell(t0, OffsetWidth, k0);
    PadCell(name, NameWidth, k1);
    PadCell(consumer, ConsumerWidth, k2);
    PadCell(dirn, DirectionWidth, k3);
    PadCell(active, PolarityWidth, k4);
    var g0 := "\tline " + Spaces(k0) + t0;
    AppendAssoc("\tline ", Spaces(k0), t0);
    var g1 := g0 + ":" + Spaces(k1) + name;
    AppendAssoc(g0 + ":", Spaces(k1), name);
    var g2 := g1 + Spaces(k2) + consumer;
    AppendAssoc(g1, Spaces(k2), consumer);
    var g3 := g2 + Spaces(k3) + dirn;
    AppendAssoc(g2, Spaces(k3), dirn);
    AppendAssoc(g3, Spaces(k4), active);
  }

  lemma {:induction false} PadCell(s: string, width: nat, k: nat)
    requires |s| + k == width
    ensures PadLeft(s, width) == Spaces(k) + s
  {
    if k == 0 {
      assert Spaces(k) + s == s;
    }
  }

  /** The detail line of a free, unnamed input line at offset 0, written
      out column by column: each field right-aligned in its column, and no
      flag column, whatever consumer the record holds. */
  lemma ExampleFreeLine(li: LineInfo)
    requires li.offset == 0 && li.name == "" && !li.used
    requires li.config == LineConfig(false, Input, PushPull, BiasUnset)
    ensures LineText(li)
         == "\tline " + Spaces(2) + "0" + ":" + Spaces(5) + "unnamed" + Spaces(6) + "unused"
            + Spaces(3) + "input" + Spaces(2) + "active-high" + "" + "\n"
  {
    assert Fields(li) == Row(0, "unnamed", "unused", "input", "active-high", []);
    assert IntText(0) == "0";
    LayoutOf(0, "unnamed", "unused", "input", "active-high", "", 2, 5, 6, 3, 2);
  }

  /** The display fields of a used, active-low output named "LED", driven
      open-drain with pull-up, whose consumer "my app" holds a space and is
      therefore quoted. */
  lemma ExampleUsedFields(li: LineInfo)
    requires li.offset == 1 && li.name == "LED" && li.used && li.consumer == "my app"
    requires li.config == LineConfig(true, Output, OpenDrain, PullUp)
    ensures Fields(li) == Row(1, "LED", "\"my app\"", "output", "active-low", ["used", "open-drain", "pull-up"])
  {
    assert Contains("my app", ' ') by { assert "my app"[2] == ' '; }
  }

  /** The flag column of a used, open-drain, pull-up line: the three flags
      in the fixed order, bracketed and separated by single spaces. */
  lemma ExampleUsedFlags()
    ensures FlagText(["used", "open-drain", "pull-up"]) == "[" + "used" + " " + "open-drain" + " " + "pull-up" + "]"
  {
    JoinThree("used", "open-drain", "pull-up", ' ');
  }

  /** The consumer column of the used "LED" line above: the quoted consumer
      takes eight of its twelve columns, so four spaces precede it. */
  lemma ExampleQuotedColumn(li: LineInfo)
    requires li.offset == 1 && li.name == "LED" && li.used && li.consumer == "my app"
    requires li.config == LineConfig(true, Output, OpenDrain, PullUp)
    ensures PadLeft(Fields(li).consumer, ConsumerWidth) == Spaces(4) + "\"my app\""
  {
    ExampleUsedFields(li);
  }
}
