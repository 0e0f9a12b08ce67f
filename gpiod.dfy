/**
 The parts of the gpiod library that the `info` command consumes: the
 line-info record a chip returns for one line, and the chip and host
 collaborators, reduced to oracles. Opening a chip and querying a line are
 kernel calls outside this model; here each is a total function from its
 argument to a value or an error.
 */
module Gpiod {

  /** An error from the library; its text only reaches the diagnostic sink. */
  type Error = string

  datatype Result<T> = Ok(value: T) | Err(error: Error)

  datatype LineDirection = Input | Output

  datatype LineDrive = PushPull | OpenDrain | OpenSource

  datatype LineBias = BiasUnset | PullUp | PullDown | BiasDisabled

  datatype LineConfig = LineConfig(
    activeLow: bool,
    direction: LineDirection,
    drive: LineDrive,
    bias: LineBias)

  /** The snapshot of one line returned by `Chip.LineInfo`. */
  datatype LineInfo = LineInfo(
    offset: int,
    name: string,
    used: bool,
    consumer: string,
    config: LineConfig)

  /** An open chip: its display name, its line count (fixed while it is
      open) and the `LineInfo` query for an offset. */
  datatype Chip = Chip(name: string, lines: nat, lineInfo: nat -> Result<LineInfo>)

  /** The host: the identifiers `gpiod.Chips` discovers, in discovery order,
      and `gpiod.NewChip`. */
  datatype Host = Host(chips: seq<string>, open: string -> Result<Chip>)
}
