/** The values that flow through the SFT data pipeline: a parsed input line
    (RawRecord), the row the filter produces from it (Row), and the length
    thresholds the filter applies. */
module Records {

  datatype Option<+T> = None | Some(value: T)

  /** One parsed JSON line. `input` is None when the key is absent or its
      value is null; an empty string stays `Some("")`. */
  datatype RawRecord = RawRecord(instruction: string, input: Option<string>, output: string)

  /** A qualifying record after transformation: the two CSV columns. */
  datatype Row = Row(prompt: string, answer: string)

  /** The keyword parameters min_q_len, min_a_len and max_len of the filter. */
  datatype Limits = Limits(minPrompt: int, minAnswer: int, maxLen: int)

  /** The defaults every caller in the script uses. */
  const DefaultLimits := Limits(10, 5, 256)

  /** `input or ""`: an absent or null input reads as the empty string, so
      the input adds nothing to the prompt exactly when it is absent, null
      or empty. */
  function InputText(input: Option<string>): (t: string)
    ensures |t| == 0 <==> input.None? || input.value == ""
  {
    match input
    case None => ""
    case Some(t) => t
  }

  /** The prompt column: the instruction followed by the input. */
  function Prompt(r: RawRecord): (p: string)
    ensures |p| == |r.instruction| + |InputText(r.input)|
    ensures p[..|r.instruction|] == r.instruction
    ensures p[|r.instruction|..] == InputText(r.input)
    ensures r.input.None? ==> p == r.instruction
    ensures r.input.Some? ==> p == r.instruction + r.input.value
  {
    r.instruction + InputText(r.input)
  }

  /** The row a record becomes when it qualifies: the answer is the output
      unchanged, and the length tests on the record are the tests on the
      row, for any limits. */
  function Transform(r: RawRecord): (row: Row)
    ensures row.answer == r.output
    ensures forall lim :: Keeps(r, lim) <==> Fits(row, lim)
  {
    Row(Prompt(r), r.output)
  }

  /** Both inclusive range tests, on character counts. A record can only
      be kept under limits whose ranges are non-empty, and then neither its
      instruction nor its output is longer than max_len. */
  predicate Keeps(r: RawRecord, lim: Limits): (b: bool)
    ensures b ==> lim.minPrompt <= lim.maxLen && lim.minAnswer <= lim.maxLen
    ensures b ==> |r.instruction| <= lim.maxLen && |r.output| <= lim.maxLen
  {
    && lim.minPrompt <= |Prompt(r)| <= lim.maxLen
    && lim.minAnswer <= |r.output| <= lim.maxLen
  }

  /** The same tests stated on an emitted row. */
  predicate Fits(row: Row, lim: Limits)
  {
    && lim.minPrompt <= |row.prompt| <= lim.maxLen
    && lim.minAnswer <= |row.answer| <= lim.maxLen
  }
}
