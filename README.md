# SFT data processing: filter and bounded-batch CSV sink

A Dafny model of `sft_data_process.py`, a script that turns JSON-lines files of
instruction/input/output triples into a two-column CSV file (`prompt`, `answer`)
for supervised fine-tuning. It covers the script's two parts.

- **The record filter** (`filter_and_yield`). Each record becomes
  `prompt = instruction ++ (input or "")` and `answer = output`. The pair is
  kept only when the prompt has 10 to 256 characters and the answer 5 to 256, inclusive. Lengths
  are character counts: with Dafny 4's default Unicode `char`, `|s|` on a
  `string` counts code points, as Python's `len` does. The generator changes
  no state, so it is modelled as functions on sequences (module
  `RecordFilter`).
- **The bounded-batch sink** (`batch_process_to_csv`). The filtered rows of
  every file go into one `chunks` buffer; the buffer is not reset between
  files. A buffer that reaches `batch_size` is appended to the CSV file and
  cleared, and `total_written` grows by its size. The header goes with that
  append only while `total_written == 0`. After the last file any remaining
  rows are appended without a header. This is modelled imperatively in module
  `CsvSink`. The CSV file is a class `CsvFile` whose ghost field `lines` is its
  contents as a sequence of `Header` / `Data(row)` lines. `BatchProcessToCsv`
  runs the outer loop over files and calls `FeedFile`, which runs the inner
  loop over one file's rows. Both carry the invariant `Flushed`: the buffer is
  below the flush size; the rows seen so far are the flushed rows followed by
  the buffer; `total_written` counts the flushed rows, which form whole batches;
  the file holds its earlier contents followed by the header (if something
  has been flushed) and the flushed rows.

The model follows the code on the header. The trailing flush passes
`header=False`. So a run with fewer than `batch_size` qualifying rows writes
data rows and no header, and a run with no qualifying rows appends nothing.
In general a run appends a header exactly when at least `Cap(batch_size)`
rows qualify (`RunOutput`), where `Cap(batch_size)` is `batch_size` when it is
positive and 1 otherwise. At the script's default of 10000, a run with 1 to
9999 qualifying rows writes no header (`DefaultBatchSizeHeader`). Because of this, the output for `batch_size = 3` and
`batch_size = 10` over the same seven rows is not the same: only the data rows
agree (`SevenRows`, `BatchSizeOnlyMovesHeader`). `header=not total_written`
at line 37 aims at a header on the first write, but a run whose first write
is the trailing one at line 44 (`header=False`) gets none. The model proves
what the code does.

The script never checks `batch_size >= 1`. With `batch_size <= 0`, the test
`len(chunks) >= batch_size` is true as soon as one row is buffered, so every
row is flushed on its own, exactly as with `batch_size = 1`. `Cap` gives the
flush size 1 for such a batch size, `FlushTestIsCap` proves that the script's
test on a non-empty buffer is the test against `Cap`, and no member requires
a positive batch size.

## Model

| member | source | states |
|---|---|---|
| `Records.InputText` | sft_data_process.py:16 | `per.get("input", "") or ""`: the input contributes nothing exactly when it is absent, null or the empty string |
| `Records.Prompt` | sft_data_process.py:16 | the prompt is the instruction followed by the input; an absent or null input leaves the instruction unchanged, a present one is appended to it; its length is the sum of theirs |
| `Records.Transform` | sft_data_process.py:16-19 | the row built at line 19 carries the output unchanged as its answer, and the length tests at line 18 on the record are the same tests on the row, for any limits |
| `Records.Keeps` | sft_data_process.py:18 | the inclusive length test; a record can be kept only when both ranges are non-empty, and then neither its instruction nor its output exceeds max_len |
| `RecordFilter.FilterRecords` | sft_data_process.py:15-19 | the filter yields at most one row per record, and every row it yields has a prompt and an answer within the inclusive bounds |
| `RecordFilter.SingleRecord` | sft_data_process.py:16-19 | one record yields `Row(instruction ++ input, output)` iff the length of `instruction ++ input` lies in `[minPrompt, maxLen]` and the length of `output` in `[minAnswer, maxLen]`, both ends inclusive, and yields nothing otherwise |
| `RecordFilter.KeptIndicesSound` | sft_data_process.py:15-18 | the listed positions are strictly ascending, in range, and each one holds a qualifying record |
| `RecordFilter.KeptIndicesComplete` | sft_data_process.py:15-18 | every qualifying position is listed |
| `RecordFilter.FilterIsSelection` | sft_data_process.py:15-19 | the output has one row per qualifying record, and row k is the transform of the k-th qualifying record: an order-preserving selection with nothing else added |
| `RecordFilter.FilterMembership` | sft_data_process.py:15-19 | a row is yielded iff some input record qualifies and transforms to it |
| `RecordFilter.FilterAppend` | sft_data_process.py:15-19 | filtering a concatenation is the concatenation of the filtered parts, since each record is judged on its own |
| `RecordFilter.FilterFiles` | sft_data_process.py:28-33 | the rows of all files, one filtered generator per file joined in file order: no more rows than records over all files, and every row within the inclusive bounds |
| `RecordFilter.FilterFilesStep` | sft_data_process.py:28-33 | the rows of one more file come after the rows of the files before it |
| `RecordFilter.FilterFilesIsFilterOfConcat` | sft_data_process.py:28-33 | filtering file by file and joining the results equals filtering all records in file order, then line order |
| `RecordFilter.FilterFilesCount` | sft_data_process.py:28-45 | the number of rows over all files equals the number of qualifying records over all files |
| `RecordFilter.SampleLines` | sft_data_process.py:16-19 | with the default limits, the 23-character prompt paired with a 30-character answer is kept unchanged, and the record with a 2-character prompt is dropped |
| `CsvSink.Cap` | sft_data_process.py:35 | the flush size is at least 1; it equals batch_size when batch_size is positive and is 1 otherwise |
| `CsvSink.FlushTestIsCap` | sft_data_process.py:34-35 | for a buffer that has just received a row, `len(chunks) >= batch_size` holds iff the buffer has reached Cap(batch_size), for every integer batch size |
| `CsvSink.DefaultBatchSizeHeader` | sft_data_process.py:22-44 | at the default batch size 10000, 1 to 9999 qualifying rows are written with no header, 10000 or more start with the header, and the rows read back are the qualifying rows |
| `CsvSink.RunOutput` | sft_data_process.py:28-45 | the closed form of what a run appends for the qualifying rows in production order: at most one line more than there are rows, and any extra line is a leading header |
| `CsvSink.CsvFile.Append` | sft_data_process.py:36-37 | appending in mode "a" keeps the old contents in front and adds the header if asked, then one data line per row in order |
| `CsvSink.RunOutputRows` | sft_data_process.py:28-45 | the data rows a run appends are exactly the qualifying rows, in production order |
| `CsvSink.BatchSizeOnlyMovesHeader` | sft_data_process.py:33-45 | two batch sizes give the same data rows; their outputs differ at most by one leading header |
| `CsvSink.HeaderPlacement` | sft_data_process.py:35-44 | a header appears only as the first appended line, and it appears iff at least Cap(batch_size) rows qualify; the appended length is the row count plus that one header; no qualifying rows means nothing is appended |
| `CsvSink.SevenRows` | sft_data_process.py:35-44 | over seven rows, batch size 3 writes a header and then the rows, batch size 10 writes the rows only, and both give back the same rows |
| `CsvSink.RunRowsAreFilteredStream` | sft_data_process.py:28-45 | reading back a run's data rows gives the filter applied to all records of all files in order, whatever the batch size |
| `CsvSink.BatchesIsMultiple` | sft_data_process.py:39 | adding one full batch per flush makes the flushed count `flushes * batch_size`, a multiple of the batch size |
| `CsvSink.WholeBatches` | sft_data_process.py:35-37 | with whole batches flushed and a buffer below the flush size, something has been flushed iff the rows seen reach the flush size, which is when a header is due |
| `CsvSink.BufferStep` | sft_data_process.py:34-35 | a row that leaves the buffer below batch_size is only buffered, and the invariant is kept |
| `CsvSink.FlushStep` | sft_data_process.py:34-39 | a row that brings the buffer to batch_size triggers one flush of exactly one batch, with the header iff `total_written == 0`; the buffer is emptied and the counter grows by the batch; the invariant is kept |
| `CsvSink.FinalFlush` | sft_data_process.py:42-45 | after the last file, appending the leftover buffer without a header completes the run's output, and the counter then equals the number of rows |
| `CsvSink.FeedFile` | sft_data_process.py:33-40 | the inner loop over one file keeps the invariant, with the buffer and counter carried in from earlier files and out to later ones |
| `CsvSink.BatchProcessToCsv` | sft_data_process.py:22-46 | the file gains exactly `RunOutput` of all qualifying rows behind its earlier contents, and the final `total_written` equals the number of qualifying rows over all files |

## Left out

- `json_lines_reader` (file opening, UTF-8 decoding, `json.loads`): I/O and a foreign parser. Each file is an already parsed `seq<RawRecord>`, so a malformed line, which aborts the whole run, is not modelled.
- A record missing `instruction` or `output` (a `KeyError` that aborts the run), and non-string field values: `RawRecord` has string fields, so such records cannot be written down. An `input` that is absent or null is `None`.
- `pandas.DataFrame` and `to_csv`, including CSV quoting and escaping: an opaque library sink, modelled in `CsvFile.Append` as adding lines to the file's contents. Write failures part-way through a run are not modelled.
- `print` progress messages: console output, not behaviour.
- `main`: resolving the working directory, `mkdir`, and the recursive `*.jsonl` directory walk. The files are an input sequence in the order the walk yields them.
- Laziness: the model builds one file's filtered rows as a sequence before the inner loop, where the script pulls them one by one. Since every record here is well formed, the two give the same file. They would differ on a run that aborts: in the script, a batch from a file flushed at line 37 before a bad record of that same file stays on disk, while building the file's rows first would fail before that flush. Aborting runs are not modelled.
- Python strings holding lone surrogates (`json.loads` turns `"\ud800"` into a one-code-point `str`): Dafny's Unicode `char` excludes surrogate code points, so such strings cannot be written down.
- The final value of `total_written` is only printed by the script; the model returns it from the method so that it can be stated.
- A full-buffer columnar writer: the script has no such code.
