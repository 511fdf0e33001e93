/** batch_process_to_csv: the bounded-batch sink. Qualifying rows of every
    input file go into one `chunks` buffer that is never reset between
    files; a full buffer is appended to the CSV file, with the header only
    while nothing has been written yet; whatever remains after the last
    file is appended without a header. */
module CsvSink {
  import opened Records
  import opened RecordFilter

  /** The batch_size every caller in the script uses. */
  const DefaultBatchSize := 10000

  /** One line of the CSV file: the `prompt,answer` header or a data row. */
  datatype OutLine = Header | Data(row: Row)

  /** The buffer size at which a flush happens. `len(chunks) >= batch_size`
      is already true after one row when batch_size is 0 or negative, so
      such a batch size acts as 1. */
  function Cap(batchSize: int): (c: nat)
    ensures c >= 1
    ensures batchSize >= 1 ==> c == batchSize
    ensures batchSize < 1 ==> c == 1
  {
    if batchSize < 1 then 1 else batchSize
  }

  /** The flush test `len(chunks) >= batch_size`, asked of a buffer that
      has just received a row, holds exactly when the buffer has reached
      Cap(batchSize). */
  lemma FlushTestIsCap(n: int, batchSize: int)
    requires n >= 1
    ensures (n >= batchSize) == (n >= Cap(batchSize))
  {
  }

  /** The data lines of a block of rows, in order. */
  function DataLines(rows: seq<Row>): seq<OutLine>
  {
    seq(|rows|, k requires 0 <= k < |rows| => Data(rows[k]))
  }

  /** The data lines of a file, in order, header lines skipped. */
  function RowsOf(lines: seq<OutLine>): seq<Row>
  {
    if lines == [] then []
    else
      var last := lines[|lines| - 1];
      RowsOf(lines[..|lines| - 1]) + (if last.Data? then [last.row] else [])
  }

  /** What one run appends to the file, given every qualifying row in
      production order: a header only if some in-loop flush happened (at
      least Cap(batchSize) rows), then all rows. */
  function RunOutput(rows: seq<Row>, batchSize: int): (o: seq<OutLine>)
    ensures |rows| <= |o| <= |rows| + 1
    ensures |o| > |rows| ==> o[0] == Header
  {
    (if |rows| >= Cap(batchSize) then [Header] else []) + DataLines(rows)
  }

  lemma DataLinesAppend(a: seq<Row>, b: seq<Row>)
    ensures DataLines(a + b) == DataLines(a) + DataLines(b)
  {
  }

  lemma {:induction false} RowsOfAppend(a: seq<OutLine>, b: seq<OutLine>)
    ensures RowsOf(a + b) == RowsOf(a) + RowsOf(b)
  {
    if b == [] {
      assert a + b == a;
    } else {
      var n := |b| - 1;
      assert (a + b)[..|a + b| - 1] == a + b[..n];
      assert (a + b)[|a + b| - 1] == b[n];
      RowsOfAppend(a, b[..n]);
    }
  }

  /** Reading the data lines of a block back gives the block. */
  lemma {:induction false} RowsOfDataLines(rows: seq<Row>)
    ensures RowsOf(DataLines(rows)) == rows
  {
    if rows != [] {
      var n := |rows| - 1;
      var ls := DataLines(rows);
      assert ls[..|ls| - 1] == DataLines(rows[..n]);
      RowsOfDataLines(rows[..n]);
      assert rows[..n] + [rows[n]] == rows;
    }
  }

  /** The data rows a run appends are exactly the qualifying rows in
      production order, whatever the batch size. */
  lemma RunOutputRows(rows: seq<Row>, batchSize: int)
    ensures RowsOf(RunOutput(rows, batchSize)) == rows
  {
    var h: seq<OutLine> := if |rows| >= Cap(batchSize) then [Header] else [];
    RowsOfAppend(h, DataLines(rows));
    RowsOfDataLines(rows);
    assert h != [] ==> h[..0] == [];
  }

  /** Batching does not change the rows a run writes: two batch sizes give
      the same data rows, and outputs differ at most by a leading header. */
  lemma BatchSizeOnlyMovesHeader(rows: seq<Row>, b1: int, b2: int)
    ensures RowsOf(RunOutput(rows, b1)) == RowsOf(RunOutput(rows, b2))
    ensures RunOutput(rows, b1) == RunOutput(rows, b2)
            || RunOutput(rows, b1) == [Header] + RunOutput(rows, b2)
            || [Header] + RunOutput(rows, b1) == RunOutput(rows, b2)
  {
    RunOutputRows(rows, b1);
    RunOutputRows(rows, b2);
  }

  /** Where a header can appear: at most once, only as the first line a
      run appends, and only if at least Cap(batchSize) rows qualify. A run
      with no qualifying row appends nothing. */
  lemma HeaderPlacement(rows: seq<Row>, batchSize: int)
    ensures forall k :: 0 <= k < |RunOutput(rows, batchSize)| && RunOutput(rows, batchSize)[k] == Header ==> k == 0
    ensures Header in RunOutput(rows, batchSize) <==> |rows| >= Cap(batchSize)
    ensures |RunOutput(rows, batchSize)| == |rows| + (if |rows| >= Cap(batchSize) then 1 else 0)
    ensures rows == [] ==> RunOutput(rows, batchSize) == []
  {
  }

  /** Seven qualifying rows: batch size 3 starts the output with a header,
      batch size 10 writes the same seven rows with none. */
  lemma SevenRows(rows: seq<Row>)
    requires |rows| == 7
    ensures RunOutput(rows, 3) == [Header] + DataLines(rows)
    ensures RunOutput(rows, 10) == DataLines(rows)
    ensures RowsOf(RunOutput(rows, 3)) == RowsOf(RunOutput(rows, 10)) == rows
  {
    RunOutputRows(rows, 3);
    RunOutputRows(rows, 10);
  }

  /** At the script's default batch size, a run with 1 to 9999 qualifying
      rows writes them without any header; from 10000 rows on, the first
      line appended is the header. */
  lemma DefaultBatchSizeHeader(rows: seq<Row>)
    ensures 0 < |rows| < DefaultBatchSize ==>
              Header !in RunOutput(rows, DefaultBatchSize) && RunOutput(rows, DefaultBatchSize) != []
    ensures |rows| >= DefaultBatchSize ==> RunOutput(rows, DefaultBatchSize)[0] == Header
    ensures RowsOf(RunOutput(rows, DefaultBatchSize)) == rows
  {
    HeaderPlacement(rows, DefaultBatchSize);
    RunOutputRows(rows, DefaultBatchSize);
  }

  /** End to end: reading back the data rows a run appends gives the
      filter applied to every record of every file, in file order and then
      line order, for any batch size. */
  lemma RunRowsAreFilteredStream(files: seq<seq<RawRecord>>, batchSize: int)
    ensures RowsOf(RunOutput(FilterFiles(files, DefaultLimits), batchSize))
            == FilterRecords(Concat(files), DefaultLimits)
  {
    RunOutputRows(FilterFiles(files, DefaultLimits), batchSize);
    FilterFilesIsFilterOfConcat(files, DefaultLimits);
  }

  /** The CSV file on disk, opened in append mode at every flush: its
      contents as a sequence of lines. Earlier contents stay in front. */
  class CsvFile {
    ghost var lines: seq<OutLine>

    constructor (prior: seq<OutLine>)
      ensures lines == prior
    {
      lines := prior;
    }

    /** `pd.DataFrame(rows).to_csv(path, mode="a", header=header, index=False)`:
        the header line if asked for, then one data line per row. */
    method Append(rows: seq<Row>, header: bool)
      modifies this
      ensures lines == old(lines) + (if header then [Header] else []) + DataLines(rows)
    {
      lines := lines + (if header then [Header] else []) + DataLines(rows);
    }
  }

  /** The number of rows in `flushes` full batches of `c` rows, counted
      batch by batch as the script adds `len(df_chunk)`. */
  function Batches(flushes: nat, c: nat): nat
  {
    if flushes == 0 then 0 else Batches(flushes - 1, c) + c
  }

  /** Counted batch by batch, the rows flushed are a multiple of the batch
      size. */
  lemma {:induction false} BatchesIsMultiple(flushes: nat, c: nat)
    ensures Batches(flushes, c) == flushes * c
  {
    if flushes > 0 {
      BatchesIsMultiple(flushes - 1, c);
    }
  }

  /** Appending rows to a run's output: when the extra rows do not change
      whether a header is due, they go after the existing lines. */
  lemma RunOutputExtend(a: seq<Row>, b: seq<Row>, batchSize: int)
    requires (|a| >= Cap(batchSize)) == (|a| + |b| >= Cap(batchSize))
    ensures RunOutput(a + b, batchSize) == RunOutput(a, batchSize) + DataLines(b)
  {
    DataLinesAppend(a, b);
  }

  /** The invariant at every item boundary, for the rows `processed` so far:
      they are the rows already `flushed` followed by the buffer `chunks`,
      which is below the flush size; `total` counts the flushed rows, which
      are `flushes` whole batches; and the file holds `prior` followed by
      what a run over just the flushed rows would append: the header iff
      something was flushed, then the flushed rows in order. */
  ghost predicate Flushed(prior: seq<OutLine>, lines: seq<OutLine>, processed: seq<Row>, flushed: seq<Row>,
                          chunks: seq<Row>, total: nat, flushes: nat, batchSize: int)
  {
    && |chunks| < Cap(batchSize)
    && processed == flushed + chunks
    && total == |flushed| == Batches(flushes, Cap(batchSize))
    && lines == prior + RunOutput(flushed, batchSize)
  }

  /** One qualifying row that leaves the buffer below batch_size. */
  lemma BufferStep(prior: seq<OutLine>, lines: seq<OutLine>, processed: seq<Row>, flushed: seq<Row>,
                   chunks: seq<Row>, total: nat, flushes: nat, batchSize: int, item: Row)
    requires Flushed(prior, lines, processed, flushed, chunks, total, flushes, batchSize)
    requires |chunks| + 1 < batchSize
    ensures Flushed(prior, lines, processed + [item], flushed, chunks + [item], total, flushes, batchSize)
  {
  }

  /** One qualifying row that fills the buffer: the flush appends it, with
      the header iff nothing was written before, and empties it. */
  lemma FlushStep(prior: seq<OutLine>, lines: seq<OutLine>, processed: seq<Row>, flushed: seq<Row>,
                  chunks: seq<Row>, total: nat, flushes: nat, batchSize: int, item: Row)
    requires Flushed(prior, lines, processed, flushed, chunks, total, flushes, batchSize)
    requires |chunks| + 1 >= batchSize
    ensures Flushed(prior, lines + (if total == 0 then [Header] else []) + DataLines(chunks + [item]),
                    processed + [item], flushed + (chunks + [item]), [],
                    total + |chunks + [item]|, flushes + 1, batchSize)
  {
    var buf := chunks + [item];
    var c := Cap(batchSize);
    assert |buf| == c;
    if total == 0 {
      assert flushed == [] && flushed + buf == buf;
    } else {
      WholeBatches(flushes, c, total, 0);
      RunOutputExtend(flushed, buf, batchSize);
    }
  }

  /** `flushes` full batches plus a partial one below the capacity reach
      the capacity iff at least one batch was flushed. */
  lemma WholeBatches(flushes: nat, c: nat, total: nat, rest: nat)
    requires c >= 1 && rest < c && total == Batches(flushes, c)
    ensures total > 0 <==> total + rest >= c
  {
  }

  lemma PrefixStep(before: seq<Row>, s: seq<Row>, j: nat)
    requires j < |s|
    ensures before + s[..j + 1] == (before + s[..j]) + [s[j]]
  {
    assert s[..j + 1] == s[..j] + [s[j]];
  }

  /** After the last file: appending the remaining buffer without a header
      completes the run's output; with an empty buffer it is complete
      already. */
  lemma FinalFlush(prior: seq<OutLine>, lines: seq<OutLine>, rows: seq<Row>, flushed: seq<Row>,
                   chunks: seq<Row>, total: nat, flushes: nat, batchSize: int)
    requires Flushed(prior, lines, rows, flushed, chunks, total, flushes, batchSize)
    ensures lines + DataLines(chunks) == prior + RunOutput(rows, batchSize)
    ensures chunks == [] ==> lines == prior + RunOutput(rows, batchSize)
    ensures total + |chunks| == |rows|
  {
    WholeBatches(flushes, Cap(batchSize), total, |chunks|);
    RunOutputExtend(flushed, chunks, batchSize);
    assert chunks == [] ==> rows == flushed && DataLines(chunks) == [];
  }

  /** The inner loop of the run over one file's filtered rows: each row
      joins the buffer, and a buffer that reaches batch_size is appended
      (with the header iff nothing was written yet) and cleared. The buffer
      and the counter come in from the previous file and go on to the next. */
  method FeedFile(rows: seq<Row>, out: CsvFile, batchSize: int, chunks0: seq<Row>, total0: nat,
                  ghost prior: seq<OutLine>, ghost before: seq<Row>, ghost flushed0: seq<Row>, ghost flushes0: nat)
    returns (chunks: seq<Row>, totalWritten: nat, ghost flushed: seq<Row>, ghost flushes: nat)
    requires Flushed(prior, out.lines, before, flushed0, chunks0, total0, flushes0, batchSize)
    modifies out
    ensures Flushed(prior, out.lines, before + rows, flushed, chunks, totalWritten, flushes, batchSize)
  {
    chunks, totalWritten, flushed, flushes := chunks0, total0, flushed0, flushes0;
    for j := 0 to |rows|
      invariant Flushed(prior, out.lines, before + rows[..j], flushed, chunks, totalWritten, flushes, batchSize)
    {
      var item := rows[j];
      ghost var processed, lines, buffered := before + rows[..j], out.lines, chunks;
      PrefixStep(before, rows, j);
      chunks := chunks + [item];
      if |chunks| >= batchSize {
        FlushStep(prior, lines, processed, flushed, buffered, totalWritten, flushes, batchSize, item);
        out.Append(chunks, totalWritten == 0);
        totalWritten := totalWritten + |chunks|;
        flushed, flushes := flushed + chunks, flushes + 1;
        chunks := [];
      } else {
        BufferStep(prior, lines, processed, flushed, buffered, totalWritten, flushes, batchSize, item);
      }
    }
    assert rows[..|rows|] == rows;
  }

  /** The whole run. `files` are the already parsed input files in the order
      given; `out` is the CSV file. Returns the final value of the
      script's `total_written` counter. */
  method BatchProcessToCsv(files: seq<seq<RawRecord>>, out: CsvFile, batchSize: int)
    returns (totalWritten: nat)
    modifies out
    ensures out.lines == old(out.lines) + RunOutput(FilterFiles(files, DefaultLimits), batchSize)
    ensures totalWritten == |FilterFiles(files, DefaultLimits)|
  {
    ghost var prior := out.lines;
    ghost var flushed: seq<Row> := [];
    ghost var flushes: nat := 0;
    var chunks: seq<Row> := [];
    totalWritten := 0;
    for i := 0 to |files|
      invariant Flushed(prior, out.lines, FilterFiles(files[..i], DefaultLimits), flushed,
                        chunks, totalWritten, flushes, batchSize)
    {
      ghost var before := FilterFiles(files[..i], DefaultLimits);
      var filtered := FilterRecords(files[i], DefaultLimits);
      chunks, totalWritten, flushed, flushes :=
        FeedFile(filtered, out, batchSize, chunks, totalWritten, prior, before, flushed, flushes);
      FilterFilesStep(files, i, DefaultLimits);
    }
    assert files[..|files|] == files;
    FinalFlush(prior, out.lines, FilterFiles(files, DefaultLimits), flushed, chunks, totalWritten, flushes, batchSize);
    if |chunks| > 0 {
      out.Append(chunks, false);
      totalWritten := totalWritten + |chunks|;
    }
  }
}
