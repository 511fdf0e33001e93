/** filter_and_yield: a lazy filter-map from raw records to rows. The
    generator mutates nothing, so it is modelled as a function on sequences;
    the recursion takes off the last record, so that processing one more
    record appends at the end, as the generator does. */
module RecordFilter {
  import opened Records

  /** The rows the generator yields for `rs`, in order. Every row it
      yields passes the length tests, and it yields no more rows than it
      reads records. */
  function FilterRecords(rs: seq<RawRecord>, lim: Limits): (out: seq<Row>)
    ensures |out| <= |rs|
    ensures forall k :: 0 <= k < |out| ==> Fits(out[k], lim)
  {
    if rs == [] then []
    else
      var last := rs[|rs| - 1];
      FilterRecords(rs[..|rs| - 1], lim) + (if Keeps(last, lim) then [Transform(last)] else [])
  }

  /** The positions of the qualifying records, in ascending order. */
  function KeptIndices(rs: seq<RawRecord>, lim: Limits): seq<nat>
  {
    if rs == [] then []
    else
      var n := |rs| - 1;
      KeptIndices(rs[..n], lim) + (if Keeps(rs[n], lim) then [n] else [])
  }

  /** KeptIndices lists qualifying positions only, in range and strictly
      ascending. */
  lemma {:induction false} KeptIndicesSound(rs: seq<RawRecord>, lim: Limits)
    ensures forall k :: 0 <= k < |KeptIndices(rs, lim)| ==>
              KeptIndices(rs, lim)[k] < |rs| && Keeps(rs[KeptIndices(rs, lim)[k]], lim)
    ensures forall k, l :: 0 <= k < l < |KeptIndices(rs, lim)| ==>
              KeptIndices(rs, lim)[k] < KeptIndices(rs, lim)[l]
  {
    if rs != [] {
      var n := |rs| - 1;
      var front := rs[..n];
      KeptIndicesSound(front, lim);
      var idx := KeptIndices(front, lim);
      var all := idx + (if Keeps(rs[n], lim) then [n] else []);
      assert KeptIndices(rs, lim) == all;
      forall k | 0 <= k < |all| ensures all[k] < |rs| && Keeps(rs[all[k]], lim) {
        if k < |idx| {
          assert all[k] == idx[k] && front[idx[k]] == rs[idx[k]];
        }
      }
    }
  }

  /** KeptIndices misses no qualifying position. */
  lemma {:induction false} KeptIndicesComplete(rs: seq<RawRecord>, lim: Limits)
    ensures forall i :: 0 <= i < |rs| && Keeps(rs[i], lim) ==> i in KeptIndices(rs, lim)
  {
    if rs != [] {
      var n := |rs| - 1;
      var front := rs[..n];
      KeptIndicesComplete(front, lim);
      var idx := KeptIndices(front, lim);
      var all := idx + (if Keeps(rs[n], lim) then [n] else []);
      assert KeptIndices(rs, lim) == all;
      forall i | 0 <= i < |rs| && Keeps(rs[i], lim) ensures i in all {
        if i < n {
          assert front[i] == rs[i];
        }
      }
    }
  }

  /** The filter's output is exactly the transform of the qualifying
      records, one row per record, in input order. */
  lemma {:induction false} FilterIsSelection(rs: seq<RawRecord>, lim: Limits)
    ensures |FilterRecords(rs, lim)| == |KeptIndices(rs, lim)|
    ensures forall k :: 0 <= k < |KeptIndices(rs, lim)| ==>
              KeptIndices(rs, lim)[k] < |rs| &&
              FilterRecords(rs, lim)[k] == Transform(rs[KeptIndices(rs, lim)[k]])
  {
    KeptIndicesSound(rs, lim);
    if rs != [] {
      var n := |rs| - 1;
      var front := rs[..n];
      FilterIsSelection(front, lim);
      var idx, out := KeptIndices(front, lim), FilterRecords(front, lim);
      var keep := Keeps(rs[n], lim);
      assert KeptIndices(rs, lim) == idx + (if keep then [n] else []);
      assert FilterRecords(rs, lim) == out + (if keep then [Transform(rs[n])] else []);
      forall k | 0 <= k < |idx| ensures rs[idx[k]] == front[idx[k]] { }
    }
  }

  /** A row is emitted iff some record qualifies and transforms to it. */
  lemma FilterMembership(rs: seq<RawRecord>, lim: Limits, row: Row)
    ensures row in FilterRecords(rs, lim) <==>
            exists i :: 0 <= i < |rs| && Keeps(rs[i], lim) && Transform(rs[i]) == row
  {
    FilterIsSelection(rs, lim);
    KeptIndicesSound(rs, lim);
    KeptIndicesComplete(rs, lim);
    var out, idx := FilterRecords(rs, lim), KeptIndices(rs, lim);
    if row in out {
      var k :| 0 <= k < |out| && out[k] == row;
      assert Keeps(rs[idx[k]], lim) && Transform(rs[idx[k]]) == row;
    }
    if i :| 0 <= i < |rs| && Keeps(rs[i], lim) && Transform(rs[i]) == row {
      assert i in idx;
      var k :| 0 <= k < |idx| && idx[k] == i;
      assert out[k] == row;
    }
  }

  /** The decision on one record: kept unchanged-but-transformed iff both
      inclusive range tests pass. */
  lemma SingleRecord(r: RawRecord, lim: Limits)
    ensures FilterRecords([r], lim) ==
            if lim.minPrompt <= |r.instruction| + |InputText(r.input)| <= lim.maxLen
               && lim.minAnswer <= |r.output| <= lim.maxLen
            then [Row(r.instruction + InputText(r.input), r.output)]
            else []
  {
    assert [r][..0] == [];
  }

  /** Filtering distributes over concatenation: the filter looks at each
      record on its own, so a stream may be split anywhere. */
  lemma {:induction false} FilterAppend(a: seq<RawRecord>, b: seq<RawRecord>, lim: Limits)
    ensures FilterRecords(a + b, lim) == FilterRecords(a, lim) + FilterRecords(b, lim)
  {
    if b == [] {
      assert a + b == a;
    } else {
      var n := |b| - 1;
      assert (a + b)[..|a + b| - 1] == a + b[..n];
      assert (a + b)[|a + b| - 1] == b[n];
      FilterAppend(a, b[..n], lim);
    }
  }

  /** The records of all files, in file order and then line order. */
  function Concat(files: seq<seq<RawRecord>>): seq<RawRecord>
  {
    if files == [] then [] else Concat(files[..|files| - 1]) + files[|files| - 1]
  }

  /** The rows of all files: each file filtered on its own, the results
      joined in file order, as the script consumes one generator per file. */
  function FilterFiles(files: seq<seq<RawRecord>>, lim: Limits): (out: seq<Row>)
    ensures |out| <= |Concat(files)|
    ensures forall k :: 0 <= k < |out| ==> Fits(out[k], lim)
  {
    if files == [] then []
    else FilterFiles(files[..|files| - 1], lim) + FilterRecords(files[|files| - 1], lim)
  }

  /** One more file: its rows follow those of the files before it. */
  lemma FilterFilesStep(files: seq<seq<RawRecord>>, i: nat, lim: Limits)
    requires i < |files|
    ensures FilterFiles(files[..i + 1], lim) == FilterFiles(files[..i], lim) + FilterRecords(files[i], lim)
  {
    assert files[..i + 1][..i] == files[..i];
  }

  /** Filtering file by file gives the same rows as filtering the joined
      stream, so file boundaries do not affect which rows come out or
      their order. */
  lemma {:induction false} FilterFilesIsFilterOfConcat(files: seq<seq<RawRecord>>, lim: Limits)
    ensures FilterFiles(files, lim) == FilterRecords(Concat(files), lim)
  {
    if files != [] {
      var n := |files| - 1;
      FilterFilesIsFilterOfConcat(files[..n], lim);
      FilterAppend(Concat(files[..n]), files[n], lim);
    }
  }

  /** The number of rows over all files equals the number of qualifying
      records over all files. */
  lemma FilterFilesCount(files: seq<seq<RawRecord>>, lim: Limits)
    ensures |FilterFiles(files, lim)| == |KeptIndices(Concat(files), lim)|
  {
    FilterFilesIsFilterOfConcat(files, lim);
    FilterIsSelection(Concat(files), lim);
  }

  /** The two sample lines: the first qualifies (23 and 30 characters),
      the second is dropped (a 2-character prompt). */
  lemma SampleLines()
    ensures FilterRecords([RawRecord("Explain gravity briefly", Some(""), "Gravity pulls masses together."),
                           RawRecord("Hi", None, "No")], DefaultLimits)
            == [Row("Explain gravity briefly", "Gravity pulls masses together.")]
  {
    var r1 := RawRecord("Explain gravity briefly", Some(""), "Gravity pulls masses together.");
    var r2 := RawRecord("Hi", None, "No");
    var rs := [r1, r2];
    assert |Prompt(r1)| == 23 && |r1.output| == 30;
    assert |Prompt(r2)| == 2;
    assert Keeps(r1, DefaultLimits) && !Keeps(r2, DefaultLimits);
    assert rs[..1] == [r1];
    assert [r1][..0] == [];
    assert r1.instruction + "" == r1.instruction;
    assert FilterRecords([r1], DefaultLimits) == [Transform(r1)];
    assert FilterRecords(rs, DefaultLimits) == FilterRecords([r1], DefaultLimits);
  }
}
