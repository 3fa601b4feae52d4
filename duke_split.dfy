/** `DUKE_Dataset3D.load_split`: the split manifest as a data frame, its
    fold and split filters and the optional fractional sample. */
module DukeSplit {
  import opened Common

  /** One manifest row: the columns `UID`, `Fold`, `Split` and `Malignant`. */
  datatype Row = Row(uid: string, fold: int, split: string, malignant: int)

  /** A frame row: its index label and its values. */
  datatype Entry = Entry(index: int, row: Row)

  type Frame = seq<Entry>

  function Labels(df: Frame): (ls: seq<int>)
    ensures |ls| == |df|
    ensures forall i :: 0 <= i < |df| ==> ls[i] == df[i].index
  {
    seq(|df|, i requires 0 <= i < |df| => df[i].index)
  }

  function Rows(df: Frame): (rs: seq<Row>)
    ensures |rs| == |df|
    ensures forall i :: 0 <= i < |df| ==> rs[i] == df[i].row
  {
    seq(|df|, i requires 0 <= i < |df| => df[i].row)
  }

  /** Index labels strictly increase down the frame, so they are distinct. */
  predicate Increasing(df: Frame) {
    forall i, j :: 0 <= i < j < |df| ==> df[i].index < df[j].index
  }

  /** `pd.read_csv`: the rows in file order under the default index 0..n-1. */
  function ReadCsv(rows: seq<Row>): (df: Frame)
    ensures |df| == |rows|
    ensures forall i :: 0 <= i < |df| ==> df[i] == Entry(i, rows[i])
  {
    seq(|rows|, i requires 0 <= i < |rows| => Entry(i, rows[i]))
  }

  /** `df[mask]`: the rows whose values satisfy `keep`, in their order. */
  function Where(df: Frame, keep: Row -> bool): (r: Frame)
    ensures |r| <= |df|
    ensures forall e :: e in r <==> e in df && keep(e.row)
    decreases |df|
  {
    if df == [] then []
    else (if keep(df[0].row) then [df[0]] else []) + Where(df[1..], keep)
  }

  function FoldIs(fold: int): Row -> bool {
    (row: Row) => row.fold == fold
  }

  function SplitIs(split: string): Row -> bool {
    (row: Row) => row.split == split
  }

  /** `a` can be obtained from `b` by deleting entries. */
  predicate Subsequence(a: Frame, b: Frame)
    decreases |b|
  {
    if a == [] then true
    else if b == [] then false
    else (a[0] == b[0] && Subsequence(a[1..], b[1..])) || Subsequence(a, b[1..])
  }

  /** Filtering only deletes rows: the survivors keep their relative order. */
  lemma {:induction false} WhereSubsequence(df: Frame, keep: Row -> bool)
    ensures Subsequence(Where(df, keep), df)
    decreases |df|
  {
    if df != [] {
      WhereSubsequence(df[1..], keep);
      if keep(df[0].row) {
        assert Where(df, keep)[1..] == Where(df[1..], keep);
      } else {
        assert Where(df, keep) == Where(df[1..], keep);
      }
    }
  }

  /** A filter that every row passes changes nothing. */
  lemma {:induction false} WhereAll(df: Frame, keep: Row -> bool)
    requires forall i :: 0 <= i < |df| ==> keep(df[i].row)
    ensures Where(df, keep) == df
    decreases |df|
  {
    if df != [] {
      WhereAll(df[1..], keep);
    }
  }

  lemma TailIncreasing(df: Frame)
    requires df != [] && Increasing(df)
    ensures Increasing(df[1..])
    ensures forall i :: 0 <= i < |df[1..]| ==> df[0].index < df[1..][i].index
  {
    var tail := df[1..];
    forall i, j | 0 <= i < j < |tail| ensures tail[i].index < tail[j].index {
      assert tail[i] == df[i + 1] && tail[j] == df[j + 1];
    }
    forall i | 0 <= i < |tail| ensures df[0].index < tail[i].index {
      assert tail[i] == df[i + 1];
    }
  }

  lemma ConsIncreasing(e: Entry, rest: Frame)
    requires Increasing(rest)
    requires forall i :: 0 <= i < |rest| ==> e.index < rest[i].index
    ensures Increasing([e] + rest)
  {
    var r := [e] + rest;
    forall i, j | 0 <= i < j < |r| ensures r[i].index < r[j].index {
      assert r[j] == rest[j - 1];
      if i > 0 { assert r[i] == rest[i - 1]; }
    }
  }

  /** Deleting rows keeps increasing labels increasing. */
  lemma {:induction false} WhereKeepsIncreasing(df: Frame, keep: Row -> bool)
    requires Increasing(df)
    ensures Increasing(Where(df, keep))
    decreases |df|
  {
    if df != [] {
      var tail := df[1..];
      TailIncreasing(df);
      WhereKeepsIncreasing(tail, keep);
      var rest := Where(tail, keep);
      if keep(df[0].row) {
        forall i | 0 <= i < |rest| ensures df[0].index < rest[i].index {
          assert rest[i] in tail;
        }
        ConsIncreasing(df[0], rest);
        assert Where(df, keep) == [df[0]] + rest;
      } else {
        assert Where(df, keep) == rest;
      }
    }
  }

  /** The fold filter, then the split filter when a split is given. */
  function FoldAndSplit(df: Frame, fold: int, split: Option<string>): (r: Frame)
    ensures forall e :: e in r <==>
      e in df && e.row.fold == fold && (split.Some? ==> e.row.split == split.value)
    ensures split.None? ==> r == Where(df, FoldIs(fold))
  {
    var byFold := Where(df, FoldIs(fold));
    if split.Some? then Where(byFold, SplitIs(split.value)) else byFold
  }

  /** The fold and split filters keep the order of the manifest. */
  lemma FoldAndSplitSubsequence(df: Frame, fold: int, split: Option<string>)
    ensures Subsequence(FoldAndSplit(df, fold, split), df)
  {
    var byFold := Where(df, FoldIs(fold));
    WhereSubsequence(df, FoldIs(fold));
    if split.Some? {
      WhereSubsequence(byFold, SplitIs(split.value));
      SubsequenceTransitive(Where(byFold, SplitIs(split.value)), byFold, df);
    }
  }

  lemma {:induction false} SubsequenceTransitive(a: Frame, b: Frame, c: Frame)
    requires Subsequence(a, b) && Subsequence(b, c)
    ensures Subsequence(a, c)
    decreases |c|
  {
    if a != [] && c != [] {
      if b[0] == c[0] && Subsequence(b[1..], c[1..]) {
        if a[0] == b[0] && Subsequence(a[1..], b[1..]) {
          SubsequenceTransitive(a[1..], b[1..], c[1..]);
        } else {
          SubsequenceTransitive(a, b[1..], c[1..]);
        }
      } else {
        SubsequenceTransitive(a, b, c[1..]);
      }
    }
  }

  /** Applying the same fold and split filters again changes nothing. */
  lemma FoldAndSplitIdempotent(df: Frame, fold: int, split: Option<string>)
    ensures FoldAndSplit(FoldAndSplit(df, fold, split), fold, split) == FoldAndSplit(df, fold, split)
  {
    var once := FoldAndSplit(df, fold, split);
    assert forall i :: 0 <= i < |once| ==> FoldIs(fold)(once[i].row) by {
      assert forall i :: 0 <= i < |once| ==> once[i] in once;
    }
    WhereAll(once, FoldIs(fold));
    if split.Some? {
      assert forall i :: 0 <= i < |once| ==> SplitIs(split.value)(once[i].row) by {
        assert forall i :: 0 <= i < |once| ==> once[i] in once;
      }
      WhereAll(once, SplitIs(split.value));
    }
  }

  /** What `df.sample(frac=fraction, random_state=0)` draws: distinct
      positions of the filtered frame. The draw itself is not modelled. */
  predicate ValidSample(picks: seq<nat>, n: nat) {
    (forall i :: 0 <= i < |picks| ==> picks[i] < n) &&
    (forall i, j :: 0 <= i < j < |picks| ==> picks[i] != picks[j])
  }

  /** `df.sample(...).reset_index()`: the drawn rows under a fresh 0..n-1 index. */
  function SampleAndReset(df: Frame, picks: seq<nat>): (r: Frame)
    requires ValidSample(picks, |df|)
    ensures |r| == |picks| <= |df|
    ensures forall i :: 0 <= i < |r| ==> r[i] == Entry(i, df[picks[i]].row)
  {
    DistinctPicksFit(picks, |df|);
    seq(|picks|, i requires 0 <= i < |picks| => Entry(i, df[picks[i]].row))
  }

  /** Distinct positions below `n` are at most `n` many. */
  lemma DistinctPicksFit(picks: seq<nat>, n: nat)
    requires ValidSample(picks, n)
    ensures |picks| <= n
  {
    var all: seq<nat> := seq(n, i requires 0 <= i < n => i);
    var positions := set i | 0 <= i < |picks| :: picks[i];
    var range := set i | 0 <= i < |all| :: all[i];
    SetOfDistinct(picks);
    SetOfDistinct(all);
    assert positions <= range by {
      forall x | x in positions ensures x in range {
        var i :| 0 <= i < |picks| && picks[i] == x;
        assert all[x] == x;
      }
    }
    assert range == positions + (range - positions);
  }

  /** A sequence without repetitions has as many distinct elements as entries. */
  lemma {:induction false} SetOfDistinct(s: seq<nat>)
    requires forall i, j :: 0 <= i < j < |s| ==> s[i] != s[j]
    ensures |set i | 0 <= i < |s| :: s[i]| == |s|
    decreases |s|
  {
    if s != [] {
      var last := |s| - 1;
      var init := s[..last];
      SetOfDistinct(init);
      assert (set i | 0 <= i < |s| :: s[i]) == (set i | 0 <= i < |init| :: init[i]) + {s[last]};
      assert s[last] !in (set i | 0 <= i < |init| :: init[i]);
    }
  }

  /** `load_split(csv, fold, split, fraction)` over the manifest's rows;
      `picks` is the sample `df.sample` draws when a fraction is given. */
  function LoadSplit(rows: seq<Row>, fold: int, split: Option<string>,
                     fraction: Option<real>, picks: seq<nat>): (r: Frame)
    requires fraction.Some? ==> ValidSample(picks, |FoldAndSplit(ReadCsv(rows), fold, split)|)
    ensures Increasing(r)
    ensures fraction.None? ==> r == FoldAndSplit(ReadCsv(rows), fold, split)
    ensures fraction.Some? ==> r == SampleAndReset(FoldAndSplit(ReadCsv(rows), fold, split), picks)
  {
    var df := FoldAndSplit(ReadCsv(rows), fold, split);
    if fraction.Some? then SampleAndReset(df, picks)
    else
      LoadSplitIncreasing(rows, fold, split);
      df
  }

  lemma LoadSplitIncreasing(rows: seq<Row>, fold: int, split: Option<string>)
    ensures Increasing(FoldAndSplit(ReadCsv(rows), fold, split))
  {
    var df := ReadCsv(rows);
    WhereKeepsIncreasing(df, FoldIs(fold));
    if split.Some? {
      WhereKeepsIncreasing(Where(df, FoldIs(fold)), SplitIs(split.value));
    }
  }

  /** Without a fraction, `load_split` keeps exactly the manifest rows of
      the fold (and of the split, when one is given), each under its
      original position as label, in manifest order. */
  lemma LoadSplitFilters(rows: seq<Row>, fold: int, split: Option<string>, picks: seq<nat>)
    ensures var r := LoadSplit(rows, fold, split, None, picks);
      (forall i :: 0 <= i < |r| ==>
         0 <= r[i].index < |rows| && rows[r[i].index] == r[i].row &&
         r[i].row.fold == fold && (split.Some? ==> r[i].row.split == split.value)) &&
      (forall k :: 0 <= k < |rows| && rows[k].fold == fold && (split.Some? ==> rows[k].split == split.value) ==>
         Entry(k, rows[k]) in r) &&
      Subsequence(r, ReadCsv(rows))
  {
    var df := ReadCsv(rows);
    var r := LoadSplit(rows, fold, split, None, picks);
    FoldAndSplitSubsequence(df, fold, split);
    forall i | 0 <= i < |r|
      ensures 0 <= r[i].index < |rows| && rows[r[i].index] == r[i].row
    {
      assert r[i] in r;
      var k :| 0 <= k < |df| && df[k] == r[i];
    }
    forall k | 0 <= k < |rows| && rows[k].fold == fold && (split.Some? ==> rows[k].split == split.value)
      ensures Entry(k, rows[k]) in r
    {
      assert df[k] == Entry(k, rows[k]);
    }
  }

  /** With a fraction, `load_split` returns rows of the filtered frame taken
      from distinct positions, renumbered 0..n-1. */
  lemma LoadSplitSample(rows: seq<Row>, fold: int, split: Option<string>, fraction: real, picks: seq<nat>)
    requires ValidSample(picks, |FoldAndSplit(ReadCsv(rows), fold, split)|)
    ensures |LoadSplit(rows, fold, split, Some(fraction), picks)| <= |FoldAndSplit(ReadCsv(rows), fold, split)|
    ensures forall i :: 0 <= i < |picks| ==> LoadSplit(rows, fold, split, Some(fraction), picks)[i].index == i
    ensures forall i :: 0 <= i < |picks| ==>
      LoadSplit(rows, fold, split, Some(fraction), picks)[i].row in Rows(FoldAndSplit(ReadCsv(rows), fold, split))
    ensures forall i, j :: 0 <= i < j < |picks| ==>
      FoldAndSplit(ReadCsv(rows), fold, split)[picks[i]] != FoldAndSplit(ReadCsv(rows), fold, split)[picks[j]]
  {
    var filtered := FoldAndSplit(ReadCsv(rows), fold, split);
    var r := LoadSplit(rows, fold, split, Some(fraction), picks);
    LoadSplitIncreasing(rows, fold, split);
    forall i | 0 <= i < |picks| ensures r[i].row in Rows(filtered) {
      assert Rows(filtered)[picks[i]] == r[i].row;
    }
    forall i, j | 0 <= i < j < |r| ensures filtered[picks[i]] != filtered[picks[j]] {
      if picks[i] < picks[j] {
        assert filtered[picks[i]].index < filtered[picks[j]].index;
      } else {
        assert filtered[picks[j]].index < filtered[picks[i]].index;
      }
    }
  }
}
