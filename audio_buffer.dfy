/** The view of a `juce::AudioBuffer<float>` that the engine and the processor work on: a
    two-dimensional array indexed `[channel, sample]`, read either frame by frame (one
    sample of every channel) or channel by channel, and the peak-magnitude accumulation
    both of them perform over it. */
module AudioBuffer {
  import opened Numerics

  /** The buffer as a sequence of frames, one per sample index, each holding one value per
      channel; `FramesEntries` gives `Frames(a)[s][ch] == a[ch, s]`. */
  ghost function Frames(a: array2<real>): (frames: seq<seq<real>>)
    reads a
    ensures |frames| == a.Length1
  {
    FramesUpTo(a, a.Length1)
  }

  /** The first `n` frames. */
  ghost function FramesUpTo(a: array2<real>, n: nat): (frames: seq<seq<real>>)
    requires n <= a.Length1
    reads a
    ensures |frames| == n
  {
    if n == 0 then [] else FramesUpTo(a, n - 1) + [Column(a, n - 1, a.Length0)]
  }

  /** The first `n` channels of sample `s`. */
  ghost function Column(a: array2<real>, s: nat, n: nat): (column: seq<real>)
    requires s < a.Length1 && n <= a.Length0
    reads a
    ensures |column| == n
  {
    if n == 0 then [] else Column(a, s, n - 1) + [a[n - 1, s]]
  }

  lemma {:induction false} ColumnEntries(a: array2<real>, s: nat, n: nat)
    requires s < a.Length1 && n <= a.Length0
    ensures forall ch :: 0 <= ch < n ==> Column(a, s, n)[ch] == a[ch, s]
  {
    if n > 0 {
      ColumnEntries(a, s, n - 1);
    }
  }

  lemma {:induction false} FramesUpToEntries(a: array2<real>, n: nat)
    requires n <= a.Length1
    ensures forall s :: 0 <= s < n ==> FramesUpTo(a, n)[s] == Column(a, s, a.Length0)
  {
    if n > 0 {
      FramesUpToEntries(a, n - 1);
    }
  }

  /** Frame `s` holds sample `s` of every channel, in channel order. */
  lemma FramesEntries(a: array2<real>)
    ensures forall s :: 0 <= s < a.Length1 ==> |Frames(a)[s]| == a.Length0
    ensures forall s, ch :: 0 <= s < a.Length1 && 0 <= ch < a.Length0 ==> Frames(a)[s][ch] == a[ch, s]
  {
    FramesUpToEntries(a, a.Length1);
    forall s | 0 <= s < a.Length1
      ensures forall ch :: 0 <= ch < a.Length0 ==> Frames(a)[s][ch] == a[ch, s]
    {
      ColumnEntries(a, s, a.Length0);
    }
  }

  /** Two views of a buffer agree when they agree sample by sample. */
  lemma FramesEqual(a: array2<real>, frames: seq<seq<real>>)
    requires |frames| == a.Length1
    requires forall s :: 0 <= s < a.Length1 ==> |frames[s]| == a.Length0
    requires forall s, ch :: 0 <= s < a.Length1 && 0 <= ch < a.Length0 ==> frames[s][ch] == a[ch, s]
    ensures Frames(a) == frames
  {
    FramesEntries(a);
    forall s | 0 <= s < a.Length1
      ensures Frames(a)[s] == frames[s]
    {
      assert forall ch :: 0 <= ch < a.Length0 ==> Frames(a)[s][ch] == frames[s][ch];
    }
  }

  /** The first `count` channels of the buffer, each as a sequence of samples;
      `ChannelsEntries` gives `Channels(a, count)[ch][i] == a[ch, i]`. */
  ghost function Channels(a: array2<real>, count: nat): (rows: seq<seq<real>>)
    requires count <= a.Length0
    reads a
    ensures |rows| == count
  {
    if count == 0 then [] else Channels(a, count - 1) + [Row(a, count - 1, a.Length1)]
  }

  /** The first `n` samples of channel `ch`. */
  ghost function Row(a: array2<real>, ch: nat, n: nat): (row: seq<real>)
    requires ch < a.Length0 && n <= a.Length1
    reads a
    ensures |row| == n
  {
    if n == 0 then [] else Row(a, ch, n - 1) + [a[ch, n - 1]]
  }

  lemma {:induction false} RowEntries(a: array2<real>, ch: nat, n: nat)
    requires ch < a.Length0 && n <= a.Length1
    ensures forall i :: 0 <= i < n ==> Row(a, ch, n)[i] == a[ch, i]
  {
    if n > 0 {
      RowEntries(a, ch, n - 1);
    }
  }

  /** Row `ch` holds channel `ch`, in sample order. */
  lemma {:induction false} ChannelsEntries(a: array2<real>, count: nat)
    requires count <= a.Length0
    ensures forall ch :: 0 <= ch < count ==> |Channels(a, count)[ch]| == a.Length1
    ensures forall ch, i :: 0 <= ch < count && 0 <= i < a.Length1 ==> Channels(a, count)[ch][i] == a[ch, i]
  {
    if count > 0 {
      ChannelsEntries(a, count - 1);
      RowEntries(a, count - 1, a.Length1);
    }
  }

  /** The rows of an array that agree entry by entry with `rows`. */
  lemma ChannelsEqual(a: array2<real>, count: nat, rows: seq<seq<real>>)
    requires count <= a.Length0 && |rows| == count
    requires forall ch :: 0 <= ch < count ==> |rows[ch]| == a.Length1
    requires forall ch, i :: 0 <= ch < count && 0 <= i < a.Length1 ==> rows[ch][i] == a[ch, i]
    ensures Channels(a, count) == rows
  {
    ChannelsEntries(a, count);
    forall ch | 0 <= ch < count
      ensures Channels(a, count)[ch] == rows[ch]
    {
    }
  }

  /** The running maximum of `|x|` over a row, scanned left to right from 0. */
  function RowPeak(row: seq<real>): (r: real)
    ensures r >= 0.0
  {
    if |row| == 0 then 0.0 else Max(RowPeak(row[..|row| - 1]), Abs(row[|row| - 1]))
  }

  /** The running maximum of `|x|` over all rows, scanned row by row from 0: the value the
      engine's `maxOutput` and the processor's `maxInput` end with. */
  function PeakAbs(rows: seq<seq<real>>): (r: real)
    ensures r >= 0.0
  {
    if |rows| == 0 then 0.0 else Max(PeakAbs(rows[..|rows| - 1]), RowPeak(rows[|rows| - 1]))
  }

  lemma {:induction false} RowPeakIsMaximum(row: seq<real>)
    ensures RowPeak(row) >= 0.0
    ensures forall i :: 0 <= i < |row| ==> Abs(row[i]) <= RowPeak(row)
    ensures RowPeak(row) == 0.0 || exists i :: 0 <= i < |row| && RowPeak(row) == Abs(row[i])
  {
    if |row| > 0 {
      var prefix := row[..|row| - 1];
      RowPeakIsMaximum(prefix);
      assert forall i :: 0 <= i < |prefix| ==> prefix[i] == row[i];
      if RowPeak(row) != 0.0 && RowPeak(row) != Abs(row[|row| - 1]) {
        var i :| 0 <= i < |prefix| && RowPeak(prefix) == Abs(prefix[i]);
        assert RowPeak(row) == Abs(row[i]);
      }
    }
  }

  /** The peak is the largest magnitude in the buffer: nonnegative, at least every
      `|x|`, and either 0 (silence or no samples) or attained by some sample. */
  lemma {:induction false} PeakAbsIsMaximum(rows: seq<seq<real>>)
    ensures PeakAbs(rows) >= 0.0
    ensures forall r, i :: 0 <= r < |rows| && 0 <= i < |rows[r]| ==> Abs(rows[r][i]) <= PeakAbs(rows)
    ensures PeakAbs(rows) == 0.0 ||
            exists r, i :: 0 <= r < |rows| && 0 <= i < |rows[r]| && PeakAbs(rows) == Abs(rows[r][i])
  {
    if |rows| > 0 {
      var prefix, last := rows[..|rows| - 1], rows[|rows| - 1];
      PeakAbsIsMaximum(prefix);
      RowPeakIsMaximum(last);
      assert forall r :: 0 <= r < |prefix| ==> prefix[r] == rows[r];
      if PeakAbs(rows) != 0.0 {
        if PeakAbs(rows) == RowPeak(last) {
          var i :| 0 <= i < |last| && RowPeak(last) == Abs(last[i]);
          assert PeakAbs(rows) == Abs(rows[|rows| - 1][i]);
        } else {
          var r, i :| 0 <= r < |prefix| && 0 <= i < |prefix[r]| && PeakAbs(prefix) == Abs(prefix[r][i]);
          assert PeakAbs(rows) == Abs(rows[r][i]);
        }
      }
    }
  }
}
