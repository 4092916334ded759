/** averaging_data.py: the candle records are cut into consecutive windows of five,
    and each window yields its last record, whose `close` is overwritten in place
    with the window's sum of closes divided by five. */
module AveragingData {
  import opened Common
  import opened Chunking

  /** `chunk_size`. */
  const ChunkSize: nat := 5

  /** A candle record as the fetcher writes it. The script only ever writes `close`. */
  class Candle {
    const time: int
    const open: real
    const high: real
    const low: real
    var close: real
    const volumeBase: real
    const volumeQuote: real

    constructor (time: int, open: real, high: real, low: real, close: real, volumeBase: real, volumeQuote: real)
      ensures this.time == time && this.open == open && this.high == high && this.low == low
      ensures this.close == close && this.volumeBase == volumeBase && this.volumeQuote == volumeQuote
    {
      this.time := time;
      this.open := open;
      this.high := high;
      this.low := low;
      this.close := close;
      this.volumeBase := volumeBase;
      this.volumeQuote := volumeQuote;
    }
  }

  /** The `close` fields of the records, in order. */
  function Closes(data: seq<Candle>): (closes: seq<real>)
    reads data
    ensures |closes| == |data|
    ensures forall i :: 0 <= i < |data| ==> closes[i] == data[i].close
  {
    if data == [] then [] else [data[0].close] + Closes(data[1..])
  }

  function SumReals(xs: seq<real>): real
  {
    if xs == [] then 0.0 else SumReals(xs[..|xs| - 1]) + xs[|xs| - 1]
  }

  /** The `close` each window yields as written: the window's sum over the nominal
      window size, also for a shorter final window. */
  function AveragedCloses(closes: seq<real>): (r: seq<real>)
    ensures |r| == |Chunks(closes, ChunkSize)|
    ensures forall k :: 0 <= k < |r| ==> r[k] * ChunkSize as real == SumReals(Chunks(closes, ChunkSize)[k])
  {
    var chunks := Chunks(closes, ChunkSize);
    seq(|chunks|, k requires 0 <= k < |chunks| => SumReals(chunks[k]) / ChunkSize as real)
  }

  /** The corrected average: the window's sum over the window's own length. */
  function MeanCloses(closes: seq<real>): (r: seq<real>)
    ensures |r| == |Chunks(closes, ChunkSize)|
    ensures forall k :: 0 <= k < |r| ==> r[k] * |Chunks(closes, ChunkSize)[k]| as real == SumReals(Chunks(closes, ChunkSize)[k])
  {
    var chunks := Chunks(closes, ChunkSize);
    seq(|chunks|, k requires 0 <= k < |chunks| => SumReals(chunks[k]) / |chunks[k]| as real)
  }

  lemma {:induction false} SumRealsBounds(xs: seq<real>, low: real, high: real)
    requires forall i :: 0 <= i < |xs| ==> low <= xs[i] <= high
    ensures |xs| as real * low <= SumReals(xs) <= |xs| as real * high
    decreases |xs|
  {
    if xs != [] {
      SumRealsBounds(xs[..|xs| - 1], low, high);
    }
  }

  lemma QuotientBounds(sum: real, n: real, low: real, high: real)
    requires n > 0.0
    requires n * low <= sum <= n * high
    ensures low <= sum / n <= high
  {
    var m := sum / n;
    assert m * n == sum;
  }

  /** A window's closes are closes of the input. */
  lemma ChunkWithin(closes: seq<real>, low: real, high: real, k: nat)
    requires forall i :: 0 <= i < |closes| ==> low <= closes[i] <= high
    requires k < |Chunks(closes, ChunkSize)|
    ensures var window := Chunks(closes, ChunkSize)[k];
            forall i :: 0 <= i < |window| ==> low <= window[i] <= high
  {
    ChunkAt(closes, ChunkSize, k);
  }

  /** Every corrected average lies between the lowest and the highest close of its
      window. */
  lemma MeanClosesBounded(closes: seq<real>, low: real, high: real, k: nat)
    requires forall i :: 0 <= i < |closes| ==> low <= closes[i] <= high
    requires k < |MeanCloses(closes)|
    ensures low <= MeanCloses(closes)[k] <= high
  {
    var window := Chunks(closes, ChunkSize)[k];
    ChunkWithin(closes, low, high, k);
    SumRealsBounds(window, low, high);
    QuotientBounds(SumReals(window), |window| as real, low, high);
  }

  /** On whole windows the two agree: the script divides by the window's true length
      whenever the record count is a multiple of five. */
  lemma WholeWindowsAgree(closes: seq<real>)
    requires |closes| % ChunkSize == 0
    ensures AveragedCloses(closes) == MeanCloses(closes)
  {
    forall k | 0 <= k < |Chunks(closes, ChunkSize)|
      ensures AveragedCloses(closes)[k] == MeanCloses(closes)[k]
    {
      FullWindow(closes, k);
    }
  }

  /** When the record count is a multiple of five, every window holds five records. */
  lemma FullWindow(closes: seq<real>, k: nat)
    requires |closes| % ChunkSize == 0
    requires k < |Chunks(closes, ChunkSize)|
    ensures |Chunks(closes, ChunkSize)[k]| == ChunkSize
  {
    var q := |Chunks(closes, ChunkSize)|;
    if k == q - 1 {
      ChunkBounds(closes, ChunkSize);
      ChunkAt(closes, ChunkSize, k);
      var m := |closes| / 5;
      assert |closes| == m * 5;
      assert k * 5 < m * 5 <= k * 5 + 5;
      assert m == k + 1;
    }
  }

  /** Five closes 1..5 average to 3. */
  lemma WholeWindowExample()
    ensures AveragedCloses([1.0, 2.0, 3.0, 4.0, 5.0]) == [3.0]
  {
    var closes := [1.0, 2.0, 3.0, 4.0, 5.0];
    assert Chunks(closes, ChunkSize) == [closes];
    assert [1.0][..0] == [];
    assert SumReals([1.0]) == 1.0;
    assert [1.0, 2.0][..1] == [1.0];
    assert SumReals([1.0, 2.0]) == 3.0;
    assert [1.0, 2.0, 3.0][..2] == [1.0, 2.0];
    assert SumReals([1.0, 2.0, 3.0]) == 6.0;
    assert [1.0, 2.0, 3.0, 4.0][..3] == [1.0, 2.0, 3.0];
    assert SumReals([1.0, 2.0, 3.0, 4.0]) == 10.0;
    assert closes[..4] == [1.0, 2.0, 3.0, 4.0];
    assert SumReals(closes) == 15.0;
  }

  /** Closes 1 and 2 form one short window, which yields 3 / 5. */
  lemma ShortWindowExample()
    ensures AveragedCloses([1.0, 2.0]) == [0.6]
  {
    var closes := [1.0, 2.0];
    assert Chunks(closes, ChunkSize) == [closes];
    assert [1.0][..0] == [];
    assert SumReals([1.0]) == 1.0;
    assert closes[..1] == [1.0];
    assert SumReals(closes) == 3.0;
  }

  /** As written, a shorter final window is divided by five: six equal closes of 1
      yield 1 and then 0.2, below every close of the window, where the mean is 1. */
  lemma ShortWindowSkewed()
    ensures AveragedCloses([1.0, 1.0, 1.0, 1.0, 1.0, 1.0]) == [1.0, 0.2]
    ensures MeanCloses([1.0, 1.0, 1.0, 1.0, 1.0, 1.0]) == [1.0, 1.0]
  {
    var closes := [1.0, 1.0, 1.0, 1.0, 1.0, 1.0];
    var first := [1.0, 1.0, 1.0, 1.0, 1.0];
    assert closes[..5] == first && closes[5..] == [1.0];
    assert Chunks(closes[5..], ChunkSize) == [[1.0]];
    assert Chunks(closes, ChunkSize) == [first, [1.0]];
    assert [1.0][..0] == [];
    assert SumReals([1.0]) == 1.0;
    assert [1.0, 1.0][..1] == [1.0];
    assert SumReals([1.0, 1.0]) == 2.0;
    assert [1.0, 1.0, 1.0][..2] == [1.0, 1.0];
    assert SumReals([1.0, 1.0, 1.0]) == 3.0;
    assert [1.0, 1.0, 1.0, 1.0][..3] == [1.0, 1.0, 1.0];
    assert SumReals([1.0, 1.0, 1.0, 1.0]) == 4.0;
    assert first[..4] == [1.0, 1.0, 1.0, 1.0];
    assert SumReals(first) == 5.0;
  }

  /** The inner loop of `run`: the sum of the window's closes and its last record. */
  method SumWindow(entryChunk: seq<Candle>) returns (summation: real, lastEntry: Candle)
    requires |entryChunk| > 0
    ensures summation == SumReals(Closes(entryChunk))
    ensures lastEntry == entryChunk[|entryChunk| - 1]
  {
    summation := 0.0;
    var last: Candle? := null;
    for j := 0 to |entryChunk|
      invariant summation == SumReals(Closes(entryChunk)[..j])
      invariant j > 0 ==> last == entryChunk[j - 1]
    {
      assert Closes(entryChunk)[..j + 1][..j] == Closes(entryChunk)[..j];
      summation := summation + entryChunk[j].close;
      last := entryChunk[j];
    }
    assert Closes(entryChunk)[..|entryChunk|] == Closes(entryChunk);
    lastEntry := last;
  }

  /** `run` without the file reads and writes: one record per window, in window
      order, which is the window's last record with its `close` replaced by the
      as-written average; no other record is changed. The records are distinct
      objects, as `json.load` creates them. */
  method Run(data: seq<Candle>) returns (result: seq<Candle>)
    requires forall i, j :: 0 <= i < j < |data| ==> data[i] != data[j]
    modifies data
    ensures |result| == |Chunks(data, ChunkSize)| == |AveragedCloses(old(Closes(data)))|
    ensures forall k :: 0 <= k < |result| ==> result[k] == Chunks(data, ChunkSize)[k][|Chunks(data, ChunkSize)[k]| - 1]
    ensures forall k :: 0 <= k < |result| ==> result[k].close == AveragedCloses(old(Closes(data)))[k]
    ensures forall i :: 0 <= i < |data| && data[i] !in result ==> data[i].close == old(data[i].close)
  {
    ghost var origin := Closes(data);
    var chunks := Chunks(data, ChunkSize);
    ChunkCount(data, origin, ChunkSize);
    result := [];
    for k := 0 to |chunks|
      invariant |result| == k
      invariant forall j :: 0 <= j < k ==> result[j] == chunks[j][|chunks[j]| - 1]
      invariant forall j :: 0 <= j < k ==> result[j].close == AveragedCloses(origin)[j]
      invariant forall i :: 0 <= i < |data| && data[i] !in result ==> data[i].close == origin[i]
    {
      var lastEntry := AverageWindow(data, origin, chunks, result, k);
      result := result + [lastEntry];
    }
  }

  /** One turn of the outer loop of `run`: the last record of window `k` gets the
      window's sum of closes over five, and no earlier result is touched. */
  method AverageWindow(data: seq<Candle>, ghost origin: seq<real>, chunks: seq<seq<Candle>>, result: seq<Candle>, k: nat)
    returns (lastEntry: Candle)
    requires forall i, j :: 0 <= i < j < |data| ==> data[i] != data[j]
    requires chunks == Chunks(data, ChunkSize) && |origin| == |data|
    requires k < |chunks| && |result| == k
    requires forall j :: 0 <= j < k ==> result[j] == chunks[j][|chunks[j]| - 1]
    requires forall i :: 0 <= i < |data| && data[i] !in result ==> data[i].close == origin[i]
    modifies data
    ensures lastEntry == chunks[k][|chunks[k]| - 1]
    ensures k < |AveragedCloses(origin)| && lastEntry.close == AveragedCloses(origin)[k]
    ensures forall j :: 0 <= j < k ==> result[j].close == old(result[j].close)
    ensures forall i :: 0 <= i < |data| && data[i] !in result + [lastEntry] ==> data[i].close == origin[i]
  {
    ghost var windows := Chunks(origin, ChunkSize);
    ChunkCount(data, origin, ChunkSize);
    var entryChunk := chunks[k];
    Untouched(data, chunks, result, k);
    forall i | 0 <= i < |entryChunk|
      ensures |windows[k]| == |entryChunk| && entryChunk[i].close == windows[k][i]
    {
      EntryAt(data, origin, k, i);
      assert entryChunk[i] in entryChunk;
    }
    assert Closes(entryChunk) == windows[k];
    var summation;
    summation, lastEntry := SumWindow(entryChunk);
    assert lastEntry in entryChunk;
    forall j | 0 <= j < k
      ensures result[j] != lastEntry
    {
      assert result[j] in result;
    }
    lastEntry.close := summation / ChunkSize as real;
    assert AveragedCloses(origin)[k] * ChunkSize as real == SumReals(windows[k]);
  }

  /** Record `i` of window `k` is record `k * ChunkSize + i` of the input, and the
      same position in a sequence of the same length. */
  lemma EntryAt<T, U>(s: seq<T>, t: seq<U>, k: nat, i: nat)
    requires |s| == |t|
    requires k < |Chunks(s, ChunkSize)| && i < |Chunks(s, ChunkSize)[k]|
    ensures k < |Chunks(t, ChunkSize)| && |Chunks(t, ChunkSize)[k]| == |Chunks(s, ChunkSize)[k]|
    ensures k * ChunkSize + i < |s|
    ensures Chunks(s, ChunkSize)[k][i] == s[k * ChunkSize + i]
    ensures Chunks(t, ChunkSize)[k][i] == t[k * ChunkSize + i]
  {
    ChunkCount(s, t, ChunkSize);
    ChunkAt(s, ChunkSize, k);
    ChunkAt(t, ChunkSize, k);
  }

  /** The records of window `k` are records of the input, and none of them is the
      last record of an earlier window. */
  lemma Untouched(data: seq<Candle>, chunks: seq<seq<Candle>>, result: seq<Candle>, k: nat)
    requires forall i, j :: 0 <= i < j < |data| ==> data[i] != data[j]
    requires chunks == Chunks(data, ChunkSize)
    requires k < |chunks| && |result| == k
    requires forall j :: 0 <= j < k ==> result[j] == chunks[j][|chunks[j]| - 1]
    ensures forall x :: x in chunks[k] ==> x in data && x !in result
  {
    ChunkMembers(data, ChunkSize, k);
    forall j | 0 <= j < k
      ensures result[j] !in chunks[k]
    {
      ChunksDisjoint(data, ChunkSize, j, k);
      assert result[j] in chunks[j];
    }
  }

  /** Up to five records form a single window. */
  lemma SingleWindow<T>(s: seq<T>)
    requires 0 < |s| <= ChunkSize
    ensures Chunks(s, ChunkSize) == [s]
  {
  }

  /** Two records form one short window: `run` yields the second record with close
      (1 + 2) / 5 = 0.6, and the first record keeps its close. */
  method AveragingScenario()
  {
    var c1 := new Candle(1, 0.0, 0.0, 0.0, 1.0, 0.0, 0.0);
    var c2 := new Candle(2, 0.0, 0.0, 0.0, 2.0, 0.0, 0.0);
    var data := [c1, c2];
    ghost var closes := Closes(data);
    assert closes == [1.0, 2.0];
    SingleWindow(data);
    ShortWindowExample();
    var result := Run(data);
    assert result == [c2];
    assert c2.close == AveragedCloses(closes)[0] == 0.6;
    assert c1 !in result && c1.close == 1.0;
  }

  /** No records, no output. */
  method EmptyAveragingScenario()
  {
    var result := Run([]);
    assert result == [];
  }
}
