/**
 * The progress channel: what the listener does with the `-progress` text the encoder
 * streams into its socket (internal/processor/ffmpeg.go, duplicated in process.go),
 * and how the probed duration is read (`probeDuration`).
 */
module Progress {
  import opened Wrappers
  import opened Text
  import opened Numbers
  import opened FFProbe

  const OutTimeKey: string := "out_time_ms="
  const EndSentinel: string := "progress=end"
  const MicrosPerSecond: real := 1000000.0

  /** A match of the pattern `out_time_ms=(\d+)` starts at `k`. */
  predicate MatchAt(data: string, k: int) {
    OccursAt(data, OutTimeKey, k) && k + |OutTimeKey| < |data| && IsDigit(data[k + |OutTimeKey|])
  }

  /** The digits captured by the match at `k`. */
  function Captured(data: string, k: int): (ds: string)
    requires MatchAt(data, k)
    ensures ds != [] && AllDigits(ds)
  {
    DigitRun(data[k + |OutTimeKey|..])
  }

  /** The start of the last match that begins before `n`. */
  function LastMatchBelow(data: string, n: nat): (r: Option<nat>)
    requires n <= |data|
    ensures r.Some? ==> r.value < n && MatchAt(data, r.value)
    ensures r.Some? ==> forall j :: r.value < j < n ==> !MatchAt(data, j)
    ensures r.None? ==> forall j :: 0 <= j < n ==> !MatchAt(data, j)
  {
    if n == 0 then None
    else if MatchAt(data, n - 1) then Some(n - 1)
    else LastMatchBelow(data, n - 1)
  }

  /**
   * Two matches never overlap: the second starts after the first one's digits end. So
   * the regexp's left-to-right, non-overlapping scan finds every `MatchAt` position, and
   * its last submatch is the one at the greatest such position.
   */
  lemma {:induction false} MatchesDoNotOverlap(data: string, i: int, j: int)
    requires MatchAt(data, i) && MatchAt(data, j) && i < j
    ensures j >= i + |OutTimeKey| + |Captured(data, i)|
  {
    assert data[j] == 'o' by { assert data[j..j + |OutTimeKey|][0] == data[j]; }
    var ds := Captured(data, i);
    assert data[i..i + |OutTimeKey|] == OutTimeKey;
    assert data[i + |OutTimeKey|..][..|ds|] == ds;
  }

  /**
   * The number the last `out_time_ms` match denotes, as `strconv.Atoi` returns it with
   * its error ignored: the digit value, clamped to MaxInt64 on overflow.
   */
  function LastOutTime(data: string): (c: Option<int>)
    ensures c.Some? ==> 0 <= c.value <= MaxInt64
    ensures c.None? <==> forall j :: 0 <= j < |data| ==> !MatchAt(data, j)
    ensures c.Some? ==> exists k :: IsLastMatch(data, k) && c.value == Clamp(DigitsValue(Captured(data, k)))
  {
    match LastMatchBelow(data, |data|)
    case None => None
    case Some(k) =>
      AtoiOfDigits(Captured(data, k));
      Some(Atoi(Captured(data, k)).value)
  }

  /** `k` is the start of the last match in `data`. */
  predicate IsLastMatch(data: string, k: int) {
    0 <= k < |data| && MatchAt(data, k) && forall j :: k < j < |data| ==> !MatchAt(data, j)
  }

  /** A non-negative number capped at MaxInt64. */
  function Clamp(n: nat): int {
    if n <= MaxInt64 then n else MaxInt64
  }

  /**
   * `float64(c) / totalDuration / 1000000` on exact reals. Go's zero divisor gives +Inf
   * (stored as 1 by the clamp) or NaN when `c` is also 0; the model reports 1 and 0.
   */
  function Ratio(c: int, totalDuration: real): real {
    if totalDuration == 0.0 then (if c > 0 then 1.0 else 0.0)
    else c as real / totalDuration / MicrosPerSecond
  }

  /** The value passed to the callback after the text so far is `data`. */
  function ParseProgress(data: string, totalDuration: real): (p: real)
    ensures Contains(data, EndSentinel) ==> p == 1.0
    ensures !Contains(data, EndSentinel) && LastOutTime(data).None? ==> p == 0.0
    ensures !Contains(data, EndSentinel) && LastOutTime(data).Some? && totalDuration != 0.0 ==>
              p == LastOutTime(data).value as real / totalDuration / MicrosPerSecond
  {
    var prog := match LastOutTime(data) case None => 0.0 case Some(c) => Ratio(c, totalDuration);
    if Contains(data, EndSentinel) then 1.0 else prog
  }

  /** Once the end sentinel has arrived, every later report is exactly 1. */
  lemma {:induction false} EndSentinelSticks(data: string, more: string, totalDuration: real)
    requires Contains(data, EndSentinel)
    ensures ParseProgress(data + more, totalDuration) == 1.0
  {
    ContainsIff(data, EndSentinel);
    var k :| OccursAt(data, EndSentinel, k);
    assert (data + more)[k..k + |EndSentinel|] == data[k..k + |EndSentinel|];
    assert OccursAt(data + more, EndSentinel, k);
    ContainsIff(data + more, EndSentinel);
  }

  /**
   * With a positive duration, a larger time value in a newer line gives a larger report
   * (until the end sentinel, which gives 1).
   */
  lemma RatioMonotone(c1: int, c2: int, totalDuration: real)
    requires c1 <= c2 && totalDuration > 0.0
    ensures Ratio(c1, totalDuration) <= Ratio(c2, totalDuration)
  {
    var q := totalDuration * MicrosPerSecond;
    assert Ratio(c1, totalDuration) == c1 as real / q;
    assert Ratio(c2, totalDuration) == c2 as real / q;
  }

  /** One `fd.Read` outcome: the text it appends to `data`, or an error (EOF included). */
  datatype ReadOutcome = Chunk(text: string) | ReadFailed

  /** How many outcomes succeed before the first failure. */
  function SuccessfulReads(outcomes: seq<ReadOutcome>): (n: nat)
    ensures n <= |outcomes|
    ensures forall i :: 0 <= i < n ==> outcomes[i].Chunk?
    ensures n < |outcomes| ==> outcomes[n].ReadFailed?
  {
    if outcomes == [] || outcomes[0].ReadFailed? then 0 else 1 + SuccessfulReads(outcomes[1..])
  }

  /** The accumulated `data` after the first `k` successful outcomes. */
  function Accumulated(outcomes: seq<ReadOutcome>, k: nat): string
    requires k <= |outcomes| && forall i :: 0 <= i < k ==> outcomes[i].Chunk?
  {
    if k == 0 then "" else Accumulated(outcomes, k - 1) + outcomes[k - 1].text
  }

  /** The accumulated text only grows: each earlier value is a prefix of each later one. */
  lemma {:induction false} AccumulatedGrows(outcomes: seq<ReadOutcome>, j: nat, k: nat)
    requires j <= k <= |outcomes| && forall i :: 0 <= i < k ==> outcomes[i].Chunk?
    ensures HasPrefix(Accumulated(outcomes, k), Accumulated(outcomes, j))
    decreases k
  {
    if j < k {
      AccumulatedGrows(outcomes, j, k - 1);
      var a := Accumulated(outcomes, k - 1);
      assert (a + outcomes[k - 1].text)[..|a|] == a;
    }
  }

  /**
   * The listener goroutine of `(*Processor).ffmpegProgressSock`: once a connection is
   * accepted, each successful read appends to `data` and reports the parsed progress;
   * the first failed read ends it. A failed accept reports nothing.
   */
  method ListenProgress(accepted: bool, outcomes: seq<ReadOutcome>, totalDuration: real)
    returns (reports: seq<real>)
    ensures !accepted ==> reports == []
    ensures accepted ==> |reports| == SuccessfulReads(outcomes)
    ensures accepted ==> forall i :: 0 <= i < |reports| ==>
              reports[i] == ParseProgress(Accumulated(outcomes, i + 1), totalDuration)
  {
    reports := [];
    if !accepted {
      return;
    }
    var data := "";
    var i := 0;
    while i < |outcomes| && outcomes[i].Chunk?
      invariant 0 <= i <= SuccessfulReads(outcomes)
      invariant data == Accumulated(outcomes, i)
      invariant |reports| == i
      invariant forall j :: 0 <= j < i ==>
                  reports[j] == ParseProgress(Accumulated(outcomes, j + 1), totalDuration)
    {
      data := data + outcomes[i].text;
      assert data == Accumulated(outcomes, i + 1);
      var r := ParseProgress(data, totalDuration);
      reports := reports + [r];
      i := i + 1;
    }
  }

  /**
   * `probeDuration`: the numeric value of `format.duration`; the decoder's error for a
   * report that does not unmarshal, and ParseFloat's error for a non-numeric duration.
   */
  function ProbeDuration(report: ProbeJson): (r: Result<real>)
    ensures report.Malformed? ==> r == Err(report.msg)
    ensures report.Decoded? ==> r == ParseFloat(report.data.formatDuration)
  {
    match report
    case Malformed(msg) => Err(msg)
    case Decoded(data) => ParseFloat(data.formatDuration)
  }

  /** A report whose duration is written as "w.f" yields exactly that number of seconds. */
  lemma ProbeDurationDecimal(ws: string, f: string, streams: seq<Stream>)
    requires ws != [] && AllDigits(ws) && AllDigits(f)
    ensures ProbeDuration(Decoded(ProbeData(ws + "." + f, streams)))
              == Ok(DigitsValue(ws) as real + Fraction(f))
  {
    ParseFloatDecimal(ws, f);
  }

  /** A report without a duration (decoded as "") fails. */
  lemma ProbeDurationMissing(streams: seq<Stream>)
    ensures ProbeDuration(Decoded(ProbeData("", streams))).Err?
  {
  }
}
