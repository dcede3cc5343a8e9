/**
 * Profiles and codec filters (internal/transcoding): the batch exclude filter's
 * `Matches` over probe data, the list of video extensions, and `Profile.Compile`.
 */
module Transcoding {
  import opened Wrappers
  import opened Text
  import opened FFProbe
  import opened FFmpegCmd

  /** `VideoExtensions`: the extensions a batch submission considers. */
  const VideoExtensions: seq<string> :=
    [".mp4", ".mkv", ".avi", ".mov", ".wmv", ".flv", ".webm", ".m4v", ".3gp", ".ts", ".mpg", ".mpeg"]

  /** Every listed extension is lower case and starts with a dot. */
  lemma VideoExtensionsWellFormed()
    ensures forall e :: e in VideoExtensions ==> |e| > 1 && e[0] == '.' && IsLower(e)
  {
  }

  datatype CodecFilter = CodecFilter(codecs: seq<string>)

  /**
   * A profile: its name, the encoder parameters and, as main.go uses it, an optional
   * filter that excludes files from batch submission.
   */
  datatype Profile = Profile(
    name: string,
    params: map<string, string>,
    batchExcludeFilter: Option<CodecFilter>)

  /**
   * `Probe`: the external probe's outcome, decoded. Either failure comes back wrapped
   * with the step that failed.
   */
  function Probe(external: Result<ProbeJson>): (r: Result<ProbeData>)
    ensures external.Err? ==> r == Err("failed to probe file: " + external.msg)
    ensures external.Ok? && external.value.Malformed? ==>
              r == Err("failed to unmarshal ffprobe data: " + external.value.msg)
    ensures external.Ok? && external.value.Decoded? ==> r == Ok(external.value.data)
  {
    match external
    case Err(e) => Err("failed to probe file: " + e)
    case Ok(Malformed(e)) => Err("failed to unmarshal ffprobe data: " + e)
    case Ok(Decoded(data)) => Ok(data)
  }

  /** Some configured codec is a substring of `codecName`. */
  function CodecMatches(codecName: string, codecs: seq<string>): (b: bool)
    ensures b <==> exists j :: 0 <= j < |codecs| && Contains(codecName, codecs[j])
  {
    if codecs == [] then false
    else Contains(codecName, codecs[0]) || CodecMatches(codecName, codecs[1..])
  }

  /** Some stream's codec name matches some configured codec. */
  function AnyStreamMatches(streams: seq<Stream>, codecs: seq<string>): (b: bool)
    ensures b <==> exists i :: 0 <= i < |streams| && CodecMatches(streams[i].codecName, codecs)
  {
    if streams == [] then false
    else CodecMatches(streams[0].codecName, codecs) || AnyStreamMatches(streams[1..], codecs)
  }

  datatype MatchOutcome = MatchOutcome(matched: bool, err: Option<string>)

  /**
   * `CodecFilter.Matches(path)`, given the probe's outcome for `path`: a probe failure is
   * `false` with the error wrapped once more; otherwise whether some stream's codec name
   * contains some configured codec.
   */
  function Matches(f: CodecFilter, external: Result<ProbeJson>): (r: MatchOutcome)
    ensures Probe(external).Err? ==>
              r == MatchOutcome(false, Some("failed to probe file: " + Probe(external).msg))
    ensures Probe(external).Ok? ==> r.err == None
    ensures Probe(external).Ok? ==>
              (r.matched <==> exists i, j :: 0 <= i < |Probe(external).value.streams| && 0 <= j < |f.codecs|
                                && Contains(Probe(external).value.streams[i].codecName, f.codecs[j]))
  {
    match Probe(external)
    case Err(e) => MatchOutcome(false, Some("failed to probe file: " + e))
    case Ok(data) => MatchOutcome(AnyStreamMatches(data.streams, f.codecs), None)
  }

  /** A filter with no codecs matches nothing. */
  lemma EmptyFilterNeverMatches(external: Result<ProbeJson>)
    ensures !Matches(CodecFilter([]), external).matched
  {
  }

  /** Neither the order of the streams nor that of the codecs affects the result. */
  lemma {:induction false} MatchIgnoresOrder(streams: seq<Stream>, streams': seq<Stream>,
                                             codecs: seq<string>, codecs': seq<string>)
    requires multiset(streams) == multiset(streams') && multiset(codecs) == multiset(codecs')
    ensures AnyStreamMatches(streams, codecs) == AnyStreamMatches(streams', codecs')
  {
    forall name: string
      ensures CodecMatches(name, codecs) == CodecMatches(name, codecs')
    {
      CodecMatchIgnoresOrder(name, codecs, codecs');
    }
    SameElements(streams, streams');
    if AnyStreamMatches(streams, codecs) {
      var i :| 0 <= i < |streams| && CodecMatches(streams[i].codecName, codecs);
      assert streams[i] in streams';
      var i' :| 0 <= i' < |streams'| && streams'[i'] == streams[i];
      assert CodecMatches(streams'[i'].codecName, codecs');
    }
    if AnyStreamMatches(streams', codecs') {
      var i' :| 0 <= i' < |streams'| && CodecMatches(streams'[i'].codecName, codecs');
      assert streams'[i'] in streams;
      var i :| 0 <= i < |streams| && streams[i] == streams'[i'];
      assert CodecMatches(streams[i].codecName, codecs);
    }
  }

  lemma CodecMatchIgnoresOrder(name: string, codecs: seq<string>, codecs': seq<string>)
    requires multiset(codecs) == multiset(codecs')
    ensures CodecMatches(name, codecs) == CodecMatches(name, codecs')
  {
    SameElements(codecs, codecs');
    if CodecMatches(name, codecs) {
      var j :| 0 <= j < |codecs| && Contains(name, codecs[j]);
      assert codecs[j] in codecs';
    }
    if CodecMatches(name, codecs') {
      var j :| 0 <= j < |codecs'| && Contains(name, codecs'[j]);
      assert codecs'[j] in codecs;
    }
  }

  /** Sequences with equal multisets hold the same elements. */
  lemma SameElements<T>(a: seq<T>, b: seq<T>)
    requires multiset(a) == multiset(b)
    ensures forall x :: x in a <==> x in b
  {
    forall x
      ensures x in a <==> x in b
    {
      assert x in a <==> x in multiset(a);
      assert x in b <==> x in multiset(b);
    }
  }

  /**
   * `Profile.Compile`: the output arguments start as `"map" -> "0"` and every entry of
   * `Params` is then written over them, so `Params` wins on a `"map"` key.
   */
  method Compile(p: Profile, input: string, output: string, progressSock: string)
    returns (inv: Invocation)
    ensures inv.input == input && inv.output == output
    ensures inv.args.Keys == p.params.Keys + {"map"}
    ensures forall k :: k in p.params ==> inv.args[k] == p.params[k]
    ensures "map" !in p.params ==> inv.args["map"] == "0"
    ensures inv.globalArgs == ProgressArgs(progressSock) && inv.overwrite
  {
    var args: map<string, string> := map["map" := "0"];
    var todo := p.params.Keys;
    while todo != {}
      invariant todo <= p.params.Keys
      invariant args.Keys == (p.params.Keys - todo) + {"map"}
      invariant forall k :: k in p.params.Keys - todo ==> args[k] == p.params[k]
      invariant "map" !in p.params.Keys - todo ==> args["map"] == "0"
      decreases todo
    {
      var k :| k in todo;
      args := args[k := p.params[k]];
      todo := todo - {k};
    }
    inv := Invocation(input, output, args, ProgressArgs(progressSock), true);
  }
}
