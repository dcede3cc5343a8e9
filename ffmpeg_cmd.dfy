/**
 * The encoder invocation a profile compiles to, as the ffmpeg-go builder describes it:
 * `ffmpeg.Input(input).Output(output, args).GlobalArgs(...).OverWriteOutput()`.
 * How ffmpeg-go orders these into an argv is not modelled.
 */
module FFmpegCmd {

  datatype Invocation = Invocation(
    input: string,
    output: string,
    args: map<string, string>,
    globalArgs: seq<string>,
    overwrite: bool)

  /** The global arguments that point the encoder's `-progress` stream at a unix socket. */
  function ProgressArgs(progressSock: string): (g: seq<string>)
    ensures |g| == 2 && g[0] == "-progress" && g[1] == "unix://" + progressSock
  {
    ["-progress", "unix://" + progressSock]
  }
}
