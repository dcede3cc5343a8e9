/**
 * The ffprobe report as the core reads it. JSON text itself is not modelled: a report
 * either fails to unmarshal (`Malformed`, with the decoder's message) or decodes to the
 * fields the core reads. A missing `format.duration` decodes to "", as in Go.
 */
module FFProbe {

  datatype Stream = Stream(codecName: string)

  datatype ProbeData = ProbeData(formatDuration: string, streams: seq<Stream>)

  datatype ProbeJson = Malformed(msg: string) | Decoded(data: ProbeData)
}
