/** What goes into a transcription and what comes out of it. */
module Transcription {
  type Sample = int

  datatype Options = Options(
    lang: string, task: string, notimestamps: bool, maxNewTokens: nat, beamSize: nat, suppressTokens: string)

  const NO_OPTIONS := Options("", "", false, 0, 0, "")

  datatype Segment = Segment(text: string, begin: real, end: real)
}
