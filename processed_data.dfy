/** `app.Data.ProcessedDataObject`, a record built by the classifier from
    `(x, y, prominentEmotion, emotionScores)`; either of the last two may be `null`. */
module Samples {
  import opened Wrappers
  import opened JavaInt
  import opened Emotions

  datatype ProcessedData = ProcessedData(
    x: int32,
    y: int32,
    prominentEmotion: Option<Emotion>,
    emotionScores: Option<seq<real>>)
}
