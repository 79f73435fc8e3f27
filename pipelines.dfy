/**
 * The shapes of the outputs of the machine-learning libraries the services
 * call. The libraries themselves are not modelled: their outputs are inputs
 * of the model.
 */
module Pipelines {

  /** One `{"label": name, "score": score}` entry of a text-classification pipeline's output. */
  datatype LabelScore = LabelScore(name: string, score: real)

  /** VADER's `polarity_scores(text)`: `pos`, `neg`, `neu` and `compound`. */
  datatype VaderScores = VaderScores(pos: real, neg: real, neu: real, compound: real)

  /** TextBlob's `sentiment`: polarity and subjectivity. */
  datatype BlobSentiment = BlobSentiment(polarity: real, subjectivity: real)
}
