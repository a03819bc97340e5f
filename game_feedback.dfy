/** The "correct" / "wrong" flag the mini-games show after an answer; `None` while answering. */
module GameFeedback {
  datatype Feedback = Correct | Wrong
}
