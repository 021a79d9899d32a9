/** Values that cross the boundary of the answer pipeline: what the
    chat-completion client hands back, and what a query returns. */
module Interfaces {

  /** One reply of the chat-completion client: the first choice's message
      content, or the text of the exception the client raised. */
  datatype Reply = Ok(content: string) | Err(message: string)

  /** The chat-completion client seen from the pipeline: it is given the
      user prompt and answers with a Reply. Model name, temperature, token
      limit and the system message are fixed by the caller and have no
      observable effect here. */
  type Client = string -> Reply

  /** The dictionary `answer_with_sources` returns. */
  datatype AnswerResult = AnswerResult(question: string, answer: string, sources: seq<string>)

  /** A Python call that either returns a value or lets an exception escape. */
  datatype Outcome<T> = Returned(value: T) | Raised(error: string)
}
