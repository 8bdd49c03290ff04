/** The language-model providers the pages call, seen from the caller: a call
    either answers with text or fails. The Python pages call Google's Gemini
    models through `google.generativeai` (`gemini-pro` in the two Suno pages,
    `gemini-1.5-flash` in the Gemini page); the React page posts to
    Anthropic's messages endpoint. */
module Provider {

  /** What a provider call gives back: the model's text, or the message of the
      exception it raised (`str(e)` in Python, the rejected promise in
      JavaScript). */
  datatype Reply = Reply(text: string) | Failure(message: string)
}
