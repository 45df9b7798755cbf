/** What the gateway exchanges with its callers and with the remote services.
    The services themselves are not modelled: a call is a function from the
    request the gateway builds to the outcome the service produces. */
module Backends {
  import opened Text

  /** FastAPI's `HTTPException(status_code, detail)`. */
  datatype HttpError = HttpError(status: int, detail: string)

  /** What a `try` block can catch: an `HTTPException`, or any other exception with its `str(e)`. */
  datatype Exception = HttpException(error: HttpError) | OtherException(message: string)

  /** The outcome of one remote call: the text it returned, or the message of what it raised. */
  datatype BackendOutcome = Returned(content: string) | Raised(message: string)

  /** The arguments of `client.chat.completions.create(...)`: the model, the
      system and user messages, and `max_tokens` (the fixed temperature 0.3 is
      left out). */
  datatype ChatRequest = ChatRequest(model: string, system: string, user: string, maxTokens: int)

  /** A chat-completion service: given a request, what happens. */
  type ChatService = ChatRequest -> BackendOutcome

  /** The "model not found" test both chat callers apply to an error message:
      "NOT_FOUND" as written, or "not found" in any letter case. */
  predicate MentionsNotFound(message: string) {
    Contains(message, "NOT_FOUND") || Contains(Lower(message), "not found")
  }

  /** "not found" is recognised in any letter case, wherever it stands. */
  lemma NotFoundInAnyCase(pre: string, word: string, post: string)
    requires Lower(word) == "not found"
    ensures MentionsNotFound(pre + word + post)
  {
    LowerAppend(pre + word, post);
    LowerAppend(pre, word);
    ContainsInfix(Lower(pre), "not found", Lower(post));
  }

  /** "NOT_FOUND" is recognised as written, wherever it stands. */
  lemma NotFoundTokenAnywhere(pre: string, post: string)
    ensures MentionsNotFound(pre + "NOT_FOUND" + post)
  {
    ContainsInfix(pre, "NOT_FOUND", post);
  }
}
