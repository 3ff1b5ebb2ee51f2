/** The HTTP errors the two handlers of backend/main.py raise. */
module Http {

  datatype HttpError = HttpError(status: int, detail: string)

  /** Both handlers refuse to work without the provider credential. */
  const KeyNotSetDetail: string := "OpenAI API key environment variable not set."

  /** What the web framework answers when a handler raises an exception it
      does not catch. */
  const InternalErrorDetail: string := "Internal Server Error"
}
