/** What a handler sends back: a status code and a JSON body. */
module Http {

  /** The JSON bodies the handlers send: `{ message }`, `{ errors }` or `{ error }`. */
  datatype Body = Message(message: string) | Errors(errors: seq<string>) | Error(error: string)

  datatype Response = Response(status: int, body: Body)

  /** A rejected request body: Joi stops at the first failing key (abortEarly),
      so the list holds exactly one entry, which the model represents by that key. */
  function ValidationFailed(key: string): Response
  {
    Response(400, Errors([key]))
  }
}
