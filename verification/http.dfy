/** What a request-handling stage decides, shared by the two middlewares. */
module Http {
  import opened Models

  const StatusBadRequest := 400

  /** Either the request goes on to the next handler, carrying the request
      parameters stored in its context, or the stage answers it with a status
      and the next handler never runs. */
  datatype Decision = CallNext(params: Relationship) | Respond(status: int)
}
