/**
 * The reply of an HTTP-triggered function (`res.status(code).send(body)`; a bare
 * `res.send(body)` answers 200).
 */
module Http {
  datatype Response = Response(status: int, body: string)
}
