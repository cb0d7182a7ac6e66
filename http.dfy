/** The responses the handlers build with Hono's `c.text`, `c.json` and `c.redirect`. */
module Http {
  import opened JsValues

  datatype Response =
    | Text(status: int, body: string)
    | Json(status: int, value: JsValue)
    | Redirect(location: string, status: int)

  /** What a handler answers when it catches an error, and what Hono answers for an uncaught one. */
  const InternalServerError: Response := Text(500, "Internal Server Error")
  const Unauthorized: Response := Text(401, "Unauthorized")
  const BadRequest: Response := Text(400, "Bad Request")
  const OkText: Response := Text(200, "Ok")
}
