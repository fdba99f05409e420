/** What a request handler hands back to Flask: a JSON body or an error status. */
module Http {
  import Json

  datatype Response =
    /** 200 with the given JSON body. */
    | Ok(body: Json.Value)
    /** `{"error": error}` with the given status (400, 404 or 500). */
    | Fail(status: nat, error: string)
    /** 500 carrying the text of a Python exception caught by the handler's catch-all. */
    | InternalError
}
