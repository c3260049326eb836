/** What a handler writes with `res.status(code).json(body)`. */
module Http {
  import opened Wrappers
  import opened JsonValues

  /** A JSON reply object. A member whose value is `undefined` is left out of the JSON text,
      which `None` stands for; the order of the members is not modelled. */
  datatype Body = Body(
    message: Option<string>,
    data: Option<seq<Json>>,
    status: Option<string>,
    error: Option<string>)

  /** `{message: m}` and nothing else. */
  function MessageOnly(m: string): (b: Body)
    ensures b.message == Some(m) && b.data.None? && b.status.None? && b.error.None?
  {
    Body(Some(m), None, None, None)
  }

  /** An HTTP status code with its body. Express answers 200 unless `res.status` says otherwise. */
  datatype Reply = Reply(code: int, body: Body)
}
