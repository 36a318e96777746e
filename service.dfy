/**
 * The inference service's answer to one POST, as the program sees it. The
 * HTTP exchange itself is not modelled: its outcome is a parameter.
 */
module Service {
  import opened Wrappers

  /**
   * Either the service answered with an HTTP status and a JSON body whose
   * 'response' field may be missing, or the HTTP library raised (connection
   * refused, timeout, a body that is not JSON) with the given message.
   */
  datatype Reply = Answered(status: int, response: Option<string>) | Raised(message: string)

  /** `response.json().get('response', '') if response.status_code == 200 else None` */
  function ResponseText(reply: Reply): (r: Option<string>)
    ensures r.Some? <==> reply.Answered? && reply.status == 200
    ensures r.Some? && reply.response.Some? ==> r.value == reply.response.value
  {
    match reply
    case Answered(status, response) => if status == 200 then Some(response.GetOr("")) else None
    case Raised(_) => None
  }
}
