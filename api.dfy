/**
 * The envelope every admin and IM endpoint answers with, and the list
 * result the console's ProTable request handlers hand back to the table.
 */
module Api {
  import opened Optional
  import opened JsText

  /**
   * What awaiting one request gives the page: the server's envelope
   * `{errCode, errMsg, data}`, or an exception (a transport failure or an
   * HTTP error status, which the request library throws).
   */
  datatype Reply<T> = Answered(errCode: int, errMsg: string, data: T) | Threw(message: string)
  {
    predicate Succeeded()
    {
      Answered? && errCode == 0
    }
  }

  /** One page of a list endpoint: `data.<items>` and `data.total`, either possibly missing. */
  datatype Page<T> = Page(items: Option<seq<T>>, total: Option<int>)

  /** `{data, success, total}`, the value a ProTable `request` handler resolves to. */
  datatype ListResult<T> = ListResult(data: seq<T>, success: bool, total: int)

  /** `current || 1` and `pageSize || 10`: a missing or zero page field falls back to the default. */
  function PageField(v: Option<int>, fallback: int): (r: int)
    ensures v.Some? && v.value != 0 ==> r == v.value
    ensures v.None? || v.value == 0 ==> r == fallback
  {
    if v.Some? && v.value != 0 then v.value else fallback
  }

  /**
   * The common list handler: on `errCode === 0` the rows are
   * `data.<items> || []` and the total `data.total || 0`; on any other
   * code, on an exception, and when a successful envelope has no `data`
   * object to read (a TypeError caught by the same handler), the table
   * gets `{data: [], success: false, total: 0}`.
   */
  function ToListResult<T>(reply: Reply<Option<Page<T>>>): (r: ListResult<T>)
    ensures r.success <==> reply.Succeeded() && reply.data.Some?
    ensures r.success ==> r.data == reply.data.value.items.GetOr([]) && r.total == reply.data.value.total.GetOr(0)
    ensures !r.success ==> r.data == [] && r.total == 0
  {
    if reply.Succeeded() && reply.data.Some? then
      ListResult(reply.data.value.items.GetOr([]), true, reply.data.value.total.GetOr(0))
    else
      ListResult([], false, 0)
  }

  /**
   * The notice a write request ends with: the success text on
   * `errCode === 0`, `errMsg || failure` on any other code, and the failure
   * text with a plea to retry when the request threw.
   */
  function RequestNotice<T>(reply: Reply<T>, success: string, failure: string): (notice: string)
    ensures reply.Succeeded() ==> notice == success
    ensures reply.Answered? && reply.errCode != 0 ==> notice == Or(reply.errMsg, failure)
    ensures reply.Threw? ==> notice == failure + "，请重试"
  {
    match reply
    case Threw(_) => failure + "，请重试"
    case Answered(code, msg, _) => if code == 0 then success else Or(msg, failure)
  }
}
