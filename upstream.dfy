/** What a query to the hosted database answers, with the query itself left abstract. */
module Upstream {
  import opened Wrappers
  import opened Json

  /**
   * `Success` is `{ data, count }` with no error (either may be `null`); `Failure` is a
   * reply whose `error` is set; `Threw` is a call that threw instead of answering.
   */
  datatype Reply =
    | Success(data: Option<seq<Record>>, count: Option<int>)
    | Failure(message: string)
    | Threw(message: string)

  /** `count || 0`. */
  function CountOrZero(count: Option<int>): (n: int)
    ensures count.Some? && count.value != 0 ==> n == count.value
    ensures count.None? || count.value == 0 ==> n == 0
  {
    match count
    case Some(c) => c
    case None => 0
  }

  /** `data || []`. */
  function RowsOrEmpty(data: Option<seq<Record>>): seq<Record> {
    data.GetOr([])
  }
}
