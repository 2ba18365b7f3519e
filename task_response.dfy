/** cd/go/task/qt/TaskResponse.java: the result record of one task execution. */
module Response {
  import opened JavaText
  import opened JavaRuntime

  /** DefaultGoApiResponse.SUCCESS_RESPONSE_CODE */
  const SUCCESS_RESPONSE_CODE: int := 200
  /** DefaultGoApiResponse.INTERNAL_ERROR */
  const INTERNAL_ERROR: int := 500

  /** The three final fields; the Java constructor is private, so values come from the factories below. */
  datatype TaskResponse = TaskResponse(success: bool, message: Option<string>, throwable: Option<Throwable>)

  /** TaskResponse.success(message) */
  function Success(message: Option<string>): (r: TaskResponse)
    ensures r.success && r.message == message && r.throwable == None
    ensures ResponseCode(r) == SUCCESS_RESPONSE_CODE
  {
    TaskResponse(true, message, None)
  }

  /** TaskResponse.failure(message) */
  function Failure(message: Option<string>): (r: TaskResponse)
    ensures !r.success && r.message == message && r.throwable == None
    ensures ResponseCode(r) == INTERNAL_ERROR
  {
    TaskResponse(false, message, None)
  }

  /** TaskResponse.failure(throwable, message) */
  function FailureWith(t: Throwable, message: Option<string>): (r: TaskResponse)
    ensures !r.success && r.message == message && r.throwable == Some(t)
    ensures ResponseCode(r) == INTERNAL_ERROR
  {
    TaskResponse(false, message, Some(t))
  }

  /** responseCode(): the success code exactly for successful responses, the internal-error code otherwise. */
  function ResponseCode(r: TaskResponse): (code: int)
    ensures code == SUCCESS_RESPONSE_CODE <==> r.success
    ensures code == INTERNAL_ERROR <==> !r.success
  {
    if r.success then SUCCESS_RESPONSE_CODE else INTERNAL_ERROR
  }
}
