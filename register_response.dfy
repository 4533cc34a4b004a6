/** The registration response body and its two builders. */
module RegisterResponses {
  import opened ErrorCodes

  datatype RegisterResponse = RegisterResponse(isSuccess: bool, errorCode: string, errorMessage: string)

  /** `RegisterResponse.success()`. */
  function SuccessResponse(): RegisterResponse
  {
    RegisterResponse(true, Success.Code(), Success.Message())
  }

  /** `RegisterResponse.fail(errorCode)`; nothing stops it being given
      SUCCESS. */
  function Fail(e: ErrorCode): RegisterResponse
  {
    RegisterResponse(false, e.Code(), e.Message())
  }

  /** The success body carries "0000" and SUCCESS's message. */
  lemma SuccessBody()
    ensures SuccessResponse().isSuccess
    ensures SuccessResponse().errorCode == "0000"
    ensures SuccessResponse().errorMessage == "성공적으로 처리되었습니다."
  {
  }

  /** A failure body copies the constant's code and message, never claims
      success, and determines the constant it was built from. */
  lemma FailBody(e: ErrorCode, e2: ErrorCode)
    ensures !Fail(e).isSuccess
    ensures Fail(e).errorCode == e.Code() && Fail(e).errorMessage == e.Message()
    ensures Fail(e) == Fail(e2) ==> e == e2
  {
  }

  /** Flag and code agree for every real failure: a failure body carries
      "0000" only when built from SUCCESS, which yields an unsuccessful
      body with the success code. */
  lemma FailCodeZeroOnlyForSuccess(e: ErrorCode)
    ensures Fail(e).errorCode == "0000" <==> e == Success
    ensures Fail(Success) == RegisterResponse(false, "0000", "성공적으로 처리되었습니다.")
  {
  }
}
