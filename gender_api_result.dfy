/** What a lookup returns normally: the closed sum of the two record shapes. */
module GenderApiResult {
  import opened GenderSuccessResponse
  import opened GenderErrorResponse

  datatype GenderApiResult = Success(success: SuccessResponse) | Error(error: ErrorResponse) {

    /** `isStatus()` of whichever record this is. */
    function IsStatus(): (b: bool)
      ensures Success? ==> b == success.status
      ensures Error? ==> b == error.status
    {
      match this
      case Success(s) => s.status
      case Error(e) => e.status
    }
  }
}
