/** The response of the evaluation endpoint: the mutable bean with its four fields, and the two
    shapes its constructors give it, as a value the pipeline returns. */
module Responses {
  import opened Wrappers

  /** The four fields of a response, as a serialiser reads them through the getters. */
  datatype ResponseFields = ResponseFields(result: bool, reason: Option<string>, success: bool, error: Option<string>)

  /** A response built by one of the two informative constructors: a boolean outcome with its
      explanation, or an error message. */
  datatype Response = Ok(result: bool, reason: string) | Err(error: string)
  {
    /** The fields an object built by the matching constructor holds: a caller gets an outcome or an
        error, never both and never neither, and `success` says which. */
    function View(): (f: ResponseFields)
      ensures f.success <==> Ok?
      ensures f.reason.Some? <==> Ok?
      ensures f.error.Some? <==> Err?
      ensures Err? ==> !f.result
      ensures Ok? ==> f.result == result && f.reason == Some(reason)
      ensures Err? ==> f.error == Some(error)
    {
      match this
      case Ok(result, reason) => ResponseFields(result, Some(reason), true, None)
      case Err(error) => ResponseFields(false, None, false, Some(error))
    }
  }

  /** The bean itself: constructors initialise the fields, setters overwrite one field each. */
  class DmnResponse {
    var result: bool
    var reason: Option<string>
    var success: bool
    var error: Option<string>

    function Fields(): ResponseFields
      reads this
    {
      ResponseFields(result, reason, success, error)
    }

    /** The no-argument constructor leaves every field at its Java default. */
    constructor ()
      ensures Fields() == ResponseFields(false, None, false, None)
    {
      result, reason, success, error := false, None, false, None;
    }

    /** The outcome constructor: success, no error, result and reason as given. */
    constructor FromResult(result: bool, reason: Option<string>)
      ensures Fields() == ResponseFields(result, reason, true, None)
      ensures reason.Some? ==> Fields() == Ok(result, reason.value).View()
    {
      this.result, this.reason, this.success, this.error := result, reason, true, None;
    }

    /** The error constructor: failure, result false, no reason, error as given. */
    constructor FromError(error: Option<string>)
      ensures Fields() == ResponseFields(false, None, false, error)
      ensures error.Some? ==> Fields() == Err(error.value).View()
    {
      this.result, this.reason, this.success, this.error := false, None, false, error;
    }

    function IsResult(): bool reads this { result }
    function GetReason(): Option<string> reads this { reason }
    function IsSuccess(): bool reads this { success }
    function GetError(): Option<string> reads this { error }

    method SetResult(result: bool)
      modifies this
      ensures IsResult() == result
      ensures Fields() == old(Fields()).(result := result)
    {
      this.result := result;
    }

    method SetReason(reason: Option<string>)
      modifies this
      ensures GetReason() == reason
      ensures Fields() == old(Fields()).(reason := reason)
    {
      this.reason := reason;
    }

    method SetSuccess(success: bool)
      modifies this
      ensures IsSuccess() == success
      ensures Fields() == old(Fields()).(success := success)
    {
      this.success := success;
    }

    method SetError(error: Option<string>)
      modifies this
      ensures GetError() == error
      ensures Fields() == old(Fields()).(error := error)
    {
      this.error := error;
    }
  }
}
