/**
 * ServiceError (packages/service/types/index.ts): an `Error` whose
 * constructor fills in a name, a status code (500 unless one is given), an
 * optional code and optional details.
 */
module ServiceTypes {

  import opened Wrappers
  import opened Json

  const DefaultStatusCode := 500

  class ServiceError {
    var name: string
    var message: string
    var statusCode: int
    var code: Option<string>
    var details: Option<Json>

    /** `statusCode: number = 500`: only an omitted (`undefined`) status takes the default. */
    constructor (message: string, statusCode: Option<int>, code: Option<string>, details: Option<Json>)
      ensures name == "ServiceError"
      ensures this.message == message
      ensures statusCode.None? ==> this.statusCode == DefaultStatusCode
      ensures statusCode.Some? ==> this.statusCode == statusCode.value
      ensures this.code == code && this.details == details
    {
      this.message := message;
      name := "ServiceError";
      this.statusCode := statusCode.GetOr(DefaultStatusCode);
      this.code := code;
      this.details := details;
    }
  }
}
