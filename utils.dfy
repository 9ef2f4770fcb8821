/** The second copy of the response type, in src/utils/mod.rs. Its builders
    take `self` by value, assign `self.outputs.res` fields and insert into
    the header map in place, then hand `self` back; here they are methods of
    a class that update its fields. The status enum and the record types are
    the same declarations as in src/lib.rs and are shared with `Response`;
    every method is proved to leave the object holding exactly what the
    corresponding `Response` builder computes. */
module Utils {
  import opened Wrappers
  import R = Response

  class FunctionsResponse {
    var outputs: R.FunctionsOutput
    var logs: seq<string>

    /** The response value the object currently holds. */
    function Value(): R.FunctionsResponse
      reads this
    {
      R.FunctionsResponse(outputs, logs)
    }

    /** `FunctionsResponse::default()`: empty body, headers and logs, status `BadRequest`. */
    constructor Default()
      ensures Value() == R.FunctionsResponse.Default()
      ensures outputs.res.statusCode == R.BadRequest
    {
      outputs := R.FunctionsOutput(R.FunctionsResponseData("", R.BadRequest, map[]));
      logs := [];
    }

    /** `http`: a default response whose status is then set to `code`. */
    constructor Http(code: R.HttpStatusCode)
      ensures Value() == R.FunctionsResponse.Http(code)
    {
      outputs := R.FunctionsOutput(R.FunctionsResponseData("", R.BadRequest, map[]));
      logs := [];
      new;
      outputs := outputs.(res := outputs.res.(statusCode := code));
    }

    /** `redirect`: status `Found`, then `Location` inserted into the empty header map. */
    constructor Redirect(url: string)
      ensures Value() == R.FunctionsResponse.Redirect(url)
      ensures outputs.res.headers == map[R.LOCATION := url]
    {
      outputs := R.FunctionsOutput(R.FunctionsResponseData("", R.BadRequest, map[]));
      logs := [];
      new;
      outputs := outputs.(res := outputs.res.(statusCode := R.Found));
      outputs := outputs.(res := outputs.res.(headers := outputs.res.headers[R.LOCATION := url]));
    }

    method Body(b: string)
      modifies this
      ensures Value() == old(Value()).Body(b)
    {
      outputs := outputs.(res := outputs.res.(body := b));
    }

    method BodyHtml(value: string)
      modifies this
      ensures Value() == old(Value()).BodyHtml(value)
    {
      outputs := outputs.(res := outputs.res.(body := value));
      outputs := outputs.(res := outputs.res.(headers := outputs.res.headers[R.CONTENT_TYPE := "text/html"]));
    }

    /** `body_json`: on a serialisation error the error is returned before
        anything is assigned (the source moves `self` in and drops it on that
        path, so no caller sees the object again); otherwise body and
        `Content-Type` are set. */
    method BodyJson(rendered: Result<string, string>) returns (error: Option<string>)
      modifies this
      ensures rendered.Failure? ==> error == Some(rendered.error) && Value() == old(Value())
      ensures rendered.Success? ==> error == None && Value() == old(Value()).BodyJson(rendered).value
    {
      if rendered.Failure? {
        return Some(rendered.error);
      }
      outputs := outputs.(res := outputs.res.(body := rendered.value));
      outputs := outputs.(res := outputs.res.(headers := outputs.res.headers[R.CONTENT_TYPE := "application/json"]));
      error := None;
    }
  }
}
