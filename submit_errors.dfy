/** The error text the register and login pages show when their submission throws
    (client/src/app/register/page.tsx and client/src/app/login/page.tsx carry the same
    rule, each with its own default). */
module SubmitErrors {
  import opened Js
  import opened AuthContext

  /** A thrown value: an axios error, another `Error`, or anything else. */
  datatype Thrown =
    | AxiosThrown(message: string, response: Option<HttpResponse>)
    | ErrorThrown(message: string)
    | ValueThrown

  /** `err.response?.data?.error` and `err.response?.data?.message`, "" when absent. */
  function DataField(response: Option<HttpResponse>, errorField: bool): string {
    if response.Some? && response.value.data.ObjectData? then
      (if errorField then response.value.data.error else response.value.data.message)
    else ""
  }

  /** The message a failed submission shows: for an axios error the body's `error`, else
      its `message`, else the error's own message (possibly empty); for an `Error` its
      message; for anything else the page's default. */
  function SubmitErrorMessage(err: Thrown, defaultMessage: string): (msg: string)
    ensures err.ValueThrown? ==> msg == defaultMessage
    ensures err.ErrorThrown? ==> msg == err.message
    ensures err.AxiosThrown? && DataField(err.response, true) != "" ==> msg == DataField(err.response, true)
    ensures err.AxiosThrown? && DataField(err.response, true) == "" && DataField(err.response, false) != "" ==>
              msg == DataField(err.response, false)
    ensures err.AxiosThrown? && DataField(err.response, true) == "" && DataField(err.response, false) == "" ==>
              msg == err.message
  {
    match err
    case ValueThrown => defaultMessage
    case ErrorThrown(m) => m
    case AxiosThrown(m, response) =>
      var cs := [DataField(response, true), DataField(response, false), m];
      var text := FirstNonEmpty(cs);
      assert cs[0] == DataField(response, true) && cs[1] == DataField(response, false) && cs[2] == m;
      assert text == cs[0] || (cs[0] == "" && text == cs[1]) || (cs[0] == "" && cs[1] == "" && text == cs[2]) by {
        if text != "" {
          var k :| 0 <= k < |cs| && cs[k] == text && forall j :: 0 <= j < k ==> cs[j] == "";
        }
      }
      text
  }

  /** An axios error with a body never shows the default, and the body's `error` wins
      over its `message`. */
  lemma AxiosErrorNeverDefault(m: string, status: int, e: string, msg: string, d: string, defaultMessage: string)
    requires defaultMessage != m && defaultMessage != e && defaultMessage != msg
    ensures var shown := SubmitErrorMessage(AxiosThrown(m, Some(HttpResponse(status, ObjectData(e, msg, d)))), defaultMessage);
            shown != defaultMessage && (e != "" ==> shown == e)
  {
  }
}
