// The HTTP server wrapper: a started flag that makes starting and stopping
// idempotent, and the mapping of the firmware's error codes to HTTP
// responses.
module Webserver {

  /** The calls made into the HTTP server library. */
  datatype ServerCall = Start | Stop

  /** One response: its status and its text; the 500 response uses the library's own text. */
  datatype Response = Response(status: int, message: string)

  /**
   * start_stop_httpd on the started flag: the new flag and the library call
   * made. The flag is set whether or not the server actually started.
   */
  function HttpdStep(started: bool, action: bool): (bool, seq<ServerCall>) {
    if action && !started then (true, [Start])
    else if !action && started then (false, [Stop])
    else (started, [])
  }

  /**
   * After a call the flag says what was asked for, a library call is made
   * only when the flag changes, and a repeated start or stop changes
   * nothing and calls nothing.
   */
  lemma HttpdIdempotent(started: bool, action: bool)
    ensures var first := HttpdStep(started, action);
      && first.0 == action
      && (first.1 != [] <==> started != action)
      && HttpdStep(first.0, action) == (first.0, [])
  {
  }

  class Httpd {
    var started: bool
    /** Whether start_webserver returned a handle; NULL when httpd_start failed. */
    var hasHandle: bool
    var calls: seq<ServerCall>

    constructor ()
      ensures !started && !hasHandle && calls == []
    {
      started := false;
      hasHandle := false;
      calls := [];
    }

    /** start_stop_httpd(action); `startOk` is what httpd_start reports when it is called. */
    method StartStop(action: bool, startOk: bool)
      modifies this
      ensures started == HttpdStep(old(started), action).0
      ensures calls == old(calls) + HttpdStep(old(started), action).1
      ensures hasHandle == (if action && !old(started) then startOk else old(hasHandle))
    {
      assert calls + [] == calls;
      if action && !started {
        calls := calls + [Start];
        hasHandle := startOk;
        started := true;
      }
      if !action && started {
        calls := calls + [Stop];
        started := false;
      }
    }
  }

  /**
   * send_http_error: 400, 404, 405, 414 and 500 answered with their own
   * status, any other code with 404.
   */
  function ErrorResponse(code: int): (r: Response)
    ensures code in {400, 404, 405, 414, 500} ==> r.status == code
    ensures code !in {400, 404, 405, 414, 500} ==> r.status == 404
  {
    match code
    case 400 => Response(400, "Badly formed request")
    case 404 => Response(404, "Web page not found")
    case 405 => Response(405, "Parameters not allowed")
    case 414 => Response(414, "Request too long")
    case 500 => Response(500, "")
    case _ => Response(404, "Something went wrong with the request")
  }
}
