// The JSON API endpoint: one POST URI whose body names a RequestType; the
// request is handed to the handler of that name and its result decides
// whether the reply JSON or an error status goes back.
module HttpApiJson {
  import opened Wrappers
  import opened Json
  import opened Webserver

  const ApiUri := "/api/json/request"
  /** JSONREADBUFSIZE: the longest request body read. */
  const JsonReadBufSize := 4096

  /** The nine request handlers. */
  datatype RequestKind =
    | SetupRead | SetupSet | ClockRead | ClockSet | TimeRead | TimeSet
    | FileList | WavList | DeleteFile

  /** The RequestType names, one per handler. */
  const Handlers: map<string, RequestKind> := map[
    "SetupRead" := SetupRead, "SetupSet" := SetupSet,
    "ClockRead" := ClockRead, "ClockSet" := ClockSet,
    "TimeRead" := TimeRead, "TimeSet" := TimeSet,
    "FileList" := FileList, "WavList" := WavList, "DeleteFile" := DeleteFile]

  /** cJSON_GetObjectItemCaseSensitive with a possibly NULL object. */
  function ItemOf(j: Option<Json>, key: string): (r: Option<Json>)
    ensures j.None? ==> r.None?
  {
    if j.Some? then Item(j.value, key) else None
  }

  /** The RequestType string of a request, if there is one. */
  function RequestName(j: Option<Json>): Option<string> {
    StringOf(ItemOf(j, "RequestType"))
  }

  /**
   * error_to_return once the request JSON is in hand: 400 for a missing or
   * non-string RequestType or an unknown name; otherwise the named
   * handler's result, where -1 (the "nothing matched" marker) also
   * becomes 400.
   */
  function RequestCode(j: Option<Json>, handlerCode: int): (code: int)
    ensures RequestName(j).None? ==> code == 400
    ensures RequestName(j).Some? && RequestName(j).value !in Handlers ==> code == 400
    ensures RequestName(j).Some? && RequestName(j).value in Handlers ==> code == (if handlerCode == -1 then 400 else handlerCode)
    ensures code == 0 <==> RequestName(j).Some? && RequestName(j).value in Handlers && handlerCode == 0
  {
    var name := RequestName(j);
    if name.None? || name.value !in Handlers then 400
    else if handlerCode == -1 then 400
    else handlerCode
  }

  /**
   * As written, the check after cJSON_Parse tests the address the result
   * is stored through, which is never NULL; a body that does not parse
   * goes on as a NULL object.
   */
  function AfterParseAsWritten(parsed: Option<Json>, handlerCode: int): (code: int)
    ensures parsed.None? ==> code == 400
    ensures parsed.Some? ==> code == RequestCode(parsed, handlerCode)
  {
    RequestCode(parsed, handlerCode)
  }

  /** With the parsed object itself tested, a body that does not parse is answered 405. */
  function AfterParse(parsed: Option<Json>, handlerCode: int): (code: int)
    ensures parsed.None? ==> code == 405
    ensures parsed.Some? ==> code == RequestCode(parsed, handlerCode)
  {
    if parsed.None? then 405 else RequestCode(parsed, handlerCode)
  }

  /** A body that is not JSON: answered 400 as written, 405 once the parse result is tested. */
  lemma UnparsableBody(handlerCode: int)
    ensures AfterParseAsWritten(None, handlerCode) == 400
    ensures AfterParse(None, handlerCode) == 405
  {
  }

  /** What goes back: nothing, the reply JSON, or an error response. */
  datatype ApiReply = NoReply | JsonSent | ErrorSent(response: Response)

  /**
   * The RequestType dispatch: every name compared in turn, the matching
   * handler's code replacing the -1 marker. `handlerCode` is what the
   * called handler returns.
   */
  method Dispatch(name: string, handlerCode: int) returns (called: Option<RequestKind>, errorToReturn: int)
    ensures called == (if name in Handlers then Some(Handlers[name]) else None)
    ensures errorToReturn == (if name in Handlers && handlerCode != -1 then handlerCode else 400)
  {
    called := None;
    errorToReturn := -1;
    if name == "SetupRead" {
      called, errorToReturn := Some(SetupRead), handlerCode;
    }
    if name == "SetupSet" {
      called, errorToReturn := Some(SetupSet), handlerCode;
    }
    if name == "ClockRead" {
      called, errorToReturn := Some(ClockRead), handlerCode;
    }
    if name == "ClockSet" {
      called, errorToReturn := Some(ClockSet), handlerCode;
    }
    if name == "TimeRead" {
      called, errorToReturn := Some(TimeRead), handlerCode;
    }
    if name == "TimeSet" {
      called, errorToReturn := Some(TimeSet), handlerCode;
    }
    if name == "FileList" {
      called, errorToReturn := Some(FileList), handlerCode;
    }
    if name == "WavList" {
      called, errorToReturn := Some(WavList), handlerCode;
    }
    if name == "DeleteFile" {
      called, errorToReturn := Some(DeleteFile), handlerCode;
    }
    if errorToReturn == -1 {
      errorToReturn := 400;
    }
  }

  /**
   * json_api_post_handler with http_request_json_parse. `received` is
   * whether the body arrived, `parsed` the result of cJSON_Parse and
   * `handlerCode` the called handler's result; `ok` is ESP_OK. The reply
   * JSON goes out exactly when the code is 0.
   */
  method JsonApiPost(uri: string, contentLen: int, received: bool, parsed: Option<Json>, handlerCode: int)
    returns (reply: ApiReply, called: Option<RequestKind>, ok: bool)
    ensures ok <==> reply == JsonSent
    ensures uri != ApiUri ==> reply == NoReply && called.None?
    ensures uri == ApiUri && contentLen > JsonReadBufSize ==> reply == ErrorSent(ErrorResponse(414)) && called.None?
    ensures uri == ApiUri && contentLen <= JsonReadBufSize && !received ==> reply == ErrorSent(ErrorResponse(415)) && called.None?
    ensures uri == ApiUri && contentLen <= JsonReadBufSize && received ==>
      && called == (if parsed.Some? && RequestName(parsed).Some? && RequestName(parsed).value in Handlers then Some(Handlers[RequestName(parsed).value]) else None)
      && reply == (if AfterParse(parsed, handlerCode) == 0 then JsonSent else ErrorSent(ErrorResponse(AfterParse(parsed, handlerCode))))
  {
    called := None;
    if uri != ApiUri {
      return NoReply, None, false;
    }
    if contentLen > JsonReadBufSize {
      return ErrorSent(ErrorResponse(414)), None, false;
    }
    if !received {
      return ErrorSent(ErrorResponse(415)), None, false;
    }
    if parsed.None? {
      return ErrorSent(ErrorResponse(405)), None, false;
    }
    var errorToReturn := 0;
    var requestType := Item(parsed.value, "RequestType");
    if requestType.Some? && requestType.value.Str? {
      called, errorToReturn := Dispatch(requestType.value.s, handlerCode);
    } else {
      errorToReturn := 400;
    }
    if errorToReturn == 0 {
      reply := JsonSent;
    } else {
      reply := ErrorSent(ErrorResponse(errorToReturn));
    }
    ok := errorToReturn == 0;
  }
}
