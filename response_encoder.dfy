/** Encoding an execution response as the host object
    `{code, errorMessage, returnValue}`: the payload becomes the empty string
    when it is empty, the parsed value when it is JSON text, and the raw text
    otherwise. The host's JSON parser is a parameter. */
module ResponseEncoder {
  import opened Wrappers
  import opened JsValues

  datatype ExecuteResponse = ExecuteResponse(code: uint32, errorMessage: string, returnValue: string)

  /** The host value of a response payload. */
  function ReturnValueOf(payload: string, parseJson: string -> Option<JsValue>): JsValue
  {
    if payload == [] then Str("")
    else match parseJson(payload)
      case Some(v) => v
      case None => Str(payload)
  }

  /** The host object of a response, read back through property lookup:
      `code` converts back to the response's code, `errorMessage` is its
      message, and `returnValue` is the empty string for an empty payload,
      the parsed value of JSON text, and the payload text otherwise. */
  function CreateResponseObject(response: ExecuteResponse, parseJson: string -> Option<JsValue>): (o: JsValue)
    ensures GetProperty(o, "code").Some? && ToUint32(GetProperty(o, "code").value) == response.code
    ensures GetProperty(o, "errorMessage") == Some(Str(response.errorMessage))
    ensures GetProperty(o, "returnValue").Some?
    ensures response.returnValue == "" ==> GetProperty(o, "returnValue").value == Str("")
    ensures response.returnValue != "" && parseJson(response.returnValue).Some? ==>
      GetProperty(o, "returnValue").value == parseJson(response.returnValue).value
    ensures response.returnValue != "" && parseJson(response.returnValue).None? ==>
      GetProperty(o, "returnValue").value == Str(response.returnValue)
  {
    var o := Obj([
      ("code", Data(Number(response.code as int))),
      ("errorMessage", Data(Str(response.errorMessage))),
      ("returnValue", Data(ReturnValueOf(response.returnValue, parseJson)))]);
    LookupOwnAt(o.props, 0, "code");
    LookupOwnAt(o.props, 1, "errorMessage");
    LookupOwnAt(o.props, 2, "returnValue");
    Uint32RoundTrip(response.code);
    o
  }

  /** The object holds exactly the three fields, in this order, `code` is
      the response's code as a number, and any other key reads as undefined. */
  lemma ResponseFieldsReadBack(response: ExecuteResponse, parseJson: string -> Option<JsValue>, key: string)
    ensures var o := CreateResponseObject(response, parseJson);
      o.Obj? && |o.props| == 3 &&
      o.props[0].0 == "code" && o.props[1].0 == "errorMessage" && o.props[2].0 == "returnValue"
    ensures GetProperty(CreateResponseObject(response, parseJson), "code") == Some(Number(response.code as int))
    ensures key !in {"code", "errorMessage", "returnValue"} ==>
      GetProperty(CreateResponseObject(response, parseJson), key) == Some(Undefined)
  {
    var o := CreateResponseObject(response, parseJson);
    LookupOwnAt(o.props, 0, "code");
    if key !in {"code", "errorMessage", "returnValue"} {
      LookupOwnAbsent(o.props, key);
    }
  }

  /** A payload the parser rejects, the empty one included, reaches the host
      as exactly the text the engine returned. */
  lemma RawTextSurvives(response: ExecuteResponse, parseJson: string -> Option<JsValue>)
    requires parseJson(response.returnValue).None?
    ensures GetProperty(CreateResponseObject(response, parseJson), "returnValue") == Some(Str(response.returnValue))
  {
  }

  /** The empty payload and the JSON text of the empty string are encoded alike. */
  lemma EmptyPayloadLooksLikeEmptyJsonString(code: uint32, message: string, parseJson: string -> Option<JsValue>)
    requires parseJson("\"\"") == Some(Str(""))
    ensures CreateResponseObject(ExecuteResponse(code, message, ""), parseJson) ==
            CreateResponseObject(ExecuteResponse(code, message, "\"\""), parseJson)
  {
  }
}
