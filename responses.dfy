/**
 * The two response classifiers of nodes/help/utils/ResponseUtils.ts: one
 * for the OpenAPI envelope `{ ResponseMetadata, Result }`, one for the
 * knowledge-base envelope `{ code, data, message, request_id }`.
 */
module Responses {
  import opened Base
  import opened Dicts
  import opened JsValues

  /** What the classifiers throw. */
  datatype ResponseError =
      /** `NodeApiError(node, error, { message: error.Message })`. */
    | OpenApiError(error: Value, message: Value)
      /**
       * `NodeApiError(node, { message, description, httpCode }, { message, description: detail })`
       * for the knowledge-base envelope.
       */
    | KnowledgeError(code: Value, message: Value, description: string, httpCode: string, detail: string)
      /** Reading `.Result` of `undefined` or `null`. */
    | NotAnObject

  /** `a ?? b`. */
  function Coalesce(a: Value, b: Value): (r: Value)
    ensures !Nullish(a) ==> r == a
    ensures Nullish(a) ==> r == b
  {
    if Nullish(a) then b else a
  }

  /** `response?.ResponseMetadata?.Error`. */
  function MetadataError(response: Value): Value {
    GetProp(GetProp(response, "ResponseMetadata"), "Error")
  }

  /**
   * `handleVolcEngineResponse`: fails with the error's `Message` when
   * `ResponseMetadata.Error` is truthy, and on a null or undefined response,
   * where reading `.Result` throws; otherwise returns `Result`, or `{}` when
   * it is null or undefined.
   */
  function HandleVolcEngineResponse(response: Value): (r: Result<Value, ResponseError>)
    ensures r.Failure? <==> Truthy(MetadataError(response)) || Nullish(response)
    ensures Truthy(MetadataError(response)) ==>
      r == Failure(OpenApiError(MetadataError(response), GetProp(MetadataError(response), "Message")))
    ensures r.Success? ==> r.value == Coalesce(GetProp(response, "Result"), Obj([]))
  {
    var error := MetadataError(response);
    if Truthy(error) then Failure(OpenApiError(error, GetProp(error, "Message")))
    else if Nullish(response) then Failure(NotAnObject)
    else Success(Coalesce(GetProp(response, "Result"), Obj([])))
  }

  /** An envelope without `ResponseMetadata` is a success whose value is its `Result`, or `{}`. */
  lemma NoMetadataSucceeds(fields: Dict<Value>)
    requires !Has(fields, "ResponseMetadata")
    ensures HandleVolcEngineResponse(Obj(fields)) == Success(Coalesce(Get(fields, "Result").GetOr(Undefined), Obj([])))
  {
  }

  const UnknownCode: string := "UNKNOWN"
  const UnknownMessage: string := "未知错误"

  /** The text `错误码: <code>` with `, RequestId: <id>` when the id is truthy. */
  function KnowledgeDescription(code: Value, requestId: Value): string {
    "错误码: " + ToStr(code) + (if Truthy(requestId) then ", RequestId: " + ToStr(requestId) else "")
  }

  /**
   * `handleAirKnowledgeResponse`: succeeds exactly when `code === 0`,
   * returning `data`, or `{ message }` when `data` is null or undefined.
   */
  function HandleAirKnowledgeResponse(response: Value): (r: Result<Value, ResponseError>)
    ensures r.Success? <==> GetProp(response, "code") == Number(Int(0))
    ensures r.Success? ==>
      r.value == Coalesce(GetProp(response, "data"), Obj([("message", GetProp(response, "message"))]))
  {
    if GetProp(response, "code") != Number(Int(0)) then
      var code := Coalesce(GetProp(response, "code"), Str(UnknownCode));
      var message := Coalesce(GetProp(response, "message"), Str(UnknownMessage));
      var requestId := Coalesce(GetProp(response, "request_id"), Str(""));
      Failure(KnowledgeError(code, message, KnowledgeDescription(code, requestId), ToStr(code),
                             "[" + ToStr(code) + "] " + ToStr(message)))
    else
      Success(Coalesce(GetProp(response, "data"), Obj([("message", GetProp(response, "message"))])))
  }

  /**
   * A failing knowledge-base envelope reports its code (or `UNKNOWN`), its
   * message (or `未知错误`), and a request id in the description only when
   * one is given.
   */
  lemma KnowledgeFailureReport(response: Value)
    requires GetProp(response, "code") != Number(Int(0))
    ensures var code := GetProp(response, "code");
      var message := GetProp(response, "message");
      var id := GetProp(response, "request_id");
      var r := HandleAirKnowledgeResponse(response);
      && r.Failure? && r.error.KnowledgeError?
      && r.error.code == (if Nullish(code) then Str(UnknownCode) else code)
      && r.error.message == (if Nullish(message) then Str(UnknownMessage) else message)
      && r.error.httpCode == ToStr(r.error.code)
      && r.error.detail == "[" + ToStr(r.error.code) + "] " + ToStr(r.error.message)
      && r.error.description == "错误码: " + ToStr(r.error.code)
           + (if Truthy(id) then ", RequestId: " + ToStr(id) else "")
  {
  }

  /** A missing code, or no object at all, is a failure with code `UNKNOWN`. */
  lemma MissingCodeFails(response: Value)
    requires Nullish(GetProp(response, "code"))
    ensures HandleAirKnowledgeResponse(response).Failure?
    ensures HandleAirKnowledgeResponse(response).error.code == Str(UnknownCode)
  {
  }
}
