/**
 * JSON bodies and HTTP errors the webhook endpoint answers with, and
 * `create_success_response` (app/utils.py:144-150).
 */
module Responses {
  import opened Wrappers

  /** A key of a JSON body: left out, `null`, or a string. */
  datatype Field = Absent | Null | Str(s: string)

  /** What a request is answered with. */
  datatype Response =
    | Json(status: string, message: string, userId: Field)   // a 200 JSON body
    | HttpError(code: int, detail: string)                   // a raised `HTTPException`
    | Unhandled(error: string)                               // an exception escaping the endpoint

  /** The start of a success message for `action` (`"provision"`, `"deprovision"`). */
  function SuccessPrefix(action: string): string {
    "Successfully " + action + "ed server '"
  }

  /** `create_success_response(action, resource_name, user_id)`. */
  function CreateSuccessResponse(action: string, resourceName: string, userId: Option<string>): (r: Response)
    ensures r.Json? && r.status == "success"
    ensures r.userId == if userId.Some? then Str(userId.value) else Null
    ensures ResourceNamed(action, r.message) == Some(resourceName)
  {
    var message := SuccessPrefix(action) + resourceName + "'";
    assert message[|SuccessPrefix(action)|..|message| - 1] == resourceName;
    Json("success", message, if userId.Some? then Str(userId.value) else Null)
  }

  /** The resource a success message for `action` names, if it is one. */
  function ResourceNamed(action: string, message: string): Option<string> {
    var prefix := SuccessPrefix(action);
    if |prefix| < |message| && message[..|prefix|] == prefix && message[|message| - 1] == '\''
    then Some(message[|prefix|..|message| - 1])
    else None
  }

  /** The provisioning message reads `Successfully provisioned server '<name>'`. */
  lemma ProvisionedMessage(resourceName: string, userId: Option<string>)
    ensures CreateSuccessResponse("provision", resourceName, userId).message
            == "Successfully provisioned server '" + resourceName + "'"
  {
  }

  /** Two success responses for the same action with the same message name the same resource. */
  lemma SuccessMessageInjective(action: string, a: string, b: string, userA: Option<string>, userB: Option<string>)
    requires CreateSuccessResponse(action, a, userA).message == CreateSuccessResponse(action, b, userB).message
    ensures a == b
  {
    assert ResourceNamed(action, CreateSuccessResponse(action, a, userA).message) == Some(a);
  }
}
