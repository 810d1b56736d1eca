/** The plugin's REST endpoint: its namespace, who may call it, which status
    a refusal carries, how its one argument is validated, and what it answers.
    is_user_logged_in() and current_user_can('read') are inputs. */
module RestApi {
  import opened Php

  /** A WP_Error: code, message and the 'status' entry of its data. */
  datatype WpError = WpError(code: string, message: string, status: int)

  /** What a permission callback returns: true, or an error. */
  datatype Permission = Granted | Refused(error: WpError)

  /** The declaration of one endpoint argument (the two callbacks it names are
      ValidateCallback and the sanitize callback). */
  datatype ArgSpec = ArgSpec(description: string, typ: string, required: bool)

  /** A WP_REST_Response: HTTP status and the success / data body. */
  datatype Response = Response(status: int, success: bool, data: seq<Value>)

  class Api {
    const pluginSlug: string
    /** The route namespace: the plugin slug followed by the API version. */
    const namespace: string

    constructor(pluginSlug: string)
      ensures this.pluginSlug == pluginSlug
      ensures namespace == pluginSlug + "/v1"
      ensures namespace[..|pluginSlug|] == pluginSlug && |namespace| == |pluginSlug| + 3
    {
      this.pluginSlug := pluginSlug;
      this.namespace := pluginSlug + "/v1";
    }

    /** authStatusCode: 401 (not authenticated) for a visitor, 403 (forbidden)
        for a logged-in user. */
    function AuthStatusCode(loggedIn: bool): (status: int)
      ensures status == 401 || status == 403
      ensures status == 403 <==> loggedIn
    {
      var status := 401;
      if loggedIn then 403 else status
    }

    /** permissionCallback: granted exactly to users who can read. */
    function PermissionCallback(canRead: bool, loggedIn: bool): (answer: Permission)
      ensures answer.Granted? <==> canRead
      ensures answer.Refused? ==> answer.error.code == "rest_forbidden"
      ensures answer.Refused? ==> (answer.error.status == 403 <==> loggedIn)
      ensures answer.Refused? ==> answer.error.status == AuthStatusCode(loggedIn)
    {
      if !canRead then
        Refused(WpError("rest_forbidden", "You cannot view the resource.", AuthStatusCode(loggedIn)))
      else
        Granted
    }

    /** validateCallback: an error for anything but a non-empty string, where
        PHP's empty() also counts "0" as empty; nothing (null) otherwise. */
    function ValidateCallback(value: Value): (error: Option<WpError>)
      ensures error.Some? <==> !value.Str? || value.s == "" || value.s == "0"
      ensures error.Some? ==> error.value.code == "rest_invalid_param" && error.value.status == 400
    {
      if !value.Str? || Empty(value) then
        Some(WpError("rest_invalid_param", "The filter argument must be a string.", 400))
      else
        None
    }

    /** endpointArgs: the endpoint takes one required string argument, 'arg'. */
    function EndpointArgs(): (args: map<string, ArgSpec>)
      ensures args.Keys == {"arg"}
      ensures args["arg"].typ == "string" && args["arg"].required
    {
      map["arg" := ArgSpec("The description of the argument", "string", true)]
    }

    /** endpointCallback: the same successful, empty answer for every request. */
    function EndpointCallback(request: PhpArray): (response: Response)
      ensures response.status == 200 && response.success && response.data == []
    {
      Response(200, true, [])
    }

    /** The answer does not depend on the request. */
    lemma EndpointIgnoresRequest(a: PhpArray, b: PhpArray)
      ensures EndpointCallback(a) == EndpointCallback(b)
    {
    }

    /** An argument that passes validation is a string of at least one character
        other than the single character "0". */
    lemma ValidArgumentIsNonEmptyString(value: Value)
      requires ValidateCallback(value).None?
      ensures value.Str? && |value.s| >= 1 && value.s != "0"
    {
    }
  }
}
