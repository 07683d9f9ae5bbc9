/** helpers/api/error.interceptor.ts of the admin UI: the message an API
    error is rejected with. */
module Interceptor {
  import opened Common
  import Vocabulary

  /** `error.response` as the interceptor reads it: the status and the
      response body. */
  datatype Response = Response(status: int, data: Vocabulary.Value)

  /** `AxiosError` as the interceptor reads it. */
  datatype AxiosError = AxiosError(message: string, response: Option<Response>)

  /** What the rejection carries: a fixed text, a value taken from the
      response body, or the error object itself. */
  datatype Reason = Message(text: string) | BodyValue(value: Vocabulary.Value) | ErrorObject(error: AxiosError)

  /** A promise the interceptor could return. */
  datatype Settled = Rejected(reason: Reason) | Resolved(value: Vocabulary.Value)

  const InvalidCredentials := "Invalid credentials"
  const AccessForbidden := "Access Forbidden"
  const NotFoundDefault := "Sorry! the data you are looking for could not be found"
  const ServerProblem := "Sorry, it seems that there is a server problem"

  /** JavaScript truthiness of a value. */
  predicate Truthy(v: Vocabulary.Value)
  {
    match v
    case Undefined => false
    case Null => false
    case Bool(b) => b
    case Number(n) => n != 0
    case Text(s) => s != ""
    case _ => true
  }

  /** `value['message']`: a field of an object, undefined otherwise. */
  function MessageField(v: Vocabulary.Value): Vocabulary.Value
  {
    if v.Object? then Vocabulary.Field(v.fields, "message") else Vocabulary.Undefined
  }

  /** `axiosErrorInterceptor(error)`: the switch on the response status,
      then a rejection with the chosen message. The `??` of the 404 case
      falls back only for a null or undefined error, which never reaches
      this case. */
  function AxiosErrorInterceptor(error: AxiosError): (r: Settled)
    ensures r.Rejected?
    ensures error.response.Some? && error.response.value.status == 401 ==> r.reason == Message(InvalidCredentials)
    ensures error.response.Some? && error.response.value.status == 403 ==> r.reason == Message(AccessForbidden)
    ensures error.response.Some? && error.response.value.status == 404 ==> r.reason == ErrorObject(error)
    ensures error.response.Some? && error.response.value.status == 500 ==> r.reason == Message(ServerProblem)
    ensures error.response.None? || error.response.value.status !in {401, 403, 404, 500} ==>
              if error.response.Some? && Truthy(error.response.value.data) then
                r.reason == BodyValue(MessageField(error.response.value.data))
              else if error.message != "" then r.reason == Message(error.message)
              else r.reason == ErrorObject(error)
  {
    var status := if error.response.Some? then Some(error.response.value.status) else None;
    var message :=
      if status == Some(401) then Message(InvalidCredentials)
      else if status == Some(403) then Message(AccessForbidden)
      else if status == Some(404) then ErrorObject(error)
      else if status == Some(500) then Message(ServerProblem)
      else if error.response.Some? && Truthy(error.response.value.data) then BodyValue(MessageField(error.response.value.data))
      else if error.message != "" then Message(error.message)
      else ErrorObject(error);
    Rejected(message)
  }

  /** For 401, 403 and 500 the message depends on the status alone, and it
      is not the fallback text of the 404 case. */
  lemma FixedStatusMessages(e1: AxiosError, e2: AxiosError)
    requires e1.response.Some? && e2.response.Some? && e1.response.value.status == e2.response.value.status
    requires e1.response.value.status in {401, 403, 500}
    ensures AxiosErrorInterceptor(e1) == AxiosErrorInterceptor(e2)
    ensures AxiosErrorInterceptor(e1).reason != Message(NotFoundDefault)
  {
  }

  /** Where the rejection reason comes from: a text is one of the three
      fixed texts or the error's own message (so the 404 fallback text never
      appears unless it is the error's message), and the error object itself
      is returned for a 404 or when nothing better is available. */
  lemma ReasonSources(e: AxiosError)
    ensures var reason := AxiosErrorInterceptor(e).reason;
      && (reason.Message? ==> reason.text in {InvalidCredentials, AccessForbidden, ServerProblem, e.message})
      && (reason.ErrorObject? <==>
            (e.response.Some? && e.response.value.status == 404) ||
            (e.message == "" && (e.response.None? ||
               (e.response.value.status !in {401, 403, 404, 500} && !Truthy(e.response.value.data)))))
      && (reason.ErrorObject? ==> reason.error == e)
  {
  }
}
