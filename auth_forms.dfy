/**
 * The sign-up and log-in forms: the checks made before any request, the
 * request sent, and where the member is taken or what they are told once
 * the request settles. The request itself is outside the model; how it
 * settled is a parameter.
 */
module AuthForms {
  import opened Wrappers

  const LoginRoute: string := "/login"
  const HomeRoute: string := "/"
  const DefaultProfileImage: nat := 1

  const MissingFieldsMessage: string := "모든 필드를 입력해주세요."
  const BadEmailMessage: string := "이메일 형식이 올바르지 않습니다."
  const SignedUpMessage: string := "회원가입이 완료되었습니다. 로그인해주세요."
  const SignupFailedMessage: string := "회원가입에 실패했습니다. 다시 시도해주세요."
  const MissingCredentialsMessage: string := "이메일과 비밀번호를 모두 입력해주세요."
  const LoginFailedMessage: string := "로그인에 실패했습니다. 이메일과 비밀번호를 확인해주세요."

  /** How a request settled: success, or failure with the server's message when the response carried one. */
  datatype Settled = Ok | Err(serverMessage: Option<string>)

  datatype Toast = Info(text: string) | Error(text: string)

  datatype SignupRequest = SignupRequest(email: string, password: string, name: string, profileImageNumber: nat)

  datatype LoginRequest = LoginRequest(email: string, password: string)

  /** What a submit does: the request it sends, the toast it shows and the route it opens. */
  datatype Effects<Req> = Effects(request: Option<Req>, toast: Option<Toast>, navigate: Option<string>)

  /** `handleSignup`, given how the sign-up request settles (consulted only when one is sent). */
  function HandleSignup(email: string, password: string, name: string, settled: Settled): (r: Effects<SignupRequest>)
    ensures r.request.Some? <==> email != [] && password != [] && name != [] && '@' in email
    ensures r.request.Some? ==> r.request.value == SignupRequest(email, password, name, DefaultProfileImage)
    ensures r.navigate.Some? <==> r.request.Some? && settled.Ok?
    ensures r.navigate.Some? ==> r.navigate.value == LoginRoute
    ensures r.toast.Some?
    ensures (email == [] || password == [] || name == []) ==> r.toast == Some(Error(MissingFieldsMessage))
  {
    if email == [] || password == [] || name == [] then
      Effects(None, Some(Error(MissingFieldsMessage)), None)
    else if '@' !in email then
      Effects(None, Some(Error(BadEmailMessage)), None)
    else
      var request := SignupRequest(email, password, name, DefaultProfileImage);
      match settled
      case Ok => Effects(Some(request), Some(Info(SignedUpMessage)), Some(LoginRoute))
      case Err(m) =>
        var text := if m.Some? && m.value != [] then m.value else SignupFailedMessage;
        Effects(Some(request), Some(Error(text)), None)
  }

  /**
   * The message a member sees: the missing-field check comes before the
   * e-mail check, and a failed sign-up shows the server's message when it is
   * non-empty and the generic one otherwise.
   */
  lemma SignupMessages(email: string, password: string, name: string, settled: Settled)
    ensures email != [] && password != [] && name != [] && '@' !in email ==>
      HandleSignup(email, password, name, settled).toast == Some(Error(BadEmailMessage))
    ensures email != [] && password != [] && name != [] && '@' in email && settled.Err? ==>
      var m := settled.serverMessage;
      HandleSignup(email, password, name, settled).toast ==
        Some(Error(if m.Some? && m.value != [] then m.value else SignupFailedMessage))
    ensures email != [] && password != [] && name != [] && '@' in email && settled.Ok? ==>
      HandleSignup(email, password, name, settled).toast == Some(Info(SignedUpMessage))
  {
  }

  /** A failed sign-up keeps the member on the form, whatever the server said. */
  lemma SignupFailureStays(email: string, password: string, name: string, m: Option<string>)
    ensures HandleSignup(email, password, name, Err(m)).navigate == None
    ensures HandleSignup(email, password, name, Err(m)).toast.value.Error?
  {
  }

  /** Where a successful log-in goes: the `continue` parameter when it is non-empty, home otherwise. */
  function Destination(continueParam: Option<string>): (r: string)
    ensures continueParam.Some? && continueParam.value != [] ==> r == continueParam.value
    ensures continueParam == None || continueParam == Some([]) ==> r == HomeRoute
  {
    if continueParam.Some? && continueParam.value != [] then continueParam.value else HomeRoute
  }

  /** `handleLogin`, given the `continue` query parameter and how the log-in request settles. */
  function HandleLogin(email: string, password: string, continueParam: Option<string>, settled: Settled)
    : (r: Effects<LoginRequest>)
    ensures r.request.Some? <==> email != [] && password != []
    ensures r.request.Some? ==> r.request.value == LoginRequest(email, password)
    ensures r.request == None ==> r.toast == Some(Error(MissingCredentialsMessage)) && r.navigate == None
    ensures r.request.Some? && settled.Ok? ==> r.navigate == Some(Destination(continueParam)) && r.toast == None
    ensures r.request.Some? && settled.Err? ==> r.navigate == None && r.toast == Some(Error(LoginFailedMessage))
  {
    if email == [] || password == [] then
      Effects(None, Some(Error(MissingCredentialsMessage)), None)
    else
      var request := LoginRequest(email, password);
      match settled
      case Ok => Effects(Some(request), None, Some(Destination(continueParam)))
      case Err(_) => Effects(Some(request), Some(Error(LoginFailedMessage)), None)
  }

  /**
   * A log-in that was sent for a page behind the sign-in wall returns to
   * that page; the server's message on a failed log-in is never shown.
   */
  lemma LoginReturnsToPage(email: string, password: string, page: string, m: Option<string>)
    requires email != [] && password != [] && page != []
    ensures HandleLogin(email, password, Some(page), Ok).navigate == Some(page)
    ensures HandleLogin(email, password, Some(page), Err(m)) == HandleLogin(email, password, None, Err(None))
  {
  }

  /** Signing up sends the member to the log-in form, whose success then leads home when no page is waiting. */
  lemma SignupThenLogin(email: string, password: string, name: string)
    requires email != [] && password != [] && name != [] && '@' in email
    ensures HandleSignup(email, password, name, Ok).navigate == Some(LoginRoute)
    ensures HandleLogin(email, password, None, Ok).navigate == Some(HomeRoute)
    ensures HandleSignup(email, password, name, Ok).request.value.email == HandleLogin(email, password, None, Ok).request.value.email
  {
  }
}
