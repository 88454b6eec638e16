/** The state of the Login component (components/Login.tsx) and its
    handlers. The `onLogin`/`onSignUp` callbacks and the backend's password
    reset are replaced by their outcomes; each handler returns the call it
    makes (or None when it makes none). */
module Login {
  import opened Optional
  import App

  const InvalidLogin: string := "Login ou senha inválidos."
  const SignUpFailed: string := "Não foi possível criar a conta."
  const PasswordsDiffer: string := "As senhas não coincidem."
  const EmailRequired: string := "Por favor, insira seu email para redefinir a senha."
  const ResetFailed: string := "Erro ao enviar email de recuperação. Verifique o email e tente novamente."
  const ResetSent: string := "Um link de recuperação de senha foi enviado para o seu email."

  /** The arguments `onLogin` is called with. */
  datatype LoginRequest = LoginRequest(login: string, password: string)

  /** The arguments `onSignUp` is called with. */
  datatype SignUpRequest = SignUpRequest(name: string, login: string, password: string)

  /** `result.error || fallback`: an absent or empty message gives way to
      the fallback. */
  function ErrorOr(e: Option<string>, fallback: string): (r: string)
    ensures e.Some? && e.value != "" ==> r == e.value
    ensures e.None? || e.value == "" ==> r == fallback
    ensures fallback != "" ==> r != ""
  {
    if e.Some? && e.value != "" then e.value else fallback
  }

  class LoginForm {
    var resetMessage: string
    var isLoginView: bool
    var login: string
    var password: string
    var error: string
    var name: string
    var confirmPassword: string

    /** The initial values of the `useState` hooks. */
    constructor ()
      ensures isLoginView
      ensures resetMessage == "" && login == "" && password == "" && error == ""
      ensures name == "" && confirmPassword == ""
    {
      resetMessage := "";
      isLoginView := true;
      login := "";
      password := "";
      error := "";
      name := "";
      confirmPassword := "";
    }

    method SetLogin(value: string)
      modifies this`login
      ensures login == value
    {
      login := value;
    }

    method SetPassword(value: string)
      modifies this`password
      ensures password == value
    {
      password := value;
    }

    method SetName(value: string)
      modifies this`name
      ensures name == value
    {
      name := value;
    }

    method SetConfirmPassword(value: string)
      modifies this`confirmPassword
      ensures confirmPassword == value
    {
      confirmPassword := value;
    }

    /** handleLoginSubmit: `onLogin` is always called, with what the form
        holds, and answers `result`. */
    method SubmitLogin(result: App.AuthResult) returns (request: LoginRequest)
      modifies this`error
      ensures request == LoginRequest(login, password)
      ensures result.success ==> error == ""
      ensures !result.success ==> error == ErrorOr(result.error, InvalidLogin) && error != ""
    {
      error := "";
      request := LoginRequest(login, password);
      if !result.success {
        error := ErrorOr(result.error, InvalidLogin);
      }
    }

    /** handleSignUpSubmit: `onSignUp` is called, and answers `result`, only
        when the two passwords agree. */
    method SubmitSignUp(result: App.AuthResult) returns (request: Option<SignUpRequest>)
      modifies this`error
      ensures password != confirmPassword ==> request.None? && error == PasswordsDiffer
      ensures password == confirmPassword ==> request == Some(SignUpRequest(name, login, password))
      ensures password == confirmPassword && result.success ==> error == ""
      ensures password == confirmPassword && !result.success ==>
        error == ErrorOr(result.error, SignUpFailed) && error != ""
    {
      error := "";
      if password != confirmPassword {
        error := PasswordsDiffer;
        return None;
      }
      request := Some(SignUpRequest(name, login, password));
      if !result.success {
        error := ErrorOr(result.error, SignUpFailed);
      }
    }

    /** handlePasswordReset: the reset email is requested for `login` only
        when it is not empty; `resetFails` is the outcome of that request.
        Afterwards exactly one of `error` and `resetMessage` says something. */
    method PasswordReset(resetFails: bool) returns (request: Option<string>)
      modifies this`error, this`resetMessage
      ensures login == "" ==> request.None? && error == EmailRequired && resetMessage == ""
      ensures login != "" ==> request == Some(login)
      ensures login != "" && resetFails ==> error == ResetFailed && resetMessage == ""
      ensures login != "" && !resetFails ==> error == "" && resetMessage == ResetSent
      ensures (error != "") != (resetMessage != "")
    {
      error := "";
      resetMessage := "";
      if login == "" {
        error := EmailRequired;
        return None;
      }
      request := Some(login);
      if resetFails {
        error := ResetFailed;
      } else {
        resetMessage := ResetSent;
      }
    }

    /** toggleView: switch between login and signup and empty every field
        and the error; the reset message stays. */
    method ToggleView()
      modifies this`isLoginView, this`name, this`login, this`password, this`confirmPassword, this`error
      ensures isLoginView == !old(isLoginView)
      ensures name == "" && login == "" && password == "" && confirmPassword == "" && error == ""
    {
      isLoginView := !isLoginView;
      name := "";
      login := "";
      password := "";
      confirmPassword := "";
      error := "";
    }
  }
}
