/**
 * The sign-in and registration form (src/components/AuthForm.tsx): the checks run
 * before the store's login or signup is called, and the error each path leaves.
 */
module AuthForm {
  import opened Wrappers
  import opened Types
  import opened Store

  const LoginMissing := "Please enter both email and password"
  const LoginInvalid := "Invalid email or password"
  const RegisterMissing := "Please fill in all fields"
  const RegisterMismatch := "Passwords do not match"
  const RegisterFailed := "Registration failed. Please try again."

  /** The error handleLogin sets before calling login, if any. */
  function LoginCheck(email: string, password: string): (err: Option<string>)
    ensures err.Some? <==> email == "" || password == ""
    ensures err.Some? ==> err.value == LoginMissing
  {
    if email == "" || password == "" then Some(LoginMissing) else None
  }

  /** The error handleRegister sets before calling signup, if any: missing fields are reported before a mismatch. */
  function RegisterCheck(name: string, email: string, password: string, confirm: string): (err: Option<string>)
    ensures name == "" || email == "" || password == "" || confirm == "" ==> err == Some(RegisterMissing)
    ensures name != "" && email != "" && password != "" && confirm != "" && password != confirm ==>
      err == Some(RegisterMismatch)
    ensures err.None? <==> name != "" && email != "" && password != "" && confirm != "" && password == confirm
  {
    if name == "" || email == "" || password == "" || confirm == "" then Some(RegisterMissing)
    else if password != confirm then Some(RegisterMismatch)
    else None
  }

  /**
   * Credentials that pass the form's check are always accepted by the store's login,
   * so "Invalid email or password" is never shown; likewise registration details
   * that pass the form's check are always accepted by signup.
   */
  lemma FormCallsAlwaysSucceed(email: string, password: string, name: string, confirm: string)
    ensures LoginCheck(email, password).None? ==> LoginAccepts(email, password)
    ensures RegisterCheck(name, email, password, confirm).None? ==> SignupAccepts(name, email, password)
  {
  }

  /** The login and register tabs' fields and errors. */
  class FormState {
    var loginEmail: string
    var loginPassword: string
    var registerName: string
    var registerEmail: string
    var registerPassword: string
    var confirmPassword: string
    var loginError: string
    var registerError: string

    constructor ()
      ensures loginEmail == "" && loginPassword == "" && loginError == ""
      ensures registerName == "" && registerEmail == "" && registerPassword == "" && confirmPassword == ""
      ensures registerError == ""
    {
      loginEmail, loginPassword := "", "";
      registerName, registerEmail, registerPassword, confirmPassword := "", "", "", "";
      loginError, registerError := "", "";
    }

    /**
     * handleLogin: the error is cleared; with an empty email or password it becomes
     * LoginMissing and login is not called; otherwise login is called with the
     * fields and a refusal would show LoginInvalid.
     */
    method HandleLogin(store: AppState, seed: Session) returns (called: bool)
      requires store.Valid()
      modifies this`loginError, store
      ensures store.Valid()
      ensures called <==> LoginCheck(loginEmail, loginPassword).None?
      ensures !called ==> loginError == LoginMissing && unchanged(store)
      ensures called ==> loginError == (if LoginAccepts(loginEmail, loginPassword) then "" else LoginInvalid)
      ensures called ==> !store.isLoading && store.currentChannel == old(store.currentChannel)
      ensures called ==>
        && store.isAuthenticated && store.user == Some(seed.user)
        && store.channels == seed.channels && store.messages == seed.messages
        && store.notificationSettings == Some(seed.settings)
    {
      loginError := "";
      if loginEmail == "" || loginPassword == "" {
        loginError := LoginMissing;
        return false;
      }
      var ok := store.Login(loginEmail, loginPassword, seed);
      loginError := if ok then "" else LoginInvalid;
      called := true;
    }

    /**
     * handleRegister: the error is cleared; missing fields, then a password
     * mismatch, stop it with their message and signup is not called; otherwise
     * signup is called with the name, email and password.
     */
    method HandleRegister(store: AppState, profile: UserProfile) returns (called: bool)
      requires store.Valid()
      modifies this`registerError, store
      ensures store.Valid()
      ensures called <==> RegisterCheck(registerName, registerEmail, registerPassword, confirmPassword).None?
      ensures !called ==> Some(registerError) == RegisterCheck(registerName, registerEmail, registerPassword, confirmPassword)
                          && unchanged(store)
      ensures called ==> registerError == (if SignupAccepts(registerName, registerEmail, registerPassword) then "" else RegisterFailed)
      ensures called ==> !store.isLoading && store.currentChannel == old(store.currentChannel)
      ensures called ==>
        && store.isAuthenticated && store.user == Some(profile.(name := registerName, email := registerEmail))
        && store.channels == [] && store.messages == []
        && store.notificationSettings == Some(FreshSettings(profile.id))
    {
      registerError := "";
      if registerName == "" || registerEmail == "" || registerPassword == "" || confirmPassword == "" {
        registerError := RegisterMissing;
        return false;
      }
      if registerPassword != confirmPassword {
        registerError := RegisterMismatch;
        return false;
      }
      var ok := store.Signup(registerName, registerEmail, registerPassword, profile);
      registerError := if ok then "" else RegisterFailed;
      called := true;
    }
  }
}
