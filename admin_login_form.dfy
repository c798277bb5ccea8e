/** The admin sign-in form (`src/components/AdminLoginForm.tsx`): both fields
    are required before anything is sent; a successful login goes to the
    dashboard and a refused one shows the server's message. */
module AdminLoginForm {
  import opened Wrappers
  import opened Text
  import opened AdminTypes
  import opened AdminAction

  datatype LoginPayload = LoginPayload(email: string, password: string)

  const RequiredMessage := "Both fields are required."
  const Dashboard := "/admin/web-management"

  class LoginForm {
    var email: string
    var password: string
    var err: string
    var showPass: bool

    constructor()
      ensures email == "" && password == "" && err == "" && !showPass
    {
      email := "";
      password := "";
      err := "";
      showPass := false;
    }

    method TypeEmail(s: string)
      modifies this
      ensures email == s && password == old(password) && err == old(err)
      ensures showPass == old(showPass)
    {
      email := s;
    }

    method TypePassword(s: string)
      modifies this
      ensures password == s && email == old(email) && err == old(err)
      ensures showPass == old(showPass)
    {
      password := s;
    }

    method ToggleShowPass()
      modifies this
      ensures showPass == !old(showPass) && email == old(email) && password == old(password)
      ensures err == old(err)
    {
      showPass := !showPass;
    }

    /** `handleSubmit`: an empty field sets the required message and sends
        nothing. Otherwise the message is cleared and the credentials are sent;
        success leads to the dashboard, a refusal shows the server's message or
        `'Invalid credentials'`. */
    method Submit(store: CookieStore, server: LoginPayload -> AdminLoginResponse, production: bool)
      returns (sent: Option<LoginPayload>, destination: Option<string>)
      modifies this, store
      ensures email == old(email) && password == old(password) && showPass == old(showPass)
      ensures old(email) == "" || old(password) == "" ==>
        err == RequiredMessage && sent == None && destination == None && store.adminToken == old(store.adminToken)
      ensures old(email) != "" && old(password) != "" ==> sent == Some(LoginPayload(email, password))
      ensures sent.Some? && server(sent.value).success ==> destination == Some(Dashboard) && err == ""
      ensures sent.Some? && !server(sent.value).success ==>
        destination == None && err == OrElse(server(sent.value).message, "Invalid credentials")
      ensures sent.Some? && server(sent.value).success && Truthy(server(sent.value).token) ==>
        store.adminToken == Some(TokenCookie(server(sent.value).token.value, production))
      ensures sent.Some? && !(server(sent.value).success && Truthy(server(sent.value).token)) ==>
        store.adminToken == old(store.adminToken)
    {
      if email == "" || password == "" {
        err := RequiredMessage;
        return None, None;
      }
      err := "";
      var payload := LoginPayload(email, password);
      sent := Some(payload);
      var res := AdminLogin(store, server(payload), production);
      if res.success {
        destination := Some(Dashboard);
      } else {
        destination := None;
        err := OrElse(res.message, "Invalid credentials");
      }
    }

    /** A key press in either field: Enter submits exactly as the button does,
        any other key does nothing. */
    method KeyDown(key: string, store: CookieStore, server: LoginPayload -> AdminLoginResponse, production: bool)
      returns (sent: Option<LoginPayload>, destination: Option<string>)
      modifies this, store
      ensures key != "Enter" ==> sent == None && destination == None && err == old(err)
      ensures key != "Enter" ==> store.adminToken == old(store.adminToken)
      ensures email == old(email) && password == old(password) && showPass == old(showPass)
      ensures key == "Enter" && (old(email) == "" || old(password) == "") ==>
        err == RequiredMessage && sent == None && destination == None && store.adminToken == old(store.adminToken)
      ensures key == "Enter" && old(email) != "" && old(password) != "" ==> sent == Some(LoginPayload(email, password))
      ensures sent.Some? && server(sent.value).success ==> destination == Some(Dashboard) && err == ""
      ensures sent.Some? && !server(sent.value).success ==>
        destination == None && err == OrElse(server(sent.value).message, "Invalid credentials")
      ensures sent.Some? && server(sent.value).success && Truthy(server(sent.value).token) ==>
        store.adminToken == Some(TokenCookie(server(sent.value).token.value, production))
      ensures sent.Some? && !(server(sent.value).success && Truthy(server(sent.value).token)) ==>
        store.adminToken == old(store.adminToken)
    {
      if key == "Enter" {
        sent, destination := Submit(store, server, production);
      } else {
        sent, destination := None, None;
      }
    }
  }
}
