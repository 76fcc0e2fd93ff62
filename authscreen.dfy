/** The login screen (components/AuthScreen.tsx): which of its four views
    is shown for the global auth state and the chosen login method, when it
    asks the backend for a QR code, and the busy flag around each submit. */
module AuthScreen {
  import opened Common
  import opened Types
  import opened Api

  datatype LoginMethod = QrMethod | PhoneMethod

  datatype LoginView = QrView | PhoneView | CodeView | PasswordView

  predicate IsAwaitingCode(state: AuthState) { state == AwaitingCode }
  predicate IsAwaitingPassword(state: AuthState) { state == AwaitingPassword }

  predicate ShowQr(choice: LoginMethod, state: AuthState) {
    choice == QrMethod && !IsAwaitingCode(state) && !IsAwaitingPassword(state)
  }

  predicate ShowPhoneInput(choice: LoginMethod, state: AuthState) {
    choice == PhoneMethod && !IsAwaitingCode(state) && !IsAwaitingPassword(state)
  }

  /** The method toggle is hidden while a code or a password is awaited. */
  predicate ShowMethodToggle(state: AuthState) {
    !IsAwaitingCode(state) && !IsAwaitingPassword(state)
  }

  /** The view on screen. The code and password forms follow the global
      state and override the chosen method; otherwise the method decides. */
  function ActiveView(choice: LoginMethod, state: AuthState): (v: LoginView)
    ensures v == QrView <==> ShowQr(choice, state)
    ensures v == PhoneView <==> ShowPhoneInput(choice, state)
    ensures v == CodeView <==> IsAwaitingCode(state)
    ensures v == PasswordView <==> IsAwaitingPassword(state)
  {
    if state == AwaitingCode then CodeView
    else if state == AwaitingPassword then PasswordView
    else if choice == QrMethod then QrView
    else PhoneView
  }

  function B2N(b: bool): nat { if b then 1 else 0 }

  /** For every state and method exactly one of the four view conditions
      holds, and the toggle is shown exactly when the method decides. */
  lemma ExactlyOneView(choice: LoginMethod, state: AuthState)
    ensures B2N(ShowQr(choice, state)) + B2N(ShowPhoneInput(choice, state))
      + B2N(IsAwaitingCode(state)) + B2N(IsAwaitingPassword(state)) == 1
    ensures ShowMethodToggle(state) <==> ActiveView(choice, state) in {QrView, PhoneView}
  {
  }

  /** The effect keyed on the method and the state asks for a QR code iff
      the QR method is chosen while logged out. */
  predicate ShouldRequestQr(choice: LoginMethod, state: AuthState) {
    choice == QrMethod && state == LoggedOut
  }

  /** A QR code is asked for only while the QR view is on screen, and never
      once one has been issued (the QR_CODE state). */
  lemma QrRequestedOnlyOnQrView(choice: LoginMethod, state: AuthState)
    ensures ShouldRequestQr(choice, state) ==> ActiveView(choice, state) == QrView
    ensures state == QrCode ==> !ShouldRequestQr(choice, state)
    ensures ShouldRequestQr(choice, state) <==> choice == QrMethod && state == LoggedOut
  {
  }

  /** The component's state, with the two props it reacts to: the global
      auth state (`initialState`) and the backend's QR link. */
  class AuthScreenState {
    var loginMethod: LoginMethod
    var authState: AuthState
    var currentQr: Option<string>
    var phone: string
    var code: string
    var password: string
    var loading: bool

    constructor (initialState: AuthState, qrLink: Option<string>)
      ensures loginMethod == QrMethod && authState == initialState && currentQr == qrLink
      ensures phone == "" && code == "" && password == "" && !loading
    {
      loginMethod := QrMethod;
      authState := initialState;
      currentQr := qrLink;
      phone := "";
      code := "";
      password := "";
      loading := false;
    }

    /** The effects' first run, on mount: the QR effect asks for a code iff
        the (initial) QR method meets a logged-out state. */
    method Mount() returns (commands: seq<Command>)
      ensures commands == if ShouldRequestQr(loginMethod, authState) then [RequestQrCode] else []
      ensures commands != [] ==> ActiveView(loginMethod, authState) == QrView
    {
      QrRequestedOnlyOnQrView(loginMethod, authState);
      commands := if loginMethod == QrMethod && authState == LoggedOut then [RequestQrCode] else [];
    }

    /** A toggle button. The QR effect is keyed on the method, so it runs
        again only when the choice differs from the current one. */
    method ChooseMethod(m: LoginMethod) returns (commands: seq<Command>)
      modifies this`loginMethod
      ensures loginMethod == m
      ensures commands == if m != old(loginMethod) && ShouldRequestQr(m, authState) then [RequestQrCode] else []
    {
      var changed := m != loginMethod;
      loginMethod := m;
      commands := if changed && loginMethod == QrMethod && authState == LoggedOut then [RequestQrCode] else [];
    }

    /** New props from App. `currentQr` follows the link; the QR effect,
        keyed on the state, runs again only when the state changed. */
    method OnProps(state: AuthState, qrLink: Option<string>) returns (commands: seq<Command>)
      modifies this`authState, this`currentQr
      ensures authState == state && currentQr == qrLink
      ensures commands == if state != old(authState) && ShouldRequestQr(loginMethod, state) then [RequestQrCode] else []
    {
      var changed := state != authState;
      authState := state;
      currentQr := qrLink;
      commands := if changed && loginMethod == QrMethod && authState == LoggedOut then [RequestQrCode] else [];
    }

    /** The first half of a submit handler, up to the awaited call: set
        `loading` and send the form's command. */
    method BeginSubmit(view: LoginView) returns (command: Option<Command>)
      modifies this`loading
      ensures view != QrView ==> loading
      ensures view == QrView ==> loading == old(loading) && command == None
      ensures view == PhoneView ==> command == Some(SendPhoneNumber(phone))
      ensures view == CodeView ==> command == Some(VerifyCode(code))
      ensures view == PasswordView ==> command == Some(VerifyPassword(password))
    {
      match view
      case QrView =>
        command := None;
      case PhoneView =>
        loading := true;
        command := Some(SendPhoneNumber(phone));
      case CodeView =>
        loading := true;
        command := Some(VerifyCode(code));
      case PasswordView =>
        loading := true;
        command := Some(VerifyPassword(password));
    }

    /** The second half, once the awaited call has settled. */
    method FinishSubmit()
      modifies this`loading
      ensures !loading
    {
      loading := false;
    }
  }
}
