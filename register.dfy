/**
 * The registration form's submit handler (frontend/src/Register.js): an
 * ordered chain of field checks, the registration request, and the table
 * that turns a transport error into the message shown to the user.
 */
module Register {
  import opened Wrappers

  /** The characters JavaScript's `String.prototype.trim` removes. */
  predicate IsJsWhitespace(c: char)
  {
    || c == ' ' || c == '\t' || c == '\n' || c == '\r' || c == '\U{000B}' || c == '\U{000C}'
    || c == '\U{00A0}' || c == '\U{FEFF}' || c == '\U{1680}' || ('\U{2000}' <= c <= '\U{200A}')
    || c == '\U{2028}' || c == '\U{2029}' || c == '\U{202F}' || c == '\U{205F}' || c == '\U{3000}'
  }

  function TrimStart(s: string): string
  {
    if s != [] && IsJsWhitespace(s[0]) then TrimStart(s[1..]) else s
  }

  function TrimEnd(s: string): string
  {
    if s != [] && IsJsWhitespace(s[|s| - 1]) then TrimEnd(s[..|s| - 1]) else s
  }

  /** `s.trim()` */
  function Trim(s: string): string
  {
    TrimEnd(TrimStart(s))
  }

  /** `!s.trim()`: nothing is left after trimming. */
  predicate IsBlank(s: string)
  {
    Trim(s) == ""
  }

  /** A string trims to nothing exactly when every character in it is whitespace. */
  lemma {:induction false} BlankIffAllWhitespace(s: string)
    ensures IsBlank(s) <==> forall i :: 0 <= i < |s| ==> IsJsWhitespace(s[i])
  {
    TrimStartSpec(s);
    TrimEndEmpty(TrimStart(s));
  }

  lemma {:induction false} TrimStartSpec(s: string)
    ensures TrimStart(s) == [] <==> forall i :: 0 <= i < |s| ==> IsJsWhitespace(s[i])
    ensures TrimStart(s) != [] ==> !IsJsWhitespace(TrimStart(s)[0])
  {
    if s != [] && IsJsWhitespace(s[0]) {
      TrimStartSpec(s[1..]);
      assert forall i :: 1 <= i < |s| ==> s[i] == s[1..][i - 1];
    }
  }

  lemma {:induction false} TrimEndEmpty(s: string)
    requires s != [] ==> !IsJsWhitespace(s[0])
    ensures TrimEnd(s) == [] <==> s == []
  {
    if s != [] && IsJsWhitespace(s[|s| - 1]) {
      assert |s| > 1;
      TrimEndEmpty(s[..|s| - 1]);
    }
  }

  /** `s.length`: JavaScript counts UTF-16 code units, two for a character outside the basic plane. */
  function Utf16Length(s: string): nat
  {
    if s == [] then 0 else Utf16Length(s[..|s| - 1]) + (if s[|s| - 1] as int >= 0x1_0000 then 2 else 1)
  }

  /** The JavaScript length lies between the number of characters and twice that. */
  lemma {:induction false} Utf16LengthBounds(s: string)
    ensures |s| <= Utf16Length(s) <= 2 * |s|
    ensures (forall i :: 0 <= i < |s| ==> s[i] as int < 0x1_0000) ==> Utf16Length(s) == |s|
  {
    if s != [] {
      Utf16LengthBounds(s[..|s| - 1]);
    }
  }

  /** The messages the form shows. */
  datatype Message =
    | FillAllFields
    | PasswordsDoNotMatch
    | PasswordTooShort
    | CannotConnect
    | RequestTimeout
    | ServerText(text: string)
    | ServerStatus(status: nat)
    | NoResponse
    | NetworkError(message: Option<string>)

  /** The decimal digits of a status code. */
  function NatToString(n: nat): string
  {
    var digit := ['0' + (n % 10) as char];
    if n < 10 then digit else NatToString(n / 10) + digit
  }

  /** The text shown for a message. */
  function Text(m: Message): string
  {
    match m
    case FillAllFields => "Please fill in all fields"
    case PasswordsDoNotMatch => "Passwords do not match"
    case PasswordTooShort => "Password must be at least 6 characters long"
    case CannotConnect => "Cannot connect to server. Make sure the backend is running on http://localhost:8000"
    case RequestTimeout => "Request timeout. Server took too long to respond."
    case ServerText(text) => text
    case ServerStatus(status) => "Server error: " + NatToString(status)
    case NoResponse => "No response from server. Check if backend is running."
    case NetworkError(message) => "Network error: " + (if message.Some? then message.value else "undefined")
  }

  /**
   * The validation chain, in order: any blank field, then a confirmation
   * that differs, then a password shorter than 6 (counted untrimmed).  None
   * means the request may be sent.
   */
  function ValidateForm(username: string, email: string, password: string, confirmPassword: string): (r: Option<Message>)
    ensures r == Some(FillAllFields) <==>
      IsBlank(username) || IsBlank(email) || IsBlank(password) || IsBlank(confirmPassword)
    ensures r == Some(PasswordsDoNotMatch) <==> r != Some(FillAllFields) && password != confirmPassword
    ensures r == Some(PasswordTooShort) <==>
      r != Some(FillAllFields) && password == confirmPassword && Utf16Length(password) < 6
    ensures r.None? <==>
      !IsBlank(username) && !IsBlank(email) && !IsBlank(password) && !IsBlank(confirmPassword)
      && password == confirmPassword && Utf16Length(password) >= 6
  {
    if IsBlank(username) || IsBlank(email) || IsBlank(password) || IsBlank(confirmPassword) then Some(FillAllFields)
    else if password != confirmPassword then Some(PasswordsDoNotMatch)
    else if Utf16Length(password) < 6 then Some(PasswordTooShort)
    else None
  }

  /** `error.response.data`, where present: its `error` and `message` fields. */
  datatype ResponseData = ResponseData(error: Option<string>, message: Option<string>)

  datatype HttpResponse = HttpResponse(status: nat, data: Option<ResponseData>)

  /** What axios rejects with: a code, the server's response, whether a request went out, a message. */
  datatype TransportError = TransportError(
    code: Option<string>,
    response: Option<HttpResponse>,
    request: bool,
    message: Option<string>)

  /** A string field is truthy when present and non-empty. */
  predicate Truthy(s: Option<string>)
  {
    s.Some? && s.value != ""
  }

  /**
   * The error table, in priority order: a refused connection, a timeout, a
   * server response (its `error` text, else its `message` text, else its
   * status), a request with no response, anything else.
   */
  function ErrorMessage(e: TransportError): (m: Message)
    ensures e.code == Some("ECONNREFUSED") ==> m == CannotConnect
    ensures e.code == Some("ECONNABORTED") ==> m == RequestTimeout
    ensures m.ServerText? || m.ServerStatus? <==>
      e.response.Some? && e.code != Some("ECONNREFUSED") && e.code != Some("ECONNABORTED")
    ensures m.ServerText? ==>
      && m.text != "" && e.response.value.data.Some?
      && (Some(m.text) == e.response.value.data.value.error || Some(m.text) == e.response.value.data.value.message)
    ensures m.ServerText? && Truthy(e.response.value.data.value.error) ==> m.text == e.response.value.data.value.error.value
    ensures m.ServerStatus? ==> m.status == e.response.value.status
    ensures m == NoResponse <==>
      e.request && e.response.None? && e.code != Some("ECONNREFUSED") && e.code != Some("ECONNABORTED")
    ensures m.NetworkError? ==> m.message == e.message && !e.request && e.response.None?
    ensures e.code != Some("ECONNREFUSED") && e.code != Some("ECONNABORTED") && e.response.Some? ==>
      var data := e.response.value.data;
      && (data.Some? && Truthy(data.value.error) ==> m == ServerText(data.value.error.value))
      && (data.Some? && !Truthy(data.value.error) && Truthy(data.value.message) ==> m == ServerText(data.value.message.value))
      && (data.None? || (!Truthy(data.value.error) && !Truthy(data.value.message)) ==> m == ServerStatus(e.response.value.status))
    ensures e.code != Some("ECONNREFUSED") && e.code != Some("ECONNABORTED") && e.response.None? && !e.request ==>
      m == NetworkError(e.message)
  {
    if e.code == Some("ECONNREFUSED") then CannotConnect
    else if e.code == Some("ECONNABORTED") then RequestTimeout
    else if e.response.Some? then
      var data := e.response.value.data;
      if data.Some? && Truthy(data.value.error) then ServerText(data.value.error.value)
      else if data.Some? && Truthy(data.value.message) then ServerText(data.value.message.value)
      else ServerStatus(e.response.value.status)
    else if e.request then NoResponse
    else NetworkError(e.message)
  }

  /** The body posted to the registration endpoint. */
  datatype Credentials = Credentials(username: string, email: string, password: string)

  /** The form's state and what its handler has done to the outside world. */
  class RegisterForm {
    var username: string
    var email: string
    var password: string
    var confirmPassword: string
    var error: string
    var loading: bool
    /** The registration requests posted, oldest first. */
    var posted: seq<Credentials>
    /** The alerts shown, oldest first. */
    var alerts: seq<string>
    /** The route the page has navigated to, if any. */
    var route: Option<string>

    constructor (username: string, email: string, password: string, confirmPassword: string)
      ensures this.username == username && this.email == email
      ensures this.password == password && this.confirmPassword == confirmPassword
      ensures error == "" && !loading && posted == [] && alerts == [] && route == None
    {
      this.username := username;
      this.email := email;
      this.password := password;
      this.confirmPassword := confirmPassword;
      error := "";
      loading := false;
      posted := [];
      alerts := [];
      route := None;
    }

    /**
     * The checks before the request: on the first failing check the error
     * is shown and nothing else changes; when all pass, `loading` is set and
     * the error cleared.
     */
    method Validate() returns (proceed: bool)
      modifies this`error, this`loading
      ensures var check := ValidateForm(username, email, password, confirmPassword);
        && proceed == check.None?
        && (check.Some? ==> error == Text(check.value) && loading == old(loading))
        && (check.None? ==> error == "" && loading)
    {
      var check := ValidateForm(username, email, password, confirmPassword);
      if check.Some? {
        error := Text(check.value);
        return false;
      }
      loading := true;
      error := "";
      proceed := true;
    }

    /**
     * `handleRegister`, with the transport's outcome given: a failing check
     * only sets the error; otherwise one request is posted, success alerts
     * and navigates to the login page, failure shows the mapped message, and
     * `loading` ends false either way.
     */
    method HandleRegister(outcome: Result<(), TransportError>)
      modifies this
      ensures username == old(username) && email == old(email)
      ensures password == old(password) && confirmPassword == old(confirmPassword)
      ensures var check := ValidateForm(username, email, password, confirmPassword);
        check.Some? ==>
          && error == Text(check.value) && loading == old(loading)
          && posted == old(posted) && alerts == old(alerts) && route == old(route)
      ensures var check := ValidateForm(username, email, password, confirmPassword);
        check.None? ==>
          && !loading
          && posted == old(posted) + [Credentials(username, email, password)]
          && (outcome.Success? ==>
                error == "" && alerts == old(alerts) + ["Registration successful. Please login."] && route == Some("/login"))
          && (outcome.Failure? ==>
                error == Text(ErrorMessage(outcome.error)) && alerts == old(alerts) && route == old(route))
    {
      var proceed := Validate();
      if !proceed {
        return;
      }
      posted := posted + [Credentials(username, email, password)];
      if outcome.Success? {
        alerts := alerts + ["Registration successful. Please login."];
        route := Some("/login");
      } else {
        error := Text(ErrorMessage(outcome.error));
      }
      loading := false;
    }
  }

  /** A password of three characters outside the basic plane passes the length check. */
  lemma ThreeAstralCharactersAreLongEnough()
    ensures Utf16Length("\U{1F600}\U{1F600}\U{1F600}") == 6
  {
    var s := "\U{1F600}\U{1F600}\U{1F600}";
    assert s[..2][..1] == s[..1] && s[..1][..0] == [];
    assert Utf16Length(s[..1]) == 2;
    assert Utf16Length(s[..2]) == 4;
  }
}
