/**
 * The field predicates and the API error messages of the shared validation
 * helpers: e-mail and password checks, required-field collection and the
 * status-to-message mapping.
 */
module Validation {
  import opened Wrappers
  import opened Text
  import Api

  /** A character the e-mail pattern's `[^\s@]` class accepts. */
  predicate IsEmailChar(c: char) {
    !IsSpace(c) && c != '@'
  }

  predicate AllEmailChars(s: string) {
    forall i :: 0 <= i < |s| ==> IsEmailChar(s[i])
  }

  /**
   * `/^[^\s@]+@[^\s@]+\.[^\s@]+$/` read as a decomposition: an `@` at
   * `at` and a `.` at `dot` split the string into three non-empty runs of
   * `[^\s@]` (the middle run may itself contain dots).
   */
  ghost predicate MatchesEmailPattern(s: string) {
    exists at, dot :: 0 < at && at + 1 < dot < |s| - 1 && s[at] == '@' && s[dot] == '.'
      && AllEmailChars(s[..at]) && AllEmailChars(s[at + 1..])
  }

  /** The index of the first `c` in `s`. */
  function IndexOf(s: string, c: char): (r: Option<nat>)
    ensures r.Some? ==> r.value < |s| && s[r.value] == c && forall j :: 0 <= j < r.value ==> s[j] != c
    ensures r.None? ==> forall j :: 0 <= j < |s| ==> s[j] != c
  {
    if s == [] then None
    else if s[0] == c then Some(0)
    else match IndexOf(s[1..], c)
      case None => None
      case Some(k) => Some(k + 1)
  }

  /** A `.` that is neither the first nor the last character. */
  predicate HasInnerDot(domain: string) {
    exists k :: 0 < k < |domain| - 1 && domain[k] == '.'
  }

  /**
   * The computed reading of the pattern: split at the first `@`; a non-empty
   * local part, and a domain with a `.` that is neither its first nor its
   * last character, both free of white space and `@`.
   */
  predicate SplitsAtFirstAt(email: string) {
    match IndexOf(email, '@')
    case None => false
    case Some(at) =>
      var local, domain := email[..at], email[at + 1..];
      |local| > 0 && AllEmailChars(local) && AllEmailChars(domain) && HasInnerDot(domain)
  }

  /** Splitting at the first `@` accepts exactly the strings the pattern matches. */
  lemma SplitsAtFirstAtIffPattern(email: string)
    ensures SplitsAtFirstAt(email) <==> MatchesEmailPattern(email)
  {
    if SplitsAtFirstAt(email) {
      var at := IndexOf(email, '@').value;
      var domain := email[at + 1..];
      var k :| 0 < k < |domain| - 1 && domain[k] == '.';
      var dot := at + 1 + k;
      assert email[dot] == '.';
      assert 0 < at && at + 1 < dot < |email| - 1 && email[at] == '@' && AllEmailChars(email[..at])
        && AllEmailChars(email[at + 1..]);
    }
    if MatchesEmailPattern(email) {
      var at, dot :| 0 < at && at + 1 < dot < |email| - 1 && email[at] == '@' && email[dot] == '.'
        && AllEmailChars(email[..at]) && AllEmailChars(email[at + 1..]);
      assert forall j :: 0 <= j < at ==> email[..at][j] == email[j];
      assert IndexOf(email, '@') == Some(at);
      var domain := email[at + 1..];
      assert domain[dot - at - 1] == '.';
    }
  }

  /** `isValidEmail`: accepts exactly the strings the pattern matches. */
  function IsValidEmail(email: string): (ok: bool)
    ensures ok <==> MatchesEmailPattern(email)
  {
    SplitsAtFirstAtIffPattern(email);
    SplitsAtFirstAt(email)
  }

  /** The e-mail check also rejects white space anywhere and a second `@`. */
  lemma ValidEmailHasOneAtAndNoSpace(email: string)
    requires IsValidEmail(email)
    ensures forall i :: 0 <= i < |email| ==> !IsSpace(email[i])
    ensures exists at :: 0 <= at < |email| && email[at] == '@'
                         && forall j :: 0 <= j < |email| && j != at ==> email[j] != '@'
  {
    assert SplitsAtFirstAt(email);
    var at := IndexOf(email, '@').value;
    assert forall i :: at < i < |email| ==> email[i] == email[at + 1..][i - at - 1];
    assert forall i :: 0 <= i < at ==> email[i] == email[..at][i];
  }

  /** `isValidPassword`: at least six characters. */
  function IsValidPassword(password: string): (ok: bool)
    ensures ok <==> |password| >= 6
  {
    |password| >= 6
  }

  /** A value of the record handed to `validateRequiredFields`, as JavaScript sees it. */
  datatype JsValue = Undefined | Null | Bool(b: bool) | Num(n: int) | NaN | Str(s: string) | Object

  predicate IsFalsy(v: JsValue) {
    v == Undefined || v == Null || v == Bool(false) || v == Num(0) || v == NaN || v == Str("")
  }

  function Lookup(data: map<string, JsValue>, field: string): JsValue {
    if field in data then data[field] else Undefined
  }

  /**
   * `!data[field] || (typeof data[field] === 'string' && data[field].trim() === '')`:
   * an absent field is missing, a string field is missing exactly when it is
   * all white space, and any other value exactly when it is falsy.
   */
  function IsMissing(data: map<string, JsValue>, field: string): (missing: bool)
    ensures field !in data ==> missing
    ensures Lookup(data, field).Str? ==>
      (missing <==> forall i :: 0 <= i < |Lookup(data, field).s| ==> IsSpace(Lookup(data, field).s[i]))
    ensures !Lookup(data, field).Str? ==> (missing <==> IsFalsy(Lookup(data, field)))
  {
    var v := Lookup(data, field);
    IsFalsy(v) || (v.Str? && Trim(v.s) == "")
  }

  /** The required fields that are missing, in the order they were asked for; nothing else. */
  function MissingFields(data: map<string, JsValue>, fields: seq<string>): (missing: seq<string>)
    ensures forall f :: f in missing <==> f in fields && IsMissing(data, f)
    ensures |missing| <= |fields|
  {
    if fields == [] then []
    else
      var init := fields[..|fields| - 1];
      assert fields == init + [fields[|fields| - 1]];
      MissingFields(data, init)
      + (if IsMissing(data, fields[|fields| - 1]) then [fields[|fields| - 1]] else [])
  }

  /** One more required field appends it exactly when it is missing. */
  lemma MissingFieldsSnoc(data: map<string, JsValue>, fields: seq<string>, i: nat)
    requires i < |fields|
    ensures MissingFields(data, fields[..i + 1])
            == MissingFields(data, fields[..i]) + (if IsMissing(data, fields[i]) then [fields[i]] else [])
  {
    assert fields[..i + 1][..i] == fields[..i];
  }

  /** `validateRequiredFields`: the loop that pushes every missing field. */
  method ValidateRequiredFields(data: map<string, JsValue>, requiredFields: seq<string>)
    returns (missing: seq<string>)
    ensures missing == MissingFields(data, requiredFields)
    ensures forall f :: f in missing <==> f in requiredFields && IsMissing(data, f)
    ensures |missing| <= |requiredFields|
  {
    missing := [];
    var i := 0;
    while i < |requiredFields|
      invariant 0 <= i <= |requiredFields|
      invariant missing == MissingFields(data, requiredFields[..i])
    {
      var field := requiredFields[i];
      MissingFieldsSnoc(data, requiredFields, i);
      if IsMissing(data, field) {
        missing := missing + [field];
      }
      i := i + 1;
    }
    assert requiredFields[..i] == requiredFields;
  }

  const BadRequestDefault: string := "Dados inválidos. Verifique as informações e tente novamente."
  const SessionExpiredMessage: string := "Sessão expirada. Faça login novamente."
  const ForbiddenMessage: string := "Você não tem permissão para realizar esta ação."
  const NotFoundMessage: string := "Recurso não encontrado."
  const ServerErrorMessage: string := "Erro interno do servidor. Tente novamente mais tarde."
  const RequestFailedDefault: string := "Ocorreu um erro na requisição."
  const NetworkMessage: string := "Não foi possível conectar ao servidor. Verifique sua conexão com a internet."
  const UnexpectedMessage: string := "Ocorreu um erro inesperado."

  /** The statuses that map to a fixed text, whatever the server said. */
  function FixedStatusMessage(code: int): Option<string> {
    if code == 401 then Some(SessionExpiredMessage)
    else if code == 403 then Some(ForbiddenMessage)
    else if code == 404 then Some(NotFoundMessage)
    else if code == 500 then Some(ServerErrorMessage)
    else None
  }

  /** `handleApiError`: the user-facing text for a failed request. */
  function HandleApiError(e: Api.HttpError): (msg: string)
    ensures msg != ""
    ensures e.Status? && FixedStatusMessage(e.code).Some? ==> msg == FixedStatusMessage(e.code).value
    ensures e.Status? && FixedStatusMessage(e.code).None? ==>
      msg == if e.message != "" then e.message
             else if e.code == 400 then BadRequestDefault else RequestFailedDefault
    ensures e.NoResponse? ==> msg == NetworkMessage
    ensures e.Setup? ==> msg == if e.message != "" then e.message else UnexpectedMessage
  {
    match e
    case Status(code, message) =>
      if code == 400 then (if message != "" then message else BadRequestDefault)
      else if code == 401 then SessionExpiredMessage
      else if code == 403 then ForbiddenMessage
      else if code == 404 then NotFoundMessage
      else if code == 500 then ServerErrorMessage
      else if message != "" then message else RequestFailedDefault
    case NoResponse(_) => NetworkMessage
    case Setup(message) => if message != "" then message else UnexpectedMessage
  }

  /** The server's message reaches the user only for the statuses without a fixed text. */
  lemma ServerMessageOnlyForUnlistedStatuses(code: int, m: string, m': string)
    requires FixedStatusMessage(code).Some?
    ensures HandleApiError(Api.Status(code, m)) == HandleApiError(Api.Status(code, m'))
  {
  }
}
