/** The validation middleware of server/src/middlewares/validate.ts: the
    pass/fail decision, the mapping of errors to reply details, and the
    username, password, amount and id rules of `commonValidations`. The
    validator library itself is not modelled: a rule is the list of errors it
    reports. */
module Validate {
  import opened Wrappers

  /** A request value as JavaScript sees it. */
  datatype JsValue = Undefined | Null | JsBool(b: bool) | JsNumber(n: int) | JsString(s: string)

  predicate Truthy(v: JsValue) {
    match v
    case Undefined => false
    case Null => false
    case JsBool(b) => b
    case JsNumber(n) => n != 0
    case JsString(s) => s != ""
  }

  /** One error of the validation result; `path` is "" when the error has none. */
  datatype ValidationError = ValidationError(kind: string, path: string, msg: string, value: JsValue)

  /** One entry of the reply's `details`. */
  datatype Detail = Detail(field: string, message: string, value: JsValue)

  /** `{ field: path || type, message: msg, value: value || undefined }`. */
  function ToDetail(e: ValidationError): (d: Detail)
    ensures d.field == (if e.path != "" then e.path else e.kind)
    ensures d.message == e.msg
    ensures Truthy(e.value) ==> d.value == e.value
    ensures !Truthy(e.value) ==> d.value == Undefined
  {
    Detail(if e.path != "" then e.path else e.kind, e.msg, if Truthy(e.value) then e.value else Undefined)
  }

  datatype Outcome = Proceed | Rejected(status: int, message: string, details: seq<Detail>)

  /** `validate(...)`: continue iff there is no error, otherwise a 400 reply with
      one detail per error, in order. */
  function Decide(errors: seq<ValidationError>): (o: Outcome)
    ensures o == Proceed <==> |errors| == 0
    ensures o.Rejected? ==> o.status == 400 && o.message == "Validation failed"
    ensures o.Rejected? ==> |o.details| == |errors| && forall i :: 0 <= i < |errors| ==> o.details[i] == ToDetail(errors[i])
  {
    if |errors| == 0 then Proceed
    else Rejected(400, "Validation failed", seq(|errors|, i requires 0 <= i < |errors| => ToDetail(errors[i])))
  }

  /** A character of `/^[a-zA-Z0-9_]+$/`. */
  predicate UsernameChar(c: char) {
    ('a' <= c <= 'z') || ('A' <= c <= 'Z') || ('0' <= c <= '9') || c == '_'
  }

  /** `matches(/^[a-zA-Z0-9_]+$/)`. */
  predicate MatchesUsernamePattern(s: string) {
    |s| >= 1 && forall i :: 0 <= i < |s| ==> UsernameChar(s[i])
  }

  /** A field error on the body. */
  function BodyError(path: string, msg: string, value: string): ValidationError {
    ValidationError("field", path, msg, JsString(value))
  }

  /** The errors the username rule reports: one per failing check, in order. */
  function UsernameErrors(s: string): (es: seq<ValidationError>)
    ensures |es| <= 2
    ensures forall i :: 0 <= i < |es| ==> es[i].path == "username"
  {
    (if 3 <= |s| <= 30 then [] else [BodyError("username", "Username must be between 3 and 30 characters", s)])
    + (if MatchesUsernamePattern(s) then [] else
         [BodyError("username", "Username can only contain letters, numbers, and underscores", s)])
  }

  /** The errors the password rule reports. */
  function PasswordErrors(s: string): (es: seq<ValidationError>)
    ensures |es| <= 1
  {
    if |s| >= 6 then [] else [BodyError("password", "Password must be at least 6 characters long", s)]
  }

  /** The errors the amount rule reports; `parsed` is the value `isFloat`
      reads from the text, `None` when the text is not a float. */
  function AmountErrors(text: string, parsed: Option<real>): (es: seq<ValidationError>)
    ensures |es| <= 1
  {
    if parsed.Some? && parsed.value >= 0.0 then [] else [BodyError("amount", "Amount must be a positive number", text)]
  }

  predicate HexDigit(c: char) {
    ('0' <= c <= '9') || ('a' <= c <= 'f') || ('A' <= c <= 'F')
  }

  /** `isMongoId`: 24 hexadecimal digits. */
  function IdErrors(s: string): (es: seq<ValidationError>)
    ensures |es| == 0 <==> |s| == 24 && forall i :: 0 <= i < |s| ==> HexDigit(s[i])
  {
    if |s| == 24 && forall i :: 0 <= i < |s| ==> HexDigit(s[i]) then []
    else [BodyError("id", "Invalid ID format", s)]
  }

  /** A username passes iff it has 3 to 30 characters, all letters, digits or underscores. */
  lemma UsernameRule(s: string)
    ensures Decide(UsernameErrors(s)) == Proceed <==>
              3 <= |s| <= 30 && forall i :: 0 <= i < |s| ==> UsernameChar(s[i])
  {
  }

  /** A password passes iff it has at least 6 characters. */
  lemma PasswordRule(s: string)
    ensures Decide(PasswordErrors(s)) == Proceed <==> |s| >= 6
  {
  }

  /** The amount rule accepts every float of at least 0, including 0. */
  lemma AmountRule(text: string, parsed: Option<real>)
    ensures Decide(AmountErrors(text, parsed)) == Proceed <==> parsed.Some? && parsed.value >= 0.0
    ensures Decide(AmountErrors(text, Some(0.0))) == Proceed
  {
  }

  /** Errors of several rules concatenate: the request passes iff every rule passes,
      and the details keep the rules' order. */
  lemma {:induction false} RulesCombine(a: seq<ValidationError>, b: seq<ValidationError>)
    ensures Decide(a + b) == Proceed <==> Decide(a) == Proceed && Decide(b) == Proceed
    ensures Decide(a + b).Rejected? && Decide(a).Rejected? ==>
              Decide(a + b).details[..|a|] == Decide(a).details
  {
  }

  /** The registration rules: the request passes iff username and password are both valid. */
  lemma RegistrationRules(username: string, password: string)
    ensures Decide(UsernameErrors(username) + PasswordErrors(password)) == Proceed <==>
              3 <= |username| <= 30 && (forall i :: 0 <= i < |username| ==> UsernameChar(username[i]))
              && |password| >= 6
  {
    RulesCombine(UsernameErrors(username), PasswordErrors(password));
    UsernameRule(username);
    PasswordRule(password);
  }
}
