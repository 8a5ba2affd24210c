/**
 * The error taxonomy of cloud_runtimes/exceptions.py: a base exception that
 * carries a code, a message and a detail map, eight subclasses that each pin
 * one code, and the eight ERROR_CODE_* constants.
 */
module Exceptions {
  import opened Wrappers
  import opened Values

  // The module-level error code constants.
  const ERROR_CODE_NETWORK: string := "CR_NETWORK_ERROR"
  const ERROR_CODE_AUTH: string := "CR_AUTH_ERROR"
  const ERROR_CODE_PARAM: string := "CR_PARAM_ERROR"
  const ERROR_CODE_RESOURCE: string := "CR_RESOURCE_ERROR"
  const ERROR_CODE_SYSTEM: string := "CR_SYSTEM_ERROR"
  const ERROR_CODE_TIMEOUT: string := "CR_TIMEOUT_ERROR"
  const ERROR_CODE_NOT_FOUND: string := "CR_NOT_FOUND_ERROR"
  const ERROR_CODE_CONFLICT: string := "CR_CONFLICT_ERROR"

  /** The eight subclasses of CloudRuntimesException, one per error kind. */
  datatype ErrorKind =
    | Network         // NetworkException
    | Authentication  // AuthenticationException
    | Parameter       // ParameterException
    | Resource        // ResourceException
    | System          // SystemException
    | Timeout         // TimeoutException
    | NotFound        // NotFoundException
    | Conflict        // ConflictException

  /** The code string a subclass's constructor hands to the base constructor. */
  function Code(k: ErrorKind): string {
    match k
    case Network => "CR_NETWORK_ERROR"
    case Authentication => "CR_AUTH_ERROR"
    case Parameter => "CR_PARAM_ERROR"
    case Resource => "CR_RESOURCE_ERROR"
    case System => "CR_SYSTEM_ERROR"
    case Timeout => "CR_TIMEOUT_ERROR"
    case NotFound => "CR_NOT_FOUND_ERROR"
    case Conflict => "CR_CONFLICT_ERROR"
  }

  /** The error code constant that names the same kind. */
  function CodeConstant(k: ErrorKind): string {
    match k
    case Network => ERROR_CODE_NETWORK
    case Authentication => ERROR_CODE_AUTH
    case Parameter => ERROR_CODE_PARAM
    case Resource => ERROR_CODE_RESOURCE
    case System => ERROR_CODE_SYSTEM
    case Timeout => ERROR_CODE_TIMEOUT
    case NotFound => ERROR_CODE_NOT_FOUND
    case Conflict => ERROR_CODE_CONFLICT
  }

  /** Which kind, if any, a code string belongs to: the inverse of Code on its eight strings. */
  function KindOfCode(code: string): Option<ErrorKind> {
    if code == ERROR_CODE_NETWORK then Some(Network)
    else if code == ERROR_CODE_AUTH then Some(Authentication)
    else if code == ERROR_CODE_PARAM then Some(Parameter)
    else if code == ERROR_CODE_RESOURCE then Some(Resource)
    else if code == ERROR_CODE_SYSTEM then Some(System)
    else if code == ERROR_CODE_TIMEOUT then Some(Timeout)
    else if code == ERROR_CODE_NOT_FOUND then Some(NotFound)
    else if code == ERROR_CODE_CONFLICT then Some(Conflict)
    else None
  }

  /** Each subclass pins the code that its ERROR_CODE_* constant holds. */
  lemma ConstantsMatchSubclasses(k: ErrorKind)
    ensures Code(k) == CodeConstant(k)
  {
  }

  /** Decoding the code of a kind gives back that kind. */
  lemma KindOfCodeInverts(k: ErrorKind)
    ensures KindOfCode(Code(k)) == Some(k)
  {
  }

  /** A code string decodes to a kind exactly when it is that kind's code. */
  lemma KindOfCodeExact(code: string, k: ErrorKind)
    ensures KindOfCode(code) == Some(k) <==> Code(k) == code
  {
  }

  /** The eight codes are pairwise distinct. */
  lemma CodeInjective(j: ErrorKind, k: ErrorKind)
    requires Code(j) == Code(k)
    ensures j == k
  {
  }

  /** A detail map: string keys, arbitrary values. */
  type Details = map<string, Value>

  /** The concrete class an exception was raised as. */
  datatype ExceptionClass = Base | Subclass(kind: ErrorKind)

  /** A CloudRuntimesException (or one of its subclasses) once constructed. */
  datatype CloudRuntimesException = CloudRuntimesException(
    cls: ExceptionClass,
    code: string,
    message: string,
    details: Details)

  /**
   * The exceptions the constructors build: a subclass exception carries the
   * code its class pins. The base class accepts any code, even a
   * subclass's code.
   */
  predicate WellFormed(e: CloudRuntimesException) {
    e.cls.Subclass? ==> e.code == Code(e.cls.kind)
  }

  /** `details or {}`: an absent or empty map becomes a fresh empty map. */
  function DetailsOrEmpty(details: Option<Details>): (d: Details)
    ensures details.None? ==> d == map[]
    ensures details.Some? ==> d == details.value
  {
    if details.None? || details.value == map[] then map[] else details.value
  }

  /** The base class constructor; it accepts any code string. */
  function NewException(code: string, message: string, details: Option<Details> := None): (e: CloudRuntimesException)
    ensures e.cls == Base && e.code == code && e.message == message
    ensures e.details == details.GetOr(map[])
    ensures WellFormed(e)
  {
    CloudRuntimesException(Base, code, message, DetailsOrEmpty(details))
  }

  /** The constructor of the subclass for kind k: it fixes the code and forwards message and details. */
  function NewKindException(k: ErrorKind, message: string, details: Option<Details> := None): (e: CloudRuntimesException)
    ensures e.cls == Subclass(k) && e.code == Code(k) && e.message == message
    ensures e.details == details.GetOr(map[])
    ensures WellFormed(e)
  {
    var base := NewException(Code(k), message, details);
    base.(cls := Subclass(k))
  }

  /**
   * The kind an exception was raised as, if it was raised as a subclass.
   * Like isinstance, it reads the class and not the code.
   */
  function KindOf(e: CloudRuntimesException): Option<ErrorKind> {
    match e.cls
    case Base => None
    case Subclass(k) => Some(k)
  }

  /** A subclass exception's code names its kind. */
  lemma KindOfAgreesWithCode(k: ErrorKind, message: string, details: Option<Details>)
    ensures KindOfCode(NewKindException(k, message, details).code) == KindOf(NewKindException(k, message, details))
  {
  }

  const DISPLAY_PREFIX: string := "CloudRuntimes error ["
  const DISPLAY_SEPARATOR: string := "]: "

  /** The text the base constructor passes to Exception.__init__, i.e. str(e). */
  function Display(code: string, message: string): string {
    DISPLAY_PREFIX + code + DISPLAY_SEPARATOR + message
  }

  /** str(e) of a constructed exception. */
  function Text(e: CloudRuntimesException): string {
    Display(e.code, e.message)
  }

  /** The first position of c in s, if any. */
  function IndexOf(s: string, c: char): (r: Option<nat>)
    ensures r.None? ==> c !in s
    ensures r.Some? ==> r.value < |s| && s[r.value] == c && c !in s[..r.value]
  {
    if s == [] then None
    else if s[0] == c then Some(0)
    else
      match IndexOf(s[1..], c)
      case None => None
      case Some(i) =>
        assert s[1..][..i] == s[1..i + 1];
        Some(i + 1)
  }

  /** Reads a display text back into its code and message, splitting at the first ']' after the prefix. */
  function ParseDisplay(s: string): Option<(string, string)> {
    if |s| < |DISPLAY_PREFIX| || s[..|DISPLAY_PREFIX|] != DISPLAY_PREFIX then None
    else
      var rest := s[|DISPLAY_PREFIX|..];
      match IndexOf(rest, ']')
      case None => None
      case Some(i) =>
        if |rest| - i < |DISPLAY_SEPARATOR| || rest[i..i + |DISPLAY_SEPARATOR|] != DISPLAY_SEPARATOR then None
        else Some((rest[..i], rest[i + |DISPLAY_SEPARATOR|..]))
  }

  /** The display text of a code without ']' determines both the code and the message. */
  lemma ParseDisplayInverts(code: string, message: string)
    requires ']' !in code
    ensures ParseDisplay(Display(code, message)) == Some((code, message))
  {
    var s := Display(code, message);
    assert s[..|DISPLAY_PREFIX|] == DISPLAY_PREFIX;
    var rest := s[|DISPLAY_PREFIX|..];
    assert rest == code + DISPLAY_SEPARATOR + message;
    assert rest[|code|] == ']';
    IndexOfFirst(rest, ']', |code|);
    assert rest[..|code|] == code;
    assert rest[|code|..|code| + |DISPLAY_SEPARATOR|] == DISPLAY_SEPARATOR;
    assert rest[|code| + |DISPLAY_SEPARATOR|..] == message;
  }

  /** IndexOf finds the first occurrence. */
  lemma IndexOfFirst(s: string, c: char, i: nat)
    requires i < |s| && s[i] == c && c !in s[..i]
    ensures IndexOf(s, c) == Some(i)
  {
  }

  /** Two exceptions whose codes carry no ']' and whose texts agree have the same code and message. */
  lemma DisplayInjective(c1: string, m1: string, c2: string, m2: string)
    requires ']' !in c1 && ']' !in c2
    requires Display(c1, m1) == Display(c2, m2)
    ensures c1 == c2 && m1 == m2
  {
    ParseDisplayInverts(c1, m1);
    ParseDisplayInverts(c2, m2);
  }

  /** None of the eight taxonomy codes contains ']', so a subclass exception's text identifies its kind. */
  lemma KindTextIdentifiesKind(j: ErrorKind, mj: string, k: ErrorKind, mk: string)
    requires Display(Code(j), mj) == Display(Code(k), mk)
    ensures j == k && mj == mk
  {
    CodeHasNoBracket(j);
    CodeHasNoBracket(k);
    DisplayInjective(Code(j), mj, Code(k), mk);
    CodeInjective(j, k);
  }

  /**
   * In a well-formed exception raised as a subclass, the code decodes to the
   * class, and equal texts of two such exceptions mean equal kinds and messages.
   */
  lemma WellFormedKindMatchesCode(e: CloudRuntimesException, f: CloudRuntimesException)
    requires WellFormed(e) && WellFormed(f) && e.cls.Subclass? && f.cls.Subclass?
    ensures KindOfCode(e.code) == KindOf(e)
    ensures Text(e) == Text(f) ==> KindOf(e) == KindOf(f) && e.message == f.message
  {
    KindOfCodeInverts(e.cls.kind);
    if Text(e) == Text(f) {
      KindTextIdentifiesKind(e.cls.kind, e.message, f.cls.kind, f.message);
    }
  }

  lemma CodeHasNoBracket(k: ErrorKind)
    ensures ']' !in Code(k)
  {
  }

  /** The base constructor accepts any code, so a ']' in a code makes the text ambiguous. */
  lemma DisplayAmbiguousWithBracket()
    ensures Display("A]: B", "C") == Display("A", "B]: C")
  {
  }

  /**
   * What a call into the core can raise: a taxonomy exception, or the
   * NotImplementedError an accessor raises for a capability nobody bound.
   */
  datatype Failure =
    | Raised(exception: CloudRuntimesException)
    | Unbound(name: string)
  {
    /** str() of what was raised. */
    function Message(): string {
      match this
      case Raised(e) => Text(e)
      case Unbound(name) => name + " runtime not implemented"
    }

    /** The taxonomy kind of a failure; an unbound capability has none. */
    function Kind(): Option<ErrorKind> {
      match this
      case Raised(e) => KindOf(e)
      case Unbound(_) => None
    }
  }
}
