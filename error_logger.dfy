/** Error severity classification and the shape of the record written to the log table. */
module ErrorLogger {
  import opened Wrappers
  import opened JsText
  import opened Json

  /** `LogSeverity`. */
  datatype Severity = Error | Warning | Info | Critical {
    /** The text stored for the level. */
    function Text(): string {
      match this
      case Error => "error"
      case Warning => "warning"
      case Info => "info"
      case Critical => "critical"
    }
  }

  /** The parts of a thrown value the logger reads; `isTypeError` is `instanceof TypeError`. */
  datatype ErrorValue = ErrorValue(name: string, message: string, stack: Option<string>, isTypeError: bool)

  /** Authentication trouble: system breaking. */
  predicate IsCriticalError(e: ErrorValue) {
    e.name == "AuthenticationError" || Includes(e.message, "authentication")
    || Includes(e.message, "permission") || Includes(e.message, "unauthorized")
  }

  /** Database trouble. */
  predicate IsDatabaseError(e: ErrorValue, source: string) {
    Includes(source, "supabase") || Includes(e.message, "database") || Includes(e.message, "query")
  }

  /** Network trouble. */
  predicate IsNetworkError(e: ErrorValue) {
    e.isTypeError || Includes(e.message, "network") || Includes(e.message, "fetch") || Includes(e.message, "timeout")
  }

  /** Validation or expected errors. */
  predicate IsValidationError(e: ErrorValue) {
    e.name == "ValidationError" || Includes(e.message, "validation") || Includes(e.message, "invalid")
  }

  /** `calculateSeverity(error, source)`: the first test that holds decides. */
  function CalculateSeverity(e: ErrorValue, source: string): (s: Severity)
    ensures s != Info
    ensures IsCriticalError(e) <==> s == Critical
    ensures s == Warning <==> !IsCriticalError(e) && !IsDatabaseError(e, source) && (IsNetworkError(e) || IsValidationError(e))
    ensures s == Error <==> !IsCriticalError(e) && (IsDatabaseError(e, source) || (!IsNetworkError(e) && !IsValidationError(e)))
  {
    if IsCriticalError(e) then Critical
    else if IsDatabaseError(e, source) then Error
    else if IsNetworkError(e) then Warning
    else if IsValidationError(e) then Warning
    else Error
  }

  /**
   * The tests are case-sensitive: a message without a lower-case `a`, `p` or `u` (the
   * keywords' first letters), such as "Permission" or "AUTHENTICATION FAILED", never
   * matches a keyword, so only the error's name could make it critical.
   */
  lemma KeywordsAreCaseSensitive(e: ErrorValue, source: string)
    requires e.name != "AuthenticationError"
    requires forall k | 0 <= k < |e.message| :: e.message[k] != 'a' && e.message[k] != 'p' && e.message[k] != 'u'
    ensures CalculateSeverity(e, source) != Critical
  {
    MissingFirstLetter(e.message, "authentication");
    MissingFirstLetter(e.message, "permission");
    MissingFirstLetter(e.message, "unauthorized");
  }

  /** A word whose first letter the text lacks occurs nowhere in it. */
  lemma MissingFirstLetter(s: string, w: string)
    requires |w| > 0 && forall k | 0 <= k < |s| :: s[k] != w[0]
    ensures !Includes(s, w)
  {
    forall i | 0 <= i <= |s|
      ensures !OccursAt(s, w, i)
    {
      if i + |w| <= |s| {
        assert s[i..i + |w|][0] == s[i];
      }
    }
  }

  /** A message that starts with the lower-case keyword is critical, whatever else holds. */
  lemma LowerCasePermissionIsCritical(e: ErrorValue, source: string)
    requires OccursAt(e.message, "permission", 0)
    ensures CalculateSeverity(e, source) == Critical
  {
  }

  /** Each level has its own text. */
  lemma SeverityTextInjective(a: Severity, b: Severity)
    ensures a.Text() == b.Text() <==> a == b
  {
  }

  /** The row `logError` inserts into `logs`. */
  datatype LogRecord = LogRecord(source: string, errorMessage: string, errorStack: Option<string>, severity: string, context: Json)

  /**
   * `logError(error, source, context, severity)`: a truthy caller-supplied severity wins
   * over the computed one. The insert itself is I/O; whether it fails or not, the call
   * resolves, so the record is the whole result.
   */
  function LogError(e: ErrorValue, source: string, context: Json, severity: Option<string>): (r: LogRecord)
    ensures r.source == source && r.errorMessage == e.message && r.errorStack == e.stack && r.context == context
    ensures severity.Some? && severity.value != "" ==> r.severity == severity.value
    ensures severity.None? || severity.value == "" ==> r.severity == CalculateSeverity(e, source).Text()
    ensures severity.None? ==> r.severity != "info"
  {
    var level := if severity.Some? && severity.value != "" then severity.value else CalculateSeverity(e, source).Text();
    LogRecord(source, e.message, e.stack, level, context)
  }

  /**
   * Without a caller-supplied level, the stored text names the computed level and no
   * other one, so "critical" is logged exactly for authentication trouble.
   */
  lemma LoggedLevelIsComputed(e: ErrorValue, source: string, context: Json)
    ensures var r := LogError(e, source, context, None);
      && (forall s: Severity :: r.severity == s.Text() <==> s == CalculateSeverity(e, source))
      && (r.severity == "critical" <==> IsCriticalError(e))
  {
    forall s: Severity
      ensures LogError(e, source, context, None).severity == s.Text() <==> s == CalculateSeverity(e, source)
    {
      SeverityTextInjective(s, CalculateSeverity(e, source));
    }
    SeverityTextInjective(Critical, CalculateSeverity(e, source));
  }
}
