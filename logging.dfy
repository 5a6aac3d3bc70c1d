/** The level selection of `setup_log`. */
module Logging {
  import Text

  /** What `logger.setLevel` receives: one of logging's numbers, or the name given. */
  datatype Level = Numeric(value: int) | Named(name: string)

  const DEBUG := 10
  const INFO := 20
  const CRITICAL := 50

  /** The three names `setup_log` recognises, compared upper-cased. */
  predicate Recognised(name: string)
  {
    var u := Text.Upper(name);
    u == "INFO" || u == "DEBUG" || u == "NONE"
  }

  /**
   * `setup_log(level)`: INFO, DEBUG and NONE in any letter case select
   * logging.INFO, logging.DEBUG and logging.CRITICAL; any other string is
   * passed on unchanged.
   */
  function LevelFor(name: string): (l: Level)
    ensures l.Numeric? <==> Recognised(name)
    ensures !Recognised(name) ==> l == Named(name)
    ensures l.Numeric? ==> l.value in {DEBUG, INFO, CRITICAL}
    ensures Text.Upper(name) == "INFO" ==> l == Numeric(INFO)
    ensures Text.Upper(name) == "DEBUG" ==> l == Numeric(DEBUG)
    ensures Text.Upper(name) == "NONE" ==> l == Numeric(CRITICAL)
  {
    var u := Text.Upper(name);
    if u == "INFO" then Numeric(INFO)
    else if u == "DEBUG" then Numeric(DEBUG)
    else if u == "NONE" then Numeric(CRITICAL)
    else Named(name)
  }

  /** The names `logging` registers for its levels; `setLevel` looks a name up as given. */
  const LevelNames: set<string> := {"CRITICAL", "FATAL", "ERROR", "WARN", "WARNING", "INFO", "DEBUG", "NOTSET"}

  /** `logger.setLevel(l)` accepts a number, or a registered name; any other name raises ValueError. */
  predicate Accepted(l: Level)
  {
    l.Numeric? || l.name in LevelNames
  }

  /**
   * The configured name survives `setLevel` exactly when `setup_log` recognises
   * it or it is itself a registered name, spelled as registered.
   */
  lemma AcceptedNames(name: string)
    ensures Accepted(LevelFor(name)) <==> Recognised(name) || name in LevelNames
  {
  }

  /** A lower-case `warning` is passed on and rejected; `WARNING` is accepted. */
  lemma WarningSpelling()
    ensures !Accepted(LevelFor("warning")) && Accepted(LevelFor("WARNING"))
  {
    assert Text.Upper("warning") == "WARNING";
    assert Text.Upper("WARNING") == "WARNING";
  }

  /** Two spellings that upper-case alike select the same level. */
  lemma CaseInsensitive(a: string, b: string)
    requires Text.Upper(a) == Text.Upper(b) && Recognised(a)
    ensures LevelFor(a) == LevelFor(b)
  {
  }

  /** NONE silences everything below CRITICAL; the default configuration's "debug" is DEBUG. */
  lemma NamedLevels()
    ensures LevelFor("none") == Numeric(CRITICAL) && LevelFor("NONE") == Numeric(CRITICAL)
    ensures LevelFor("debug") == Numeric(DEBUG) && LevelFor("Info") == Numeric(INFO)
    ensures LevelFor("warning") == Named("warning")
  {
    assert Text.Upper("none") == "NONE";
    assert Text.Upper("NONE") == "NONE";
    assert Text.Upper("debug") == "DEBUG";
    assert Text.Upper("Info") == "INFO";
    assert Text.Upper("warning") == "WARNING";
  }
}
