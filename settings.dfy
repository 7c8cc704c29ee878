/** What `show_settings` does with one setting: the query it issues, the
 *  validator it runs on the answer, the highlight it chooses and the line it
 *  prints. The database connection is an oracle from query text to Outcome.
 */
module PgSettings {
  import VersionParse
  import opened Wrappers

  /** What `conn.fetchval(q)` does for a query: return a value, raise
   *  `UndefinedFunctionError` or `UndefinedObjectError` (Recoverable, with the
   *  error's message), or raise anything else (Fatal). */
  datatype Outcome = Value(v: string) | Recoverable(message: string) | Fatal(error: string)

  /** The validators of the settings table: none, `parse_postgis_ver`, and the
   *  `jit` lambda. */
  datatype Validator = NoValidator | PostgisVersion | JitAdvice

  /** The settings, in the insertion order of the dict literal that the loop
   *  iterates. */
  const Settings: seq<(string, Validator)> := [
    ("version()", NoValidator),
    ("postgis_full_version()", PostgisVersion),
    ("jit", JitAdvice),
    ("shared_buffers", NoValidator),
    ("work_mem", NoValidator),
    ("maintenance_work_mem", NoValidator),
    ("max_connections", NoValidator),
    ("max_worker_processes", NoValidator),
    ("max_parallel_workers", NoValidator),
    ("max_parallel_workers_per_gather", NoValidator)
  ]

  /** Terminal highlight markers (defined in `openmaptiles/perfutils.py`).
   *  Only their being non-empty matters below. */
  const RED: string := "\U{1B}[31m"
  const RESET: string := "\U{1B}[0m"

  const JitWarning: string := "disable JIT in PG 11-12 for complex queries"

  /** Width that a setting name is padded to in a printed line. */
  const NameWidth: nat := 32

  // ---------------------------------------------------------------- queries

  /** The query issued for a setting. */
  function QueryText(name: string): string {
    (if '(' in name then "SELECT" else "SHOW") + " " + name + ";"
  }

  predicate IsSelect(q: string) {
    7 <= |q| && q[..7] == "SELECT "
  }

  /** Reads back the setting that a query asks for, checking that the query
   *  form agrees with the name. */
  function QuerySetting(q: string): Option<string> {
    if 8 <= |q| && IsSelect(q) && q[|q| - 1] == ';' && '(' in q[7..|q| - 1] then
      Some(q[7..|q| - 1])
    else if 6 <= |q| && q[..5] == "SHOW " && q[|q| - 1] == ';' && '(' !in q[5..|q| - 1] then
      Some(q[5..|q| - 1])
    else
      None
  }

  /** A name with a parenthesis is queried with SELECT, any other with SHOW. */
  lemma QueryForm(name: string)
    ensures IsSelect(QueryText(name)) <==> '(' in name
    ensures '(' in name ==> QueryText(name) == "SELECT " + name + ";"
    ensures '(' !in name ==> QueryText(name) == "SHOW " + name + ";"
  {
    var q := QueryText(name);
    if '(' !in name {
      assert q[1] == 'H';
    }
  }

  /** The query text determines the setting it was built from. */
  lemma QueryRoundTrip(name: string)
    ensures QuerySetting(QueryText(name)) == Some(name)
  {
    var q := QueryText(name);
    QueryForm(name);
    if '(' in name {
      assert q[7..|q| - 1] == name;
    } else {
      assert !IsSelect(q) by { assert q[1] == 'H'; }
      assert q[5..|q| - 1] == name;
    }
  }

  // ------------------------------------------------------------- validators

  /** The `jit` validator. */
  function JitMessage(v: string): (msg: string)
    ensures msg == "" <==> v == "off"
    ensures msg == "" || msg == JitWarning
  {
    if v != "off" then JitWarning else ""
  }

  /** The warning a validator returns for a fetched value; "" stands for both
   *  the empty string and the None that `parse_postgis_ver` returns, which
   *  the loop treats alike. */
  function Message(validator: Validator, v: string): string {
    match validator
    case NoValidator => ""
    case PostgisVersion => ""
    case JitAdvice => JitMessage(v)
  }

  /** The value of `is_postgis_v3` after one setting: only a value fetched for
   *  the PostGIS validator changes it. */
  function NextFlag(validator: Validator, o: Outcome, flag: bool): bool {
    if validator == PostgisVersion && o.Value? then VersionParse.IsPostgisV3(o.v) else flag
  }

  /** The value recorded for a setting whose query did not fail fatally. */
  function Captured(o: Outcome): string
    requires !o.Fatal?
  {
    match o
    case Value(v) => v
    case Recoverable(m) => m
  }

  /** The (prefix, suffix) pair around a printed line. */
  function Highlight(validator: Validator, o: Outcome): (string, string)
    requires !o.Fatal?
  {
    if o.Recoverable? then (RED, RESET)
    else
      var msg := Message(validator, o.v);
      if msg != "" then (RED, " " + msg + RESET) else ("", "")
  }

  /** A line is highlighted after a recoverable error, and after a `jit`
   *  value other than "off"; never otherwise. */
  lemma HighlightRule(validator: Validator, o: Outcome)
    requires !o.Fatal?
    ensures var h := Highlight(validator, o);
      (h.0 != "" <==> o.Recoverable? || (validator == JitAdvice && o.v != "off"))
      && (h.0 == "" ==> h.1 == "")
      && (h.0 != "" ==> h.0 == RED)
      && (o.Recoverable? ==> h.1 == RESET)
      && (o.Value? && h.0 != "" ==> h.1 == " " + JitWarning + RESET)
  {
  }

  // ----------------------------------------------------------------- output

  /** Python's `f"{s:32}"` for a string: left-aligned, padded with spaces,
   *  never truncated. */
  function PadRight(s: string, width: nat): (r: string)
    ensures |r| == if |s| < width then width else |s|
    ensures r[..|s|] == s
    ensures forall j :: |s| <= j < |r| ==> r[j] == ' '
  {
    if |s| < width then s + seq(width - |s|, _ => ' ') else s
  }

  /** One `print` call: a setting's line, or the trailing
   *  `print('vv', is_postgis_v3)`. */
  datatype Printed =
    | SettingLine(prefix: string, name: string, value: string, suffix: string)
    | FlagLine(flag: bool)

  /** The characters a `print` call writes, without the newline. */
  function Text(p: Printed): string {
    match p
    case SettingLine(prefix, name, value, suffix) =>
      "* " + prefix + PadRight(name, NameWidth) + " = " + value + suffix
    case FlagLine(flag) =>
      "vv " + (if flag then "True" else "False")
  }

  /** The line printed for a setting whose query did not fail fatally. */
  function EntryLine(name: string, validator: Validator, o: Outcome): Printed
    requires !o.Fatal?
  {
    var h := Highlight(validator, o);
    SettingLine(h.0, name, Captured(o), h.1)
  }

  /** Where the parts of a printed line sit: the name right after the marker
   *  and prefix, " = " at column 32 past it (or right after a longer name),
   *  then the value and the suffix. */
  lemma LineLayout(prefix: string, name: string, value: string, suffix: string)
    ensures var line := Text(SettingLine(prefix, name, value, suffix));
      var start := 2 + |prefix|;
      var w := if |name| < NameWidth then NameWidth else |name|;
      |line| == start + w + 3 + |value| + |suffix|
      && line[..start] == "* " + prefix
      && line[start..start + |name|] == name
      && (forall j :: start + |name| <= j < start + w ==> line[j] == ' ')
      && line[start + w..start + w + 3] == " = "
      && line[start + w + 3..] == value + suffix
  {
    var pad := PadRight(name, NameWidth);
    var line := Text(SettingLine(prefix, name, value, suffix));
    var start := 2 + |prefix|;
    assert line == ("* " + prefix) + pad + " = " + (value + suffix);
    assert line[start..start + |pad|] == pad;
    assert forall j :: start + |name| <= j < start + |pad| ==> line[j] == pad[j - start];
  }
}
