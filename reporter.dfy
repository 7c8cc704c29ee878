/** `show_settings`: walk the settings in order, query each, validate or
 *  capture the recoverable error, print a line and record the value; return
 *  the ordered results and the `is_postgis_v3` flag, or propagate the first
 *  fatal error.
 */
module Reporter {
  import VersionParse
  import opened PgSettings

  /** What a call produces. `lines` are the printed lines; when a fatal error
   *  propagates, the lines printed before it stay printed. */
  datatype Report =
    | Completed(results: seq<(string, string)>, isPostgisV3: bool, lines: seq<Printed>)
    | Aborted(error: string, lines: seq<Printed>)

  /** No setting in `entries` meets a fatal outcome. */
  predicate NoFatal(oracle: string -> Outcome, entries: seq<(string, Validator)>) {
    forall k :: 0 <= k < |entries| ==> !oracle(QueryText(entries[k].0)).Fatal?
  }

  /** The loop of `show_settings` over `entries`, from the state `results`,
   *  `flag`, `lines`, as a recursive definition. */
  function Fold(oracle: string -> Outcome, entries: seq<(string, Validator)>,
                results: seq<(string, string)>, flag: bool, lines: seq<Printed>): Report
    decreases |entries|
  {
    if entries == [] then
      Completed(results, flag, lines + [FlagLine(flag)])
    else
      var (name, validator) := entries[0];
      var o := oracle(QueryText(name));
      if o.Fatal? then
        Aborted(o.error, lines)
      else
        Fold(oracle, entries[1..], results + [(name, Captured(o))],
             NextFlag(validator, o, flag), lines + [EntryLine(name, validator, o)])
  }

  /** What `show_settings` does: every call starts from no results and a false flag. */
  function SettingsReport(oracle: string -> Outcome): Report {
    Fold(oracle, Settings, [], false, [])
  }

  // ------------------------------------------------------- the general fold

  lemma {:induction false} FoldCompletedIff(oracle: string -> Outcome, entries: seq<(string, Validator)>,
                                            results: seq<(string, string)>, flag: bool, lines: seq<Printed>)
    ensures Fold(oracle, entries, results, flag, lines).Completed? <==> NoFatal(oracle, entries)
    decreases |entries|
  {
    if entries != [] {
      var (name, validator) := entries[0];
      var o := oracle(QueryText(name));
      if !o.Fatal? {
        FoldCompletedIff(oracle, entries[1..], results + [(name, Captured(o))],
                         NextFlag(validator, o, flag), lines + [EntryLine(name, validator, o)]);
        assert NoFatal(oracle, entries) <==> NoFatal(oracle, entries[1..]) by {
          assert forall k :: 1 <= k < |entries| ==> entries[k] == entries[1..][k - 1];
        }
      }
    }
  }

  /** The (name, value) pair each entry records, in order. */
  function Captures(oracle: string -> Outcome, entries: seq<(string, Validator)>): seq<(string, string)>
    requires NoFatal(oracle, entries)
    decreases |entries|
  {
    if entries == [] then []
    else [(entries[0].0, Captured(oracle(QueryText(entries[0].0))))] + Captures(oracle, entries[1..])
  }

  /** The line each entry prints, in order. */
  function EntryLines(oracle: string -> Outcome, entries: seq<(string, Validator)>): seq<Printed>
    requires NoFatal(oracle, entries)
    decreases |entries|
  {
    if entries == [] then []
    else [EntryLine(entries[0].0, entries[0].1, oracle(QueryText(entries[0].0)))] + EntryLines(oracle, entries[1..])
  }

  lemma {:induction false} CapturesAt(oracle: string -> Outcome, entries: seq<(string, Validator)>)
    requires NoFatal(oracle, entries)
    ensures |Captures(oracle, entries)| == |entries|
    ensures forall k :: 0 <= k < |entries| ==>
      Captures(oracle, entries)[k] == (entries[k].0, Captured(oracle(QueryText(entries[k].0))))
    decreases |entries|
  {
    if entries != [] {
      CapturesAt(oracle, entries[1..]);
    }
  }

  lemma {:induction false} EntryLinesAt(oracle: string -> Outcome, entries: seq<(string, Validator)>)
    requires NoFatal(oracle, entries)
    ensures |EntryLines(oracle, entries)| == |entries|
    ensures forall k :: 0 <= k < |entries| ==>
      EntryLines(oracle, entries)[k] == EntryLine(entries[k].0, entries[k].1, oracle(QueryText(entries[k].0)))
    decreases |entries|
  {
    if entries != [] {
      EntryLinesAt(oracle, entries[1..]);
    }
  }

  /** Without a fatal outcome, the walk completes: each entry appends its
   *  (name, value) pair to the results and its line to the output, in
   *  order, and the flag line comes last. */
  lemma {:induction false} FoldCompletes(oracle: string -> Outcome, entries: seq<(string, Validator)>,
                                         results: seq<(string, string)>, flag: bool, lines: seq<Printed>)
    requires NoFatal(oracle, entries)
    ensures var r := Fold(oracle, entries, results, flag, lines);
      r.Completed?
      && r.results == results + Captures(oracle, entries)
      && r.lines == lines + EntryLines(oracle, entries) + [FlagLine(r.isPostgisV3)]
    decreases |entries|
  {
    if entries != [] {
      var (name, validator) := entries[0];
      var o := oracle(QueryText(name));
      var x := (name, Captured(o));
      var l := EntryLine(name, validator, o);
      FoldCompletes(oracle, entries[1..], results + [x], NextFlag(validator, o, flag), lines + [l]);
      assert results + [x] + Captures(oracle, entries[1..]) == results + Captures(oracle, entries);
      assert lines + [l] + EntryLines(oracle, entries[1..]) == lines + EntryLines(oracle, entries);
    }
  }

  /** The first fatal outcome ends the walk: its error is what propagates, and
   *  only the lines of the entries before it were printed. */
  lemma {:induction false} FoldAborts(oracle: string -> Outcome, entries: seq<(string, Validator)>,
                                      results: seq<(string, string)>, flag: bool, lines: seq<Printed>, j: nat)
    requires j < |entries| && oracle(QueryText(entries[j].0)).Fatal?
    requires NoFatal(oracle, entries[..j])
    ensures Fold(oracle, entries, results, flag, lines)
      == Aborted(oracle(QueryText(entries[j].0)).error, lines + EntryLines(oracle, entries[..j]))
    decreases j
  {
    if j > 0 {
      var (name, validator) := entries[0];
      var o := oracle(QueryText(name));
      assert entries[..j][0] == entries[0];
      var l := EntryLine(name, validator, o);
      assert entries[1..][..j - 1] == entries[..j][1..];
      FoldAborts(oracle, entries[1..], results + [(name, Captured(o))], NextFlag(validator, o, flag), lines + [l], j - 1);
      assert lines + [l] + EntryLines(oracle, entries[1..][..j - 1]) == lines + EntryLines(oracle, entries[..j]);
    }
  }

  /** A walk from the empty state that completes, entry by entry. */
  lemma FoldCompletedAt(oracle: string -> Outcome, entries: seq<(string, Validator)>)
    requires NoFatal(oracle, entries)
    ensures var r := Fold(oracle, entries, [], false, []);
      r.Completed?
      && |r.results| == |entries|
      && (forall k :: 0 <= k < |entries| ==>
            r.results[k] == (entries[k].0, Captured(oracle(QueryText(entries[k].0)))))
      && |r.lines| == |entries| + 1
      && (forall k :: 0 <= k < |entries| ==>
            r.lines[k] == EntryLine(entries[k].0, entries[k].1, oracle(QueryText(entries[k].0))))
      && r.lines[|entries|] == FlagLine(r.isPostgisV3)
  {
    FoldCompletes(oracle, entries, [], false, []);
    CapturesAt(oracle, entries);
    EntryLinesAt(oracle, entries);
  }

  /** A walk from the empty state that aborts at entry `j`, entry by entry. */
  lemma FoldAbortedAt(oracle: string -> Outcome, entries: seq<(string, Validator)>, j: nat)
    requires j < |entries| && oracle(QueryText(entries[j].0)).Fatal?
    requires forall k :: 0 <= k < j ==> !oracle(QueryText(entries[k].0)).Fatal?
    ensures var r := Fold(oracle, entries, [], false, []);
      r == Aborted(oracle(QueryText(entries[j].0)).error, r.lines)
      && |r.lines| == j
      && (forall k :: 0 <= k < j ==>
            r.lines[k] == EntryLine(entries[k].0, entries[k].1, oracle(QueryText(entries[k].0))))
  {
    var before := entries[..j];
    assert forall k :: 0 <= k < j ==> before[k] == entries[k];
    FoldAborts(oracle, entries, [], false, [], j);
    EntryLinesAt(oracle, before);
  }

  /** Only the PostGIS validator writes the flag. */
  lemma {:induction false} FoldKeepsFlag(oracle: string -> Outcome, entries: seq<(string, Validator)>,
                                         results: seq<(string, string)>, flag: bool, lines: seq<Printed>)
    requires forall k :: 0 <= k < |entries| ==> entries[k].1 != PostgisVersion
    ensures var r := Fold(oracle, entries, results, flag, lines);
      r.Completed? ==> r.isPostgisV3 == flag
    decreases |entries|
  {
    if entries != [] {
      var (name, validator) := entries[0];
      var o := oracle(QueryText(name));
      if !o.Fatal? {
        assert validator != PostgisVersion;
        var rest := entries[1..];
        assert forall k :: 0 <= k < |rest| ==> rest[k] == entries[k + 1];
        FoldKeepsFlag(oracle, rest, results + [(name, Captured(o))], flag,
                      lines + [EntryLine(name, validator, o)]);
      }
    }
  }

  /** With exactly one PostGIS entry, at position `p`, the flag ends as that
   *  entry's outcome leaves it: the version test of a fetched value, or the
   *  starting flag after a recoverable error. */
  lemma {:induction false} FoldFlag(oracle: string -> Outcome, entries: seq<(string, Validator)>,
                                    results: seq<(string, string)>, flag: bool, lines: seq<Printed>, p: nat)
    requires NoFatal(oracle, entries)
    requires p < |entries| && entries[p].1 == PostgisVersion
    requires forall k :: 0 <= k < |entries| && k != p ==> entries[k].1 != PostgisVersion
    ensures var r := Fold(oracle, entries, results, flag, lines);
      var o := oracle(QueryText(entries[p].0));
      r.Completed? && r.isPostgisV3 == (if o.Value? then VersionParse.IsPostgisV3(o.v) else flag)
    decreases p
  {
    var (name, validator) := entries[0];
    var o := oracle(QueryText(name));
    assert !o.Fatal?;
    var rest := entries[1..];
    assert forall k :: 0 <= k < |rest| ==> rest[k] == entries[k + 1];
    var results' := results + [(name, Captured(o))];
    var lines' := lines + [EntryLine(name, validator, o)];
    FoldCompletedIff(oracle, entries, results, flag, lines);
    if p == 0 {
      FoldKeepsFlag(oracle, rest, results', NextFlag(validator, o, flag), lines');
    } else {
      FoldFlag(oracle, rest, results', flag, lines', p - 1);
    }
  }

  // ------------------------------------------------ the settings of the source

  /** `version()` and `postgis_full_version()` are function calls, ... */
  lemma CallNames()
    ensures '(' in Settings[0].0 && '(' in Settings[1].0
  {
    assert Settings[0].0[7] == '(';
    assert Settings[1].0[20] == '(';
  }

  /** ... the other eight settings are configuration parameters. */
  lemma ParameterNames()
    ensures forall i :: 2 <= i < |Settings| ==> '(' !in Settings[i].0
  {
  }

  /** The ten queries, in order: SELECT for the two function calls, SHOW for
   *  the eight configuration parameters. */
  lemma SettingQueries()
    ensures |Settings| == 10
    ensures forall i :: 0 <= i < |Settings| ==> (IsSelect(QueryText(Settings[i].0)) <==> i < 2)
    ensures forall i :: 0 <= i < 2 ==> QueryText(Settings[i].0) == "SELECT " + Settings[i].0 + ";"
    ensures forall i :: 2 <= i < |Settings| ==> QueryText(Settings[i].0) == "SHOW " + Settings[i].0 + ";"
  {
    CallNames();
    ParameterNames();
    forall i | 0 <= i < |Settings|
      ensures IsSelect(QueryText(Settings[i].0)) <==> '(' in Settings[i].0
      ensures '(' in Settings[i].0 ==> QueryText(Settings[i].0) == "SELECT " + Settings[i].0 + ";"
      ensures '(' !in Settings[i].0 ==> QueryText(Settings[i].0) == "SHOW " + Settings[i].0 + ";"
    {
      QueryForm(Settings[i].0);
    }
  }

  /** The query whose answer decides the flag. */
  lemma PostgisQuery()
    ensures QueryText("postgis_full_version()") == "SELECT postgis_full_version();"
  {
    var name := "postgis_full_version()";
    assert name[20] == '(';
    QueryForm(name);
  }

  /** No two settings share a name, so no two share a query: answering each
   *  query with a function of its text covers every connection. */
  lemma SettingsDistinct()
    ensures forall i, j :: 0 <= i < j < |Settings| ==> Settings[i].0 != Settings[j].0
    ensures forall i, j :: 0 <= i < j < |Settings| ==> QueryText(Settings[i].0) != QueryText(Settings[j].0)
  {
    forall i, j | 0 <= i < j < |Settings|
      ensures QueryText(Settings[i].0) != QueryText(Settings[j].0)
    {
      QueryRoundTrip(Settings[i].0);
      QueryRoundTrip(Settings[j].0);
    }
  }

  /** A call completes exactly when no query fails fatally. */
  lemma CompletesIff(oracle: string -> Outcome)
    ensures SettingsReport(oracle).Completed? <==> NoFatal(oracle, Settings)
  {
    FoldCompletedIff(oracle, Settings, [], false, []);
  }

  /** A completed call returns the ten settings as keys, in order, without
   *  duplicates, each with the fetched value or the recoverable error's
   *  message, and prints one line per setting and then the flag line. */
  lemma CompletedReport(oracle: string -> Outcome)
    requires NoFatal(oracle, Settings)
    ensures var r := SettingsReport(oracle);
      r.Completed?
      && |r.results| == |Settings| == 10
      && (forall i :: 0 <= i < |Settings| ==>
            r.results[i] == (Settings[i].0, Captured(oracle(QueryText(Settings[i].0)))))
      && (forall i, j :: 0 <= i < j < |r.results| ==> r.results[i].0 != r.results[j].0)
      && |r.lines| == |Settings| + 1
      && (forall i :: 0 <= i < |Settings| ==>
            r.lines[i] == EntryLine(Settings[i].0, Settings[i].1, oracle(QueryText(Settings[i].0))))
      && r.lines[|Settings|] == FlagLine(r.isPostgisV3)
  {
    FoldCompletedAt(oracle, Settings);
    SettingsDistinct();
  }

  /** The first fatal outcome propagates: no results and no flag, and only
   *  the lines of the settings before it were printed. */
  lemma AbortedReport(oracle: string -> Outcome, j: nat)
    requires j < |Settings| && oracle(QueryText(Settings[j].0)).Fatal?
    requires forall k :: 0 <= k < j ==> !oracle(QueryText(Settings[k].0)).Fatal?
    ensures var r := SettingsReport(oracle);
      r == Aborted(oracle(QueryText(Settings[j].0)).error, r.lines)
      && |r.lines| == j
      && (forall k :: 0 <= k < j ==>
            r.lines[k] == EntryLine(Settings[k].0, Settings[k].1, oracle(QueryText(Settings[k].0))))
  {
    FoldAbortedAt(oracle, Settings, j);
  }

  /** The returned flag is true exactly when `postgis_full_version()` yields a
   *  value that passes the version test; a recoverable error leaves it false. */
  lemma ReportedFlag(oracle: string -> Outcome)
    requires NoFatal(oracle, Settings)
    ensures var r := SettingsReport(oracle);
      var o := oracle("SELECT postgis_full_version();");
      r.Completed? && (r.isPostgisV3 <==> o.Value? && VersionParse.IsPostgisV3(o.v))
  {
    PostgisQuery();
    assert Settings[1] == ("postgis_full_version()", PostgisVersion);
    FoldFlag(oracle, Settings, [], false, [], 1);
  }

  // ---------------------------------------------------------------- the loop

  /** `show_settings` as the loop the source runs. */
  method ShowSettings(oracle: string -> Outcome) returns (report: Report)
    ensures report == SettingsReport(oracle)
    ensures report.Completed? <==> NoFatal(oracle, Settings)
    ensures report.Completed? ==>
      |report.results| == |Settings| && forall i :: 0 <= i < |Settings| ==> report.results[i].0 == Settings[i].0
  {
    var isPostgisV3 := false;
    var results: seq<(string, string)> := [];
    var lines: seq<Printed> := [];
    var i := 0;
    while i < |Settings|
      invariant 0 <= i <= |Settings|
      invariant Fold(oracle, Settings[i..], results, isPostgisV3, lines) == SettingsReport(oracle)
    {
      var (setting, validator) := Settings[i];
      var q := QueryText(setting);
      ghost var flagBefore := isPostgisV3;
      var prefix, suffix := "", "";
      var res;
      var o := oracle(q);
      match o {
        case Fatal(e) =>
          return Aborted(e, lines);
        case Value(v) =>
          res := v;
          var msg := "";
          match validator {
            case NoValidator =>
            case PostgisVersion =>
              isPostgisV3 := VersionParse.IsPostgisV3(res);
            case JitAdvice =>
              msg := JitMessage(res);
          }
          if msg != "" {
            prefix, suffix := RED, " " + msg + RESET;
          }
          assert (prefix, suffix) == Highlight(validator, o);
        case Recoverable(m) =>
          res := m;
          prefix, suffix := RED, RESET;
      }
      assert res == Captured(o) && isPostgisV3 == NextFlag(validator, o, flagBefore);
      assert SettingLine(prefix, setting, res, suffix) == EntryLine(setting, validator, o);
      assert Settings[i..][1..] == Settings[i + 1..];
      lines := lines + [SettingLine(prefix, setting, res, suffix)];
      results := results + [(setting, res)];
      i := i + 1;
    }
    report := Completed(results, isPostgisV3, lines + [FlagLine(isPostgisV3)]);
    CompletesIff(oracle);
    CompletedReport(oracle);
  }
}
