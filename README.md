# show_settings, modelled in Dafny

`openmaptiles/pgutils.py` holds one coroutine, `show_settings(conn)`. It
reports a PostgreSQL server's settings before heavy tile-generation queries
run. It walks a fixed, ordered table of ten settings. For each one it does
the following:

- It issues `SELECT <name>;` for a function call such as `version()`, and
  `SHOW <name>;` for any other name.
- When the query answers, it runs the setting's validator:
  - `parse_postgis_ver` sets `is_postgis_v3`.
  - The `jit` lambda warns unless the value is `off`.
- When the query raises `UndefinedFunctionError` or `UndefinedObjectError`,
  it records the error's message as the value and highlights the line.
- Any other error propagates.
- It prints one line per setting and records `(name, value)` in an ordered
  dict.

At the end it prints `vv <flag>` and returns the dict and the flag.

The model has three modules, plus a small `Wrappers` module (`wrappers.dfy`)
that declares the `Option` type the other two use:

- `VersionParse` (`version_parse.dfy`) covers the version test. It models
  the regular expression `POSTGIS="(\d+)\.` matched at the start of the
  value, plus `int(...) >= 3`. It proves the following:
  - The greedy digit group is the unique run length for which the pattern
    matches.
  - The flag is true exactly when such a match has a value of at least 3.
- `PgSettings` (`settings.dfy`) covers one setting:
  - the settings table;
  - the query text, and the fact that it can be read back;
  - the `jit` validator;
  - the highlight prefix and suffix;
  - `{name:32}` padding and the layout of a printed line.
- `Reporter` (`reporter.dfy`) covers the loop:
  - `Fold` is a recursive definition of the loop over any list of settings.
  - The method `ShowSettings` is the loop itself, proved equal to `Fold`
    over the ten settings.
  - Lemmas state what a call returns: completion, results, printed lines,
    abort and flag.

The connection is an oracle, a function from query text to an `Outcome`:

- `Value(v)`: `fetchval` returned `v`.
- `Recoverable(message)`: one of the two "undefined" errors was raised.
- `Fatal(error)`: any other exception was raised.

Each query is issued once, and the ten queries are pairwise distinct
(`Reporter.SettingsDistinct`). So answering by query text covers every
behaviour of a connection.

Printed output is a sequence of `Printed` values. Each one is the argument
of one `print` call. `PgSettings.Text` gives the exact characters of that
call. On a fatal error, the report keeps the lines already printed before
the failing query.

Python's `f"{setting:32}"` pads with spaces but never truncates. A name
longer than 32 characters pushes ` = ` to its right (`PgSettings.LineLayout`).

## Model

| member | source | states |
|---|---|---|
| `VersionParse.DigitRun` | openmaptiles/pgutils.py:15 | the greedy `\d+` takes the maximal run of digits at a position: every character in the run is a digit, and the next one is not |
| `VersionParse.MatchIsMaximalRun` | openmaptiles/pgutils.py:15 | any digit-run length with which `POSTGIS="\d+\.` matches at the start equals the maximal run after the marker |
| `VersionParse.MatchIsUnique` | openmaptiles/pgutils.py:15 | the pattern matches a value in at most one way |
| `VersionParse.MajorDigitsSpec` | openmaptiles/pgutils.py:15 | group 1 of `re.match` is present exactly when the prefix-anchored pattern matches, and it is the matched digit run |
| `VersionParse.IsPostgisV3Spec` | openmaptiles/pgutils.py:13-16 | the flag is true iff the value starts with `POSTGIS="`, then digits, then `.`, and those digits' integer value is at least 3; otherwise false |
| `VersionParse.LongRunIsAtLeastTen` | openmaptiles/pgutils.py:16 | `int()` of two or more digits without a leading zero is at least 10 (the comparison is numeric, not textual) |
| `VersionParse.MultiDigitMajorIsV3` | openmaptiles/pgutils.py:16 | a match whose major version has two or more digits, the first not `0` (`POSTGIS="12.`), sets the flag |
| `VersionParse.LeadingZeroIgnored` | openmaptiles/pgutils.py:16 | a leading `0` does not change the integer value of a digit string, as `int("012") == 12`, so `POSTGIS="012.` is compared as 12 |
| `VersionParse.SingleDigitMajor` | openmaptiles/pgutils.py:16 | with a one-digit major version, the flag is set iff that digit is 3 to 9 |
| `VersionParse.ExamplesV3` | openmaptiles/pgutils.py:13-16 | `POSTGIS="3.1.0"` and `POSTGIS="12.0"` set the flag |
| `VersionParse.ExampleV2` | openmaptiles/pgutils.py:13-16 | `POSTGIS="2.5.0"` clears the flag |
| `VersionParse.ExamplesNoMatch` | openmaptiles/pgutils.py:13-16 | `xPOSTGIS="3.0"` (marker not at the start), `POSTGIS="3"` (no dot) and `unknown` clear the flag |
| `PgSettings.QueryForm` | openmaptiles/pgutils.py:31 | the query is `SELECT <name>;` iff the name contains `(`, and `SHOW <name>;` otherwise |
| `PgSettings.QueryRoundTrip` | openmaptiles/pgutils.py:31 | the query text determines its setting: reading the name back from the query gives the name |
| `PgSettings.JitMessage` | openmaptiles/pgutils.py:21-22 | the `jit` validator returns the fixed warning when the value is not `off` and `''` when it is `off` |
| `PgSettings.HighlightRule` | openmaptiles/pgutils.py:32-42 | a line is highlighted iff its query raised a recoverable error, or it is `jit` with a value other than `off`; the prefix is then `RED`; the suffix is `RESET` after an error and `" " + warning + RESET` after a warning; otherwise both are empty |
| `PgSettings.PadRight` | openmaptiles/pgutils.py:44 | `{setting:32}`: the name followed by spaces up to width 32, never truncated |
| `PgSettings.LineLayout` | openmaptiles/pgutils.py:44 | a printed line is `* `, the prefix, the name, padding spaces, ` = ` at column 32 past the name's start (or just after a longer name), the value and the suffix |
| `Reporter.FoldCompletedIff` | openmaptiles/pgutils.py:34-42 | the loop over any settings list completes iff no query meets a fatal outcome |
| `Reporter.CapturesAt` | openmaptiles/pgutils.py:35-45 | the k-th recorded pair is the k-th setting's name with its fetched value or recoverable error message |
| `Reporter.EntryLinesAt` | openmaptiles/pgutils.py:32-44 | the k-th printed line is the k-th setting's prefix, name, recorded value and suffix |
| `Reporter.FoldCompletes` | openmaptiles/pgutils.py:18-47 | without a fatal outcome, the loop appends each setting's pair to the results and its line to the output, in list order, then prints the `vv` flag line |
| `Reporter.FoldAborts` | openmaptiles/pgutils.py:34-44 | the first fatal outcome propagates its error with no results or flag, after only the lines of the settings before it |
| `Reporter.FoldCompletedAt` | openmaptiles/pgutils.py:10-47 | from a fresh call, a completed loop has one result and one line per setting, at the setting's own position, then the flag line |
| `Reporter.FoldAbortedAt` | openmaptiles/pgutils.py:10-44 | from a fresh call, a loop aborted at setting j printed exactly j lines, those of settings 0 to j-1 |
| `Reporter.FoldKeepsFlag` | openmaptiles/pgutils.py:36-37 | settings without the PostGIS validator never change the flag |
| `Reporter.FoldFlag` | openmaptiles/pgutils.py:13-42 | with one PostGIS entry, the final flag is the version test of its value, or the starting flag if its query raised a recoverable error |
| `Reporter.CallNames` | openmaptiles/pgutils.py:19-20 | `version()` and `postgis_full_version()` contain `(` |
| `Reporter.ParameterNames` | openmaptiles/pgutils.py:21-29 | the other eight setting names contain no `(` |
| `Reporter.SettingQueries` | openmaptiles/pgutils.py:18-31 | ten settings; the first two are queried with `SELECT <name>;`, the other eight with `SHOW <name>;` |
| `Reporter.PostgisQuery` | openmaptiles/pgutils.py:20-31 | the setting with the PostGIS validator is queried as `SELECT postgis_full_version();` |
| `Reporter.SettingsDistinct` | openmaptiles/pgutils.py:18-31 | the ten names, and so the ten queries, are pairwise distinct |
| `Reporter.CompletesIff` | openmaptiles/pgutils.py:34-42 | a call returns a result iff no query fails with anything other than the two "undefined" errors |
| `Reporter.CompletedReport` | openmaptiles/pgutils.py:18-47 | a completed call returns exactly the ten keys in table order, without duplicates; each value is the fetched value (never altered by a validator) or the recoverable error's message; the call prints ten lines in order, then the `vv` line |
| `Reporter.AbortedReport` | openmaptiles/pgutils.py:34-44 | the first fatal query's error propagates, no dict or flag is returned, and exactly the lines of the earlier settings were printed |
| `Reporter.ReportedFlag` | openmaptiles/pgutils.py:10-48 | the returned flag starts false on every call; it is true iff `SELECT postgis_full_version();` returns a value passing the version test; a recoverable error there leaves it false |
| `Reporter.ShowSettings` | openmaptiles/pgutils.py:9-48 | the loop's result equals the recursive definition; it completes iff no query is fatal; the keys are then the ten settings in order |

## Left out

- The asyncpg connection, `fetchval` and `await`. The oracle replaces them. Network I/O, connection state and the library's exception classes are not part of this model.
- A `fetchval` answer that is not a string: `None`, or a non-text value. For `postgis_full_version()`, `re.match` would then raise `TypeError`. The oracle only answers with strings.
- A fatal error's exception object. `Fatal(error)` keeps only a description, and the model propagates it unchanged.
- Writing to stdout. Each `print` call is modelled as a `Printed` value plus its text; the trailing newline is not modelled.
- The values of `RED` and `RESET`. They come from `openmaptiles/perfutils.py`, which is not part of this model. The model uses ANSI stand-ins, and no proof depends on more than their being non-empty.
- `VersionParse.IsPostgisV3`: only ASCII `0`-`9` count as digits. Python's `\d` and `int()` also accept other Unicode decimal digits. Python's limit on converting long digit strings is not modelled either: CPython 3.11 and later (and recent security releases of 3.7-3.10) raise `ValueError` from `int()` on more than 4300 digits by default, so a value like `POSTGIS="` followed by 4301 digits and `.` aborts the call, while the model sets the flag from the digits' value and completes.
- `parse_postgis_ver` returns `None`. The model returns `""` instead; the loop treats the two alike (`if msg:`).
