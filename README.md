# HFDataViz in Dafny

HFDataViz shows records of a HuggingFace dataset in two ways. `app.py` is a
Flask service with three JSON endpoints. `dsviz.py` is a terminal program
that browses one record at a time. This project models the decisions both
make around the `datasets` library, and proves what they promise:

- **Record normalisation** (`Records`). Both endpoints turn a record into a
  JSON-safe dict, one field at a time and keeping the key order. An
  allow-listed text field holding a string is copied exactly. An object with
  `tolist()` becomes its list. A value of a JSON type passes unchanged.
  Anything else becomes `str()` of it. `NormalizeRecord` is the loop;
  `Normalized` is the function it is proved against.
- **The web endpoints** (`Api`). `get_configs` wraps the config lookup.
  `load_dataset` returns a summary and the first `min(10, len)` normalised
  records, or a need-config envelope when the library's `ValueError` says
  "Config name is missing", or a plain error. `get_example` does a
  bounds-checked single fetch with the message `Index i out of range (0-n-1)`.
- **JSON encoding** (`Json`). `jsonify` runs inside each endpoint's `try`.
  Normalisation only looks at the top level of a record, so a list or dict
  that still holds an array, or another object the encoder cannot convert,
  makes `jsonify` raise `TypeError`. The endpoint then answers
  `{success: false}` with that text.
- **The terminal command loop** (`Navigation`). Each input line is stripped
  and lower-cased, then dispatched: `n`, `p`, `j N`, `i`, `h`, `q`, or an
  unknown command. `Execute` is one step, `Navigate` is a whole session, and
  `Browse` is the loop. `current_index` stays in `0..total-1`.
- **Terminal start-up** (`Launch`). The program reads its arguments and
  loads the dataset without a config. When the library asks for a config and
  none was given on the command line, `prompt_for_config` asks for one. A
  typed number `1..len` picks by position before any name match.
- `Text` models the Python string built-ins used: `strip`, `lower`,
  `isdigit`, `int()`, `in` and `split(' ')`. `Library` models the two library
  calls as function parameters with abstract outcomes. A load is a success, a
  `ValueError` with a message, or any other failure. A config lookup is a
  list of names or a failure.

Behaviour of the code worth knowing:

- A field `content: 42` stays the integer 42 and is not turned into `"42"`.
  The allow-list rule of app.py:72 applies to strings only, and `int` passes
  through at app.py:78 (`Records.ContentRuleNeedsString`).
- `load_dataset` answers with need-config whenever the `ValueError` mentions
  the missing config, even when a config was requested (app.py:42-52). Only
  the terminal program also checks that no config was given (dsviz.py:199).
- The allow-list rule of app.py:72 changes nothing that the pass-through rule
  of app.py:78 would not already do. A string is kept under any field name
  (`Records.NormalizeValueIgnoresKey`).
- `strip()` and `int()` do not skip the same whitespace. `strip()` removes
  U+001C..U+001F; `int()` does not skip them. So `j \x1c5` is a jump whose
  argument `int()` rejects ("Invalid number." and a pause), not a jump to 5
  (`Navigation.SeparatorJumpRefused`).

The input lines a user types are a `seq<string>`. A pause ("Press Enter to
continue...") reads and discards one line. That happens after an unknown
command, a refused jump, or a non-numeric jump. Running out of lines is
`EOFError`. In the command loop nothing catches it, and the session ends
(`InputEnded`). In `prompt_for_config` the `except Exception` catches it and
gives None. An empty dataset ends the session before any line is read,
because `dataset[0]` raises `IndexError` (`EmptyDataset`).

## Model

| member | source | states |
|---|---|---|
| Records.NormalizeValue | app.py:72-78 | an allow-listed string is copied exactly; a `tolist()` object becomes its list under any name; a JSON-typed value is unchanged; any other object becomes `str()` of it, also under `content`; the result's own type is a JSON type, while what a list or dict holds is left as it is |
| Records.NormalizeValueIgnoresKey | app.py:72-78 | the field name never changes the normalised value, so the allow-list rule is redundant |
| Records.Normalized | app.py:69-79 | the JSON-safe copy has one entry per field, in order, holding the field's key and its normalised value |
| Records.NormalizedKeys | app.py:69-79 | the copy has exactly the record's keys in the record's order, and is again a dict |
| Records.NormalizedGet | app.py:70-78 | looking up a key in the copy gives the normalised value of that key in the record, and a missing key stays missing |
| Records.MessageFieldVerbatim | app.py:72-74 | a string under `content`, `message`, `text`, `prompt` or `completion` reads back untouched |
| Records.NormalizedIdempotent | app.py:69-79 | normalising an already normalised record changes nothing |
| Records.TextAndLabelExample | app.py:69-79 | `{"text": "Hello\nworld", "label": 1}` is normalised to itself |
| Records.ContentRuleNeedsString | app.py:72-78 | under `content` an int stays an int, an array becomes its list and `None` becomes `"None"` |
| Records.Put | app.py:74 | `d[key] = v` keeps the keys and their order when the key is present, and appends `(key, v)` at the end when it is new |
| Records.PutGetSame | app.py:74 | after `d[key] = v`, `d[key]` is `v` |
| Records.PutGetOther | app.py:74 | after `d[key] = v`, every other key reads as before |
| Records.NormalizeRecord | app.py:69-79 | the key-by-key loop builds exactly the normalised copy of the record |
| Records.NormalizedStep | app.py:70-79 | assigning the next field's normalised value to the copy of the earlier fields gives the copy of one more field, which still has distinct keys |
| Api.GetConfigs | app.py:13-27 | success with the config list exactly when the lookup succeeds, otherwise the lookup's error text |
| Api.LoadDataset | app.py:30-91 | after a load, the info and exactly `min(10, len)` examples, example i being record i normalised, when `jsonify` can encode them, and otherwise the text of the `TypeError` it raises on an object they hold; a `ValueError` containing "Config name is missing" gives need-config with the config list, or the lookup's error if that fails too; every other failure gives its own text; need-config happens exactly in that case; success exactly when loaded and the batch encodes |
| Api.GetExample | app.py:94-139 | a failed load gives its text; after a load, the out-of-range message exactly when `i < 0` or `i >= len`, and otherwise record i normalised with `index = i` and `total = len` when `jsonify` can encode it, or the text of the `TypeError` it raises; success exactly when loaded, in range and the record encodes; the index defaults to 0 |
| Api.EndpointsAgree | app.py:117-126 | for a record in the first batch: when the batch load succeeds, the single fetch succeeds too and sends the same normalised record; when the single fetch cannot encode the record, the batch load fails as well. Each request loads the dataset again (app.py:39, 103); this holds because the `Loader` is a function, so the two loads give the same dataset |
| Api.BatchRejectsWithRecord | app.py:81-85 | a record of the batch that `jsonify` rejects makes it reject the whole `examples` list with the same text |
| Api.Attempt | app.py:37-41 | the `load_dataset` call of both data endpoints: with the requested config when it is truthy, without one otherwise. It has no contract of its own; `Library.Requested` states the rule |
| Json.Rejects | app.py:81-91 | what `jsonify` raises on: an object nested anywhere in the value that is an array, or another object whose type is not None, tuple, date, datetime, `Decimal` or `UUID`, with the text "Object of type T is not JSON serializable". It is the specification the other `Json` members are proved against |
| Api.FirstBatch | app.py:65-79 | the batch `range(min(10, len))`: exactly `min(10, len)` records, record i normalised at position i |
| Json.Encodable | app.py:81-85 | `jsonify` succeeds on the value: it is rejected with no message. A predicate without a contract; `Json.Rejection` decides it, and `Api.LoadDataset` and `Api.GetExample` succeed only when it holds |
| Json.TypeErrorText | app.py:87-91 | the text of the encoder's `TypeError`, "Object of type T is not JSON serializable". Without a contract; `Json.NdarrayErrorText` spells it out for an ndarray |
| Text.IsDecimal | dsviz.py:148 | `choice.isdigit()` for ASCII digits: non-empty and every character a digit. A predicate without a contract; `Launch.ResolveChoice` and `Text.ParseIntOfDecimal` use it |
| Text.IsSpace | dsviz.py:225 | the characters `str.isspace()` holds for, which `strip()` removes. A predicate without a contract; `Text.Trim` and `Text.ParseIntKeepsSeparator` state what follows from it |
| Text.IsIntSpace | dsviz.py:237 | the whitespace `int()` skips: the `str.isspace()` set without U+001C..U+001F. A predicate without a contract; `Text.ParseIntKeepsSeparator` shows the difference |
| Records.IsJsonNative | app.py:78 | the `isinstance(value, (int, float, bool, str, list, dict))` test. A predicate without a contract; `Records.NormalizeValue` states its effect |
| Navigation.ValidJump | dsviz.py:238 | the range test `0 <= jump_to < total_examples`. A predicate without a contract; `Navigation.Execute` states its effect: an accepted jump moves to it, a refused one pauses |
| Json.Rejection | app.py:81-91 | the error `jsonify` raises on a value: whenever it gives a text, the value is rejected with that text; whenever it gives none, nothing in the value is rejected |
| Json.ItemsRejection | app.py:81-91 | the first rejection among the items of a list, the encoder walking them in order: the text is one that item j is rejected with, and every item before j is encodable; none exactly when no item is rejected |
| Json.EntriesRejection | app.py:81-91 | the first rejection among the values of a dict in insertion order: the text is one that value j is rejected with, and every value before j is encodable; none exactly when no value is rejected |
| Json.FlatValueEncodes | app.py:72-78 | a field holding nothing nested is, once normalised, never rejected |
| Json.FlatRecordRejectsNothing | app.py:69-85 | for any one message: a normalised record whose fields hold nothing nested raises no TypeError with it |
| Json.FlatRecordEncodes | app.py:69-85 | a record whose fields hold nothing nested is always encoded after normalisation: the top-level `str()` and `tolist()` rules take care of every object there |
| Json.NestedArrayRejected | app.py:78 | an `audio` field holding `{"array": ndarray, "sampling_rate": 16000}` passes normalisation unchanged, and `jsonify` then rejects the array |
| Json.NdarrayErrorText | app.py:87-91 | the text for an array reads "Object of type ndarray is not JSON serializable" |
| Api.OutOfRange | app.py:107-111 | the message `Index {index} out of range (0-{len-1})`. It has no contract of its own; its two numbers are `Text.IntToString` renderings, whose contract fixes their text; `Api.OutOfRangeMessageExample` shows one input and `Api.GetExample` states when it is sent |
| Api.OutOfRangeMessageExample | app.py:107-111 | index 15 of ten records gives `Index 15 out of range (0-9)` |
| Text.IntToStringRoundTrip | app.py:110 | the decimal text of an int, as the error message prints it, reads back to the same int with `int()` |
| Text.Contains | app.py:44 | `needle in s` holds exactly when the needle occurs at some position of s |
| Text.Strip | dsviz.py:225 | `str.strip()`: Trim with the `str.isspace()` set. It has no contract of its own; `Text.Trim` and `Text.StripIdempotent` state its properties |
| Text.StartsWith | dsviz.py:235 | `cmd.startswith(prefix)`: the prefix is no longer than the string and is its first characters. It has no contract of its own; `Navigation.Classify` states how the loop uses it |
| Text.Trim | dsviz.py:225 | `strip()`, and the whitespace skipping of `int()`, each with its own whitespace set: the result is a slice of the line with only whitespace cut from each end, and it neither starts nor ends with whitespace |
| Text.StripIdempotent | dsviz.py:225 | stripping twice is stripping once |
| Text.ParseIntOfDecimal | dsviz.py:148-149 | for a string of digits, `int()` gives its decimal value |
| Text.ParseIntNeedsDigit | dsviz.py:237 | `int()` raises on any string without a digit |
| Text.ParseIntKeepsSeparator | dsviz.py:237 | `int()` raises on a string that starts with one of U+001C..U+001F, although `strip()` would remove that character |
| Text.ParseInt | dsviz.py:237 | `int()` in base 10: whitespace of the `int()` set skipped at both ends, an optional sign, digits with single underscores between them, `None` for the `ValueError`. It has no contract of its own; the four lemmas above and `Text.IntToStringRoundTrip` state its behaviour |
| Text.Lower | dsviz.py:225 | `lower()` keeps the length and lower-cases each character in place |
| Text.UpToSpace | dsviz.py:237 | the field `split(' ')[1]` selects: the longest prefix without a space, which is followed by a space or the end of the string |
| Text.IntToString | app.py:110 | the f-string rendering `str(i)` of an int: a leading `-` exactly when i is negative, followed by the decimal digits of abs(i) without a leading zero, so no sign for 0 or a positive int and no padding; `Text.IntToStringRoundTrip` reads it back |
| Text.RenderingLiteral | app.py:110 | the rendering of an int, sign included, is an `int()` literal of that same int |
| Navigation.Classify | dsviz.py:227-253 | on the stripped, lower-cased line, `q`, `n`, `p`, `i` and `h` are matched exactly, a jump is exactly a line starting with `j `, and its argument is `int()` of the second space-separated field |
| Navigation.Canonical | dsviz.py:225 | the line as the loop dispatches on it, `strip()` then `lower()`. It has no contract of its own; `Navigation.CanonicalForm` and `Navigation.CanonicalIdempotent` state its properties |
| Navigation.CanonicalForm | dsviz.py:225 | the dispatched text is no longer than the line, has no whitespace at either end and no upper-case ASCII letter |
| Navigation.ParseCommand | dsviz.py:225-253 | the command a typed line gives: the if/elif chain of `Navigation.Classify` on the canonical line. It has no contract of its own; `Navigation.ParseCommandCanonical` is its partner |
| Navigation.CanonicalIdempotent | dsviz.py:225 | stripping and lower-casing a second time changes nothing |
| Navigation.ParseCommandCanonical | dsviz.py:225 | surrounding whitespace and letter case never change the command |
| Navigation.SpacedUpperNIsNext | dsviz.py:225-231 | `" N "` acts as `n` |
| Navigation.JumpNeedsArgument | dsviz.py:235-253 | a bare `j` is an unknown command, not a jump |
| Navigation.JumpTarget | dsviz.py:235-237 | `j` followed by a space and the digits of n is a jump to example n |
| Navigation.NonNumericJump | dsviz.py:235-245 | a jump whose argument has no digit is a jump that `int()` rejects |
| Navigation.SeparatorJumpRefused | dsviz.py:235-245 | a jump whose argument starts with one of U+001C..U+001F is a jump that `int()` rejects, although the line was stripped |
| Navigation.Execute | dsviz.py:227-253 | only `q` stops; every other command keeps `0 <= index < total`; only `n`, `p` and an accepted jump move, `n` by +1 when below `total-1`, `p` by -1 when above 0, `j N` to `N-1` when `0 <= N-1 < total`; an error pause comes exactly with an unknown command or a refused jump |
| Navigation.ExecuteExamples | dsviz.py:229-242 | `p` at 0 stays at 0; `j 100` with ten records stays and pauses; `n` on the last record stays |
| Navigation.Navigate | dsviz.py:216-253 | the whole session from a start index over the commands of the input lines. It has no contract of its own; `Navigation.NavigateInvariant`, `Navigation.QuitNeedsQuitCommand`, `Navigation.InfoAndHelpKeepIndex` and `Navigation.QuitEndsSession` state its properties, and `Navigation.Browse` is proved against it |
| Navigation.QuitNeedsQuitCommand | dsviz.py:227-228 | a session ends on `q` only when the last line it reads is a `q`; the lines after it are never read |
| Navigation.LinesRead | dsviz.py:219-245 | the number of input lines a session reads, one per dispatched command and one per pause that finds a line, is never more than there are lines |
| Navigation.InputEndedReadsAll | dsviz.py:224 | a session that ends with `EOFError` has read every input line |
| Navigation.NavigateInvariant | dsviz.py:216-253 | an empty dataset ends the session at once; otherwise the final index and every shown index stay in `0..total-1`, the first example shown is the start, and no more examples are shown than there are input lines, plus one |
| Navigation.InfoAndHelpKeepIndex | dsviz.py:246-250 | a session of only `i` and `h` never leaves the starting example |
| Navigation.QuitEndsSession | dsviz.py:227-228 | `q` ends the session where it stands, whatever follows |
| Navigation.NavigateStep | dsviz.py:219-253 | one turn of the loop: dispatch the line, then read one more line after an error |
| Navigation.BrowseTurn | dsviz.py:219-253 | the turn that reads line `pos` relates the rest of the session to the session after that turn |
| Navigation.Browse | dsviz.py:216-253 | the loop of main, from index 0, produces exactly the session `Navigate` prescribes for the lines read |
| Launch.ResolveChoice | dsviz.py:147-153 | a digit string k with `1 <= k <= len` picks `configs[k-1]`, even when a config is named k; otherwise an exact name match picks that name; otherwise nothing; whatever is picked is a config |
| Launch.NumberBeatsName | dsviz.py:148-153 | with configs `"2"` and `"a"`, typing `2` picks `"a"` |
| Launch.AskUntilValid | dsviz.py:143-157 | a chosen config is always one of the configs, and the lines left unread are a suffix of the input |
| Launch.AskUntilValidFirst | dsviz.py:143-157 | the first answer that resolves decides, and nothing after it is read |
| Launch.AskUntilValidNone | dsviz.py:143-161 | when no answer resolves, the input runs out and the result is None |
| Launch.Prompt | dsviz.py:131-161 | a failed lookup or an empty config list gives None without reading input; a chosen config is one of the listed ones |
| Launch.PromptForConfig | dsviz.py:133-161 | the asking loop gives exactly the answer `Prompt` prescribes |
| Launch.AfterPrompt | dsviz.py:201-208 | an empty or missing choice ends with "No config selected", and only such a choice does; otherwise it is ready with the dataset loaded with the chosen config exactly when that load succeeds, and a failure of that load is reported with its text |
| Launch.Resume | dsviz.py:192-213 | a loaded dataset is used; a missing-config error with no command-line config leads to the prompt; every other failure is reported with its text |
| Launch.LaunchVisualizer | dsviz.py:163-213 | no argument gives the usage text; an empty name is an error; the first load is always without a config; a config-missing error with a command-line config is a load failure; a dataset that is ready never comes from the command-line config |
| Launch.LaunchWithCliConfig | dsviz.py:187-199 | corrected start-up: the first load uses the config given on the command line; a config given there is the one loaded whenever it loads; a config-missing error with no command-line config leads to the prompt; every other failure is reported with its text |
| Launch.DocumentedUsage | dsviz.py:169-171 | for a dataset that needs a config, `dsviz.py HuggingFaceTB/smoltalk all` fails as written and loads with `all` once corrected |
| Library.AsksForConfig | app.py:42-44 | the config-missing classification both front ends make (also dsviz.py:199): a `ValueError` whose text contains "Config name is missing". It has no contract of its own; `Api.LoadDataset`, `Launch.Resume` and `Launch.LaunchVisualizer` state what follows from it |
| Library.IsGiven | dsviz.py:199-203 | Python truthiness of an optional config name (`not config_name`, and `if config_name:` at app.py:38): None and the empty string are false. It has no contract of its own; `Library.Requested` and `Launch.AfterPrompt` state what follows from it |
| Launch.CliConfig | dsviz.py:186-188 | `sys.argv[2]` when there is one, None otherwise. It has no contract of its own; `Launch.LaunchVisualizer` and `Launch.LaunchWithCliConfig` state how it is used |
| Records.Keys | app.py:70 | the keys of a dict in insertion order, as `example.items()` visits them: one per entry, at the same position |
| Records.Get | app.py:74 | `d[key]`: missing exactly when the key is not among the keys, and otherwise a value stored under that key |
| Library.Requested | app.py:38-41 | the endpoints pass a config exactly when the requested one is truthy (not None, not empty) |
| Text.NatToString | app.py:110 | the decimal rendering of a number is a non-empty string of digits without a leading zero, one digit long exactly for numbers below 10 |

## Left out

- `Api.LoadDataset`, `Api.GetExample`: when `jsonify` rejects several objects, the model reports one of them; which one the encoder meets first is not fixed, because Flask sorts the keys while encoding. The model reports the first in insertion order.
- `Json.Rejects`: the objects Flask's default JSON provider converts are taken to be exactly None, tuples, dates, datetimes, `Decimal` and `UUID`. A tuple is taken to encode whatever it holds. Dataclasses, objects with `__html__`, and objects of a subclass of a converted type (converted although their type name differs) are not modelled. Floats encode, NaN included, as the json module allows by default.

- Flask routing, `request.json`, `jsonify`, `render_template` and the templates directory (app.py:1-10, 141-146). These are transport. A `Response` value stands for the JSON object. A request's `dataset_name`, `config_name` and `index` are parameters. A missing index is `None` and defaults to 0.
- The `datasets` library (`load_dataset`, `get_dataset_config_names`). It is a `Loader` and a `ConfigLister` function parameter with abstract outcomes. Reading `dataset[i]`, `len` and `features` is taken to succeed. Being a function, a `Loader` gives the same outcome every time it is called with the same arguments. The service loads again on every request, and a dataset that changes between two requests is not modelled.
- Terminal output: colours, `clear_screen`, terminal size, box drawing in `display_example`, `display_help`, `display_dataset_info` and `format_value` (dsviz.py:27-129). These only print. The model records the index of each example shown and the config name passed to `i` (which shows `config_name or "default"`, dsviz.py:247).
- `KeyboardInterrupt` handling (dsviz.py:255-260), and the dataset-name prompt of dsviz.py:177-179, which the return at dsviz.py:166-172 makes unreachable.
- Floats are opaque 64-bit patterns, and `str()` of other objects is a string the value carries. Neither is interpreted.
- A JSON `index` or `config_name` of an unexpected type (text, float, bool). A comparison that raises `TypeError` is not modelled.
- `Records.Value`: `NumericBuffer` carries a list, so a 0-d numpy value, whose `tolist()` gives a scalar, is not covered.
- `Text.Lower`: maps only the ASCII letters and leaves every other character as it is, while Python's `lower()` also maps non-ASCII letters. A line that differs from a command only in such letters is classified differently.
- `Text.ParseInt`: accepts ASCII digits only. Python's `int()` also accepts other Unicode decimal digits. Its whitespace sets follow CPython: `strip()` removes `str.isspace()` characters, including U+001C..U+001F, which `int()` does not skip.
- `Launch.ResolveChoice`: `isdigit()` is taken as ASCII digits only. For a string of non-ASCII digits, Python either picks by number or raises `ValueError` in `int()` and asks again. The model tries a name match instead.

## Findings

| source | as written | input that shows it | evidently intended | confidence | as-written member | corrected member |
|---|---|---|---|---|---|---|
| dsviz.py:195 | the first load never passes `argv[2]`; a config given on the command line only stops the prompt (dsviz.py:199), and the original error is re-raised | `dsviz.py HuggingFaceTB/smoltalk all` for a dataset that needs a config. The load without a config raises "Config name is missing", dsviz.py:210 re-raises it, and start-up ends with the load error (`Launch.DocumentedUsage`) | load with the command-line config when one is given, as the usage example the program prints (dsviz.py:169-171) and its docstring (dsviz.py:12-16) show | medium; not executed | `Launch.LaunchVisualizer` | `Launch.LaunchWithCliConfig` |
