# alertas-inmet-api in Dafny

This project models the three pieces of logic in the INMET weather-alert client:

- **`torre_hanoi`**: the Tower of Hanoi solver.
  - `Hanoi.TorreHanoi` builds the ordered list of moves as `Move(disco, origem, destino)` values.
  - `Hanoi.Describe` turns a move into the Portuguese line the solver emits, `"Move o disco {n} de {origem} para {destino}"`.
  - A replay of the moves on three pegs (`Hanoi.Apply`, `Hanoi.Replay`) states what solving the puzzle means: every move is legal and all discs end on `destino`.
- **`Alerta`**: one alert built from a JSON object, and its text rendering.
  - `Alerta.FromJson` is the specification of `__init__`. It reads every key in source order and fails as a whole at the first step that would raise.
  - `alterado`, `encerrado`, the eight leading attributes and the severity fields are stored as the JSON gives them, with no type check.
  - `Alerta.Construct` is `__init__` written as statements: one `:-` step per group of attributes, in source order. It is proved equal to `FromJson`.
  - The helpers model three pieces of Python behaviour:
    - the six comma splits, with `str.split(",")` semantics (`Text.Split`);
    - the anchored `re.sub` on the icon (`Alerta.StripIcon`);
    - `list()` of the two list attributes.
  - `Alerta.FormatValue` is `format_value`. `Alerta.Render` is the loop of `__str__` over `vars(self)` in assignment order, skipping `icone` and `poligono`.
- **`Alertas`**: the collection, a class with the two sequence fields `hoje` and `futuro`, read from the input's top-level keys of the same names.
  - `Alertas.Alertas.Create` is `__init__`; its two `for` loops append one record per input element.
  - `Alertas.Alertas.ToString` is `__str__`, which lists `hoje` only.
  - Both are proved against specification functions: `Alertas.BuildAll` and `Alertas.Parse` for construction, `Alertas.Listing` for rendering.

JSON input is the `Json` datatype (null, booleans, integers, strings, arrays, objects). Failure is the `Failure` case of `Result`.

Three kinds of library code are not modelled. They enter as fields of a `Library` value that every operation using them takes as a parameter:
- the date and time parsers (`datetime.strptime` with three formats);
- the polygon decoder (`shape(json.loads(...))`);
- `str()` of dates, times, datetimes, geometries, and lists or dicts taken from the JSON.

`str()` of `None`, booleans, integers and strings is modelled directly.

Files: `wrappers.dfy` (Option/Result), `decimal.dfy` (`str()` of integers), `text.dfy` (`str.split`/`str.join`), `json.dfy`, `hanoi.dfy`, `alerta.dfy`, `alertas.dfy`.

## Model

| member | source | states |
|---|---|---|
| Hanoi.TorreHanoi | alertas_inmet_api/hanoi.py:11-20 | for `n >= 1` the solver returns exactly `2^n - 1` moves |
| Hanoi.SingleDisc | alertas_inmet_api/hanoi.py:13-14 | with one disc the answer is the single move of disc 1 from `origem` to `destino` |
| Hanoi.MovesInRange | alertas_inmet_api/hanoi.py:13-18 | every move carries a disc in `1..n` between two of the three given pegs; the two pegs differ whenever the three pegs are distinct |
| Hanoi.LargestDiscMovesOnceInMiddle | alertas_inmet_api/hanoi.py:16-18 | disc `n` moves once, at index `2^(n-1) - 1`, straight from `origem` to `destino`; every other move carries a smaller disc |
| Hanoi.ThreeDiscs | tests/test_hanoi.py:7-21 | the seven moves for three discs from A to C via B |
| Hanoi.ThreeDiscsText | tests/test_hanoi.py:7-21 | the seven output lines for three discs from A to C via B are exactly those the test expects |
| Hanoi.Apply | alertas_inmet_api/hanoi.py:3 | a move is legal exactly when it takes the named disc from the top of its origin peg onto an empty peg or a larger disc |
| Hanoi.ReplayTower | alertas_inmet_api/hanoi.py:13-18 | the moves carry a tower of `n` discs from `origem` onto `destino`, over any discs larger than `n` already on the pegs, and every move is legal |
| Hanoi.TowerStep | alertas_inmet_api/hanoi.py:16-18 | the two recursive halves and the middle move compose into a move of the whole tower |
| Hanoi.SolvesPuzzle | alertas_inmet_api/hanoi.py:1-20 | replaying the solver's moves from "all discs on `origem`" is legal throughout and ends with all discs on `destino` and the other pegs empty |
| Hanoi.ApplyKeepsOrder | alertas_inmet_api/hanoi.py:3 | a legal move never puts a disc on a smaller one |
| Hanoi.ReplayKeepsOrder | alertas_inmet_api/hanoi.py:3 | a legal replay keeps every peg ordered |
| Hanoi.NeverLargerOnSmaller | alertas_inmet_api/hanoi.py:1-20 | after every prefix of the solver's moves the position is reachable and no disc lies on a smaller one |
| Hanoi.Describe | alertas_inmet_api/hanoi.py:14-17 | the move line `f"Move o disco {n} de {origem} para {destino}"`: it opens with `"Move o disco "` followed by a decimal digit |
| Hanoi.DescribeAll | alertas_inmet_api/hanoi.py:14-17 | line `i` of the output is the text of move `i` |
| Hanoi.DescribeRoundTrip | alertas_inmet_api/hanoi.py:14-17 | a move whose origin name has no space is read back unchanged from its text, so the text loses nothing |
| Decimal.Show | alertas_inmet_api/hanoi.py:17 | `{n}` of a disc number is a non-empty string of decimal digits with no leading zero unless `n` is 0 |
| Decimal.ValueOfShow | alertas_inmet_api/hanoi.py:17 | the decimal digits of `{n}` read back as `n` |
| Decimal.ShowInjective | alertas_inmet_api/hanoi.py:17 | different disc numbers give different texts |
| Text.Split | alertas_inmet_api/alerta.py:107-115 | `str.split` never returns an empty list |
| Text.SplitCount | alertas_inmet_api/alerta.py:107-115 | a split has one piece more than there are separators, so `""` gives `[""]` |
| Text.SplitPiecesFree | alertas_inmet_api/alerta.py:107-115 | no piece contains the separator |
| Text.Join | alertas_inmet_api/alerta.py:148-149 | `sep.join(parts)`: no parts give `""` and one part gives that part |
| Text.JoinEnds | alertas_inmet_api/alerta.py:148-149 | a join of two or more parts opens with the first part and the separator and closes with the separator and the last part |
| Text.JoinSplit | alertas_inmet_api/alerta.py:107-115 | joining the pieces with the separator gives the input back |
| Text.SplitJoin | alertas_inmet_api/alerta.py:107-115 | splitting a join of separator-free pieces gives the pieces back |
| Text.JoinAsPrefixed | alertas_inmet_api/alerta.py:148-149 | the indent followed by the indent-joined items is each item preceded by the indent |
| Alerta.Field | alertas_inmet_api/alerta.py:91-98 | reading a key succeeds exactly when it is present, with its value |
| Alerta.StripIcon | alertas_inmet_api/alerta.py:127 | the result is a suffix of the input; when it is shorter, the removed prefix is one whole `data:image/<no ';'>;base64,` header; when nothing is removed, no prefix of the input is such a header |
| Alerta.HeaderEndsAtFirstSemicolon | alertas_inmet_api/alerta.py:127 | a header ends right after the first `;` following `data:image/` |
| Alerta.HeaderUnique | alertas_inmet_api/alerta.py:127 | a string starts with at most one header, so the strip is deterministic |
| Alerta.Identity | alertas_inmet_api/alerta.py:91-98 | the eight leading attributes (six identifiers, `codigo` and `referencia`) succeed exactly when all eight keys are present, and are stored as given, with no type check |
| Alerta.Schedule | alertas_inmet_api/alerta.py:99-106 | succeeds exactly when the four values are strings the timestamp and clock parsers accept |
| Alerta.Regions | alertas_inmet_api/alerta.py:107-115 | succeeds exactly when the six region values are strings |
| Alerta.Stamps | alertas_inmet_api/alerta.py:118-125 | succeeds exactly when the four values are strings the timestamp and period parsers accept |
| Alerta.Severity | alertas_inmet_api/alerta.py:128-131 | succeeds exactly when the four keys are present, and stores them as given, with no type check |
| Alerta.ListField | alertas_inmet_api/alerta.py:132-133 | `list()` succeeds exactly on a list or a string; a list is copied element for element and a string gives its one-character strings |
| Alerta.FromJson | alertas_inmet_api/alerta.py:91-133 | construction succeeds exactly on the objects `Accepted` describes |
| Alerta.Construct | alertas_inmet_api/alerta.py:83-133 | the step-by-step constructor produces exactly the specified record or failure |
| Alerta.AcceptedNeedsKeysAndText | alertas_inmet_api/alerta.py:91-133 | an accepted object holds all 32 keys, and a string under each of the 16 keys that is parsed, split, decoded or stripped |
| Alerta.MissingKeyFails | alertas_inmet_api/alerta.py:91-133 | a missing key fails the whole record |
| Json.Chars | alertas_inmet_api/alerta.py:132-133 | iterating a `str`, as `list()` and `for` do, yields one one-character string per character, in order |
| Alerta.FieldsRoundTrip | alertas_inmet_api/alerta.py:91-133 | every attribute of a built record is one of five things: the input value stored unchecked, the library's parse of the input string, the `str.split(",")` of the input string (the six region lists), the stripped icon, or `list()` of the input (`riscos`, `instrucoes`): the input list itself, or the one-character strings of the input string |
| Alerta.RegionsRoundTrip | alertas_inmet_api/alerta.py:107-115 | each region list joins back with `","` to its input string, and no piece contains a comma |
| Alerta.PyStr | alertas_inmet_api/alerta.py:147-151 | `str()` of a JSON value: a string is itself, `None`, `True` and `False` are their names, and an integer gives a decimal numeral that is all digits exactly when it is not negative |
| Alerta.PyStrIntValue | alertas_inmet_api/alerta.py:147-151 | `str()` of a non-negative integer is a numeral whose digits denote it; a negative one is `"-"` followed by the numeral of its magnitude |
| Alerta.AttrStr | alertas_inmet_api/alerta.py:151 | `str(value)` of an attribute: a JSON value as `PyStr` renders it, and dates, times, datetimes, polygons and lists through the matching `Library` renderer |
| Alerta.AsList | alertas_inmet_api/alerta.py:147 | `isinstance(value, list)` holds exactly for the lists the constructor built and for JSON arrays, and it yields their items |
| Alerta.FirstFive | alertas_inmet_api/alerta.py:149 | `value[:5]` is the prefix of length `min(5, len)` |
| Alerta.ShowAll | alertas_inmet_api/alerta.py:149 | item `i` is shown as `str(item i)` |
| Alerta.FormatValue | alertas_inmet_api/alerta.py:146-152 | `format_value(key, value)` always starts with `key + ": "` |
| Alerta.FormatValueShape | alertas_inmet_api/alerta.py:146-152 | a list gives `key + ": "` followed by each of its first five items on an indented line, or just the indent when it is empty; any other value gives `key + ": " + str(value)` |
| Alerta.FormatValueShowsFirstFive | alertas_inmet_api/alerta.py:147-149 | lists that agree on their first five items render the same |
| Alerta.Vars | alertas_inmet_api/alerta.py:91-133 | `vars(self)` holds the 32 attributes in assignment order; the 25th is `poligono` with the decoded polygon and the 26th is `icone` with the stripped icon |
| Alerta.Render | alertas_inmet_api/alerta.py:161-165 | `__str__` is one `format_value` line plus `"\n    "` per shown attribute, in `vars(self)` order |
| Alerta.RenderEntries | alertas_inmet_api/alerta.py:161-165 | the loop over any list of attributes renders exactly the entries that are not hidden, in order |
| Alerta.RenderStep | alertas_inmet_api/alerta.py:162-164 | one turn of the loop appends the entry's line, or nothing for `icone` and `poligono` |
| Alerta.ShownIsAllButIconAndPolygon | alertas_inmet_api/alerta.py:161-165 | the shown attributes are all attributes except `poligono` and `icone`, in assignment order |
| Alerta.RenderIgnoresIconAndPolygon | alertas_inmet_api/alerta.py:161-165 | changing the icon or the polygon never changes the text |
| Alertas.Elements | alertas_inmet_api/alertas.py:27 | a JSON list is iterated element by element; numbers, booleans and null cannot be iterated |
| Alertas.BuildOne | alertas_inmet_api/alertas.py:28 | only an object can become a record; for an object the result, record or failure, is exactly what `Alerta.FromJson` gives |
| Alertas.BuildAll | alertas_inmet_api/alertas.py:26-28 | the list builds exactly when every element does; record `i` is built from element `i` and the lengths agree |
| Alertas.Parse | alertas_inmet_api/alertas.py:26-32 | a successful `__init__` found both `hoje` and `futuro`, both iterable, and built one record per element of each |
| Alertas.ParseCharacterized | alertas_inmet_api/alertas.py:26-32 | construction succeeds exactly when both keys are present and iterable and every element of both builds; `hoje[i]` and `futuro[i]` come from element `i` |
| Alertas.BuildAllFromJson | alertas_inmet_api/alertas.py:28 | with the real constructor every element of a built list is an object, and record `i` is `Alerta.FromJson` of object `i` |
| Alertas.Alertas.Create | alertas_inmet_api/alertas.py:19-32 | a new collection exists exactly when construction succeeds as a whole, and its `hoje` and `futuro` are the lists built from the input |
| Alertas.Alertas.CreateWith | alertas_inmet_api/alertas.py:26-32 | the two append phases fill `hoje` first and then `futuro`, with no partial object on failure |
| Alertas.Alertas.AppendHoje | alertas_inmet_api/alertas.py:27-28 | the loop appends one record per element to `hoje`, leaves `futuro` alone, and reports failure exactly when some element fails |
| Alertas.Alertas.AppendFuturo | alertas_inmet_api/alertas.py:31-32 | the loop appends one record per element to `futuro`, leaves `hoje` alone, and reports failure exactly when some element fails |
| Alertas.RenderedAll | alertas_inmet_api/alertas.py:43 | block `i` is `str(hoje[i])` |
| Alertas.Listing | alertas_inmet_api/alertas.py:41-44 | `__str__` always starts with the header `"hoje: \n"`, and each alert adds at least the five characters of `"  - "` and the newline |
| Alertas.Entries | alertas_inmet_api/alertas.py:42-43 | the entry lines are empty exactly when there are no alerts |
| Alertas.ListingIsHeaderThenEntries | alertas_inmet_api/alertas.py:41-44 | the text is `"hoje: \n"` followed by `"  - " + block + "\n"` for each alert in order, and the header alone with no alerts |
| Alertas.ListingSnoc | alertas_inmet_api/alertas.py:42-43 | one loop turn appends exactly one entry |
| Alertas.Alertas.ToString | alertas_inmet_api/alertas.py:34-44 | `__str__` is the listing of the rendered `hoje` alerts; it does not depend on `futuro` |

## Left out

- The HTTP request and printing in `tests/test_inmet_api.py` are I/O. `alertas_inmet_api/api.py` holds type annotations with no behaviour.
- `datetime.strptime` with its three formats is not modelled. It is `Library.parseStamp`, `parseClock` and `parsePeriod`, each of which may fail. Their acceptance rules belong to the Python standard library.
- `shape(json.loads(...))` for the polygon is not modelled. It is `Library.decodePolygon`, which may fail.
- `str()` of dates, times, datetimes, geometries, and lists or dicts taken from the JSON is not modelled. These are `Library.showDate`, `showTime`, `showDateTime`, `showPolygon` and `showComposite`.
- JSON floating-point numbers are not represented. The `Json` datatype has integers only.
- `Alerta.ListField`: `list()` of a JSON object (a dict) fails in the model. Python would give the dict's keys in insertion order, and the map has no key order.
- `Alertas.Elements`: iterating a non-empty JSON object fails in the model. Python would iterate the dict's keys, which are strings, and `Alerta(key)` then raises on `key["id"]`, so the collection fails all the same.
- `Hanoi.TorreHanoi` requires `n >= 1`. For `n <= 0` the recursion never reaches its base case and ends only when Python's recursion limit raises.
- Pegs are modelled by their `str()`. The solver only formats them into the output lines.
- `Hanoi.DescribeRoundTrip` requires the origin peg's name to contain no space. The reader splits the line at the first space, so it cannot recover such a name.
- `Alerta` is modelled as an immutable value. `__init__` assigns each attribute once, and nothing updates them later, so the record's object identity is not captured.
- Failures carry no error kind or message. Python raises `KeyError`, `TypeError`, `AttributeError` or `ValueError`; all of them are one `Failure`.
