# Selenium IDE `.side` project loader, modelled in Dafny

This project models `selenium_side_runner/loader.py`, the loader that turns the JSON text of a
Selenium IDE `.side` project into a project value. The project value holds:

- the project id, name and url;
- a map from test id to test, where each test holds its ordered commands;
- the ordered list of suites, where each suite holds its test-id references, its
  `persistSession` and `parallel` flags and its timeout.

The model has four modules:

- `Wrappers` (`wrappers.dfy`): `Option`, `Result`, and `Traverse`. `Traverse` is how a Python
  list comprehension evaluates when its element expression may raise: elements are built in
  order, and the first raise aborts the whole list.
- `Json` (`json.dfy`): the parsed JSON value, plus the Python operations the loader applies to it:
  - truthiness (`Truthy`) and `a or b` (`Or`);
  - `dict.get` (`Lookup`, `Get`);
  - iteration (`Iterate`, `Keys`);
  - use as a dict key (`HashKey`).

  An object keeps its members in document order. `Lookup` returns the last value written under a
  key, as Python's JSON parser does. `Keys` yields each key once, in the order it first appears.
- `Loader` (`loader.dfy`): the three builders `BuildCommand`, `BuildTest` and `BuildSuite`. The
  test-map fold `IndexTests`. Name resolution `ResolveName`. The entry point `LoadSideProject`.
  The entry point takes the JSON parser as a parameter, `parse: string -> Result<Json, string>`.
  The parser returns either the parsed value or its diagnostic.
- `LoaderProperties` (`loader_properties.dfy`): whole-project properties. It states exactly which
  parsed documents load. It states the test-map key set and last-write-wins in terms of the raw
  test list. It shows that suite references are never checked. It works through
  scenarios on concrete documents: a dangling suite reference, repeated and equal test ids, name
  defaulting and irregular field types.

Field policies are stated once each, as predicates in `Loader`:

- `KeptOrDefault`: `raw.get(key, default)`. A missing key gives the default. A present value is
  kept unchanged, even when it is falsy.
- `FalsyToEmpty`: `raw.get(key, "") or ""`. The result is `""` exactly when the key is missing or
  its value is falsy.
- `TruthOf`: `bool(raw.get(key, False))`.

### What the code does that a permissive reading of the format would not expect

- Fields are not coerced to strings. `id`, `command`, `name`, `timeout`, `url` and `comment` pass
  through whatever JSON value they hold. So does a truthy `target` or `value`. The model's
  records therefore hold `Json` values.
- Non-text input and malformed JSON are not the only inputs that raise. The code raises in
  three more cases:
  - `AttributeError` when `.get` is called on a value that is not a dict. This covers a
    top-level array, and a test, command or suite that is not an object.
  - `TypeError` when it iterates `null`, a boolean or a number. This covers `"commands": null`
    and a `"tests": 5` in a suite.
  - `TypeError` when a test id is a list or a dict, because that id cannot be a dict key.

  The model raises these too (`LoadError`). `LoadSucceedsExactly` characterises the documents that
  load.
- Iterating a string yields its characters, and iterating a dict yields its keys. So a suite with
  `"tests": "ab"` gets the references `["a", "b"]` (`StringSuiteTestsSplit`).
- The default name is used only when it is truthy: an empty default name, like an absent one,
  gives `"Unnamed Project"`.
- Test ids are dict keys under Python equality. `true`, `1` and `1.0` are one key
  (`Json.Key`, `EqualNumericIdsCollide`, `FloatIdCollides`).

## Model

| member | source | states |
|---|---|---|
| `Wrappers.Traverse` | selenium_side_runner/loader.py:20 | a comprehension succeeds iff every element builds; then it has one result per element, in order, each the build of that element; otherwise it raises the error of the first element that fails |
| `Json.Lookup` | selenium_side_runner/loader.py:11-15 | `None` iff the key is absent; otherwise the value of the key's last occurrence in the parsed object |
| `Json.FalsyExactly` | selenium_side_runner/loader.py:13-14 | `Json.Truthy`, the Python truthiness that decides `target`/`value` (lines 13-14), `persistSession`/`parallel` (33-34) and the project name (44), is false exactly for None, False, 0, 0.0, `""`, `[]` and `{}` |
| `Json.Keys` | selenium_side_runner/loader.py:32 | iterating a dict yields exactly its keys, each once |
| `Json.KeysInFirstAppearanceOrder` | selenium_side_runner/loader.py:32 | the keys come in the order of their first appearance |
| `Json.Iterate` | selenium_side_runner/loader.py:32 | `list(v)`: a list yields its items, a string its one-character strings, a dict its keys; it fails exactly on None, booleans and numbers |
| `Json.HashKey` | selenium_side_runner/loader.py:47 | unhashable exactly for lists and dicts; strings key by content; booleans, integers and floats key as the equal number, so `true`, `1` and `1.0` are one key; None keys as itself |
| `Loader.ListField` | selenium_side_runner/loader.py:20-49 | `raw.get(key, [])` iterated, as at lines 20, 32, 46 and 49: empty when the key is missing; the items of an array; raises `NotIterable` exactly when the present value is not iterable |
| `Loader.BuildCommand` | selenium_side_runner/loader.py:9-16 | builds iff the record is a dict, else `AttributeError`; `id` and `command` are `""` only when missing and otherwise unchanged; `target` and `value` are `""` exactly when missing or falsy and otherwise unchanged; `comment` passes through, null when absent |
| `Loader.BuildTest` | selenium_side_runner/loader.py:19-25 | builds iff the record is a dict whose commands iterate and are all dicts; the commands have the raw list's length and order, each the build of the raw command at that position; a missing `commands` gives `[]`; `id`, `name` default to `""` only when missing; a non-dict record raises `AttributeError` of itself, a non-iterable `commands` raises `NotIterable` of that value, and otherwise the error is `AttributeError` of the first non-dict command |
| `Loader.BuildSuite` | selenium_side_runner/loader.py:28-36 | builds iff the record is a dict whose `tests` iterates; `tests` is the raw list copied (same items, same order, `[]` when missing); `persistSession`, `parallel` are the truthiness of the raw values, false when absent; `timeout` passes through; a non-dict record raises `AttributeError` of itself, a dict record fails only with the `tests` field's `NotIterable` |
| `Loader.IndexTests` | selenium_side_runner/loader.py:47 | succeeds iff every id is hashable, else raises for the first unhashable id; the key set is exactly the set of the tests' id keys |
| `Loader.LastWithKey` | selenium_side_runner/loader.py:47 | reference definition: the position of the last test whose id has the key, -1 if none |
| `Loader.IndexTestsLastWriteWins` | selenium_side_runner/loader.py:47 | under every key the map holds the last test with that id key (last write wins) |
| `Loader.ResolveName` | selenium_side_runner/loader.py:44 | raw name if truthy, else the default name if non-empty, else `"Unnamed Project"`; the result is always truthy |
| `Loader.BuildProject` | selenium_side_runner/loader.py:44-57 | a non-dict document raises `AttributeError`; on success `id`/`url` follow presence defaulting, the name is resolved, the test map is the fold of the built tests, suites are one per raw suite in input order; a failing dict document raises the error of the first failing stage, in the order: iterating `tests`, building a test, hashing a test id, iterating `suites`, building a suite |
| `Loader.LoadSideProject` | selenium_side_runner/loader.py:39-57 | non-text input raises `InputTypeError` before parsing; a parser failure raises `MalformedJson` with the parser's diagnostic; otherwise it builds the project; every error is genuine; a loaded project's name is truthy |
| `LoaderProperties.BuildTestOkExactly` | selenium_side_runner/loader.py:19-25 | a test builds exactly when it is a dict of dict commands, and the built id has the raw id's key |
| `LoaderProperties.TestsLoadExactly` | selenium_side_runner/loader.py:46-47 | building and indexing a test list succeeds exactly when every raw test is loadable |
| `LoaderProperties.SuitesLoadExactly` | selenium_side_runner/loader.py:49 | building a suite list succeeds exactly when every raw suite is a dict whose `tests` iterates |
| `LoaderProperties.LoadSucceedsExactly` | selenium_side_runner/loader.py:43-57 | a parsed document loads if and only if it is `Loadable`; no other irregularity, and no missing field, raises |
| `LoaderProperties.IndexedKeys` | selenium_side_runner/loader.py:46-47 | the map built from a raw test list has a key exactly for each raw test's id key |
| `LoaderProperties.TestMapKeys` | selenium_side_runner/loader.py:46-47 | a loaded project's test-map keys are exactly the keys of the raw test ids |
| `LoaderProperties.TestMapLastWriteWins` | selenium_side_runner/loader.py:46-47 | for the last raw test with a given id key, the test map holds that test's build under the key |
| `LoaderProperties.SuitesIndependentOfTests` | selenium_side_runner/loader.py:49 | suites depend on the `suites` field alone, so references are never resolved against the tests |
| `LoaderProperties.MissingListsLoadEmpty` | selenium_side_runner/loader.py:46-49 | no `tests` field gives an empty test map, and no `suites` field gives no suites; with neither, loading succeeds |
| `LoaderProperties.DanglingReferenceProject` | selenium_side_runner/loader.py:32 | a document whose suite references a missing test builds, with the suite keeping `["t1", "missing"]` |
| `LoaderProperties.DanglingSuiteReferenceLoads` | selenium_side_runner/loader.py:49 | loading that document succeeds, and `"missing"` is not a key of the test map |
| `LoaderProperties.DuplicateIdKeepsLast` | selenium_side_runner/loader.py:47 | two tests with id `"t"` leave one entry, the second test |
| `LoaderProperties.EqualNumericIdsCollide` | selenium_side_runner/loader.py:47 | ids `1` and `true` are one key; the later test wins |
| `LoaderProperties.EmptyNameTakesDefault` | selenium_side_runner/loader.py:44 | `{"name": ""}` with default name `"Fallback"` is named `"Fallback"` |
| `LoaderProperties.EmptyDocumentIsUnnamed` | selenium_side_runner/loader.py:44 | `{}` without a default name is named `"Unnamed Project"`, with every other field defaulted |
| `LoaderProperties.NullCommandsRaise` | selenium_side_runner/loader.py:20 | `"commands": null` raises `NotIterable(null)` rather than being defaulted |
| `LoaderProperties.NonDictCommandRaises` | selenium_side_runner/loader.py:20 | a commands list `[{}, 5, null]` raises `AttributeError(5)`, the error of the first non-dict command |
| `LoaderProperties.FloatIdCollides` | selenium_side_runner/loader.py:47 | the ids `1.0`, `1` and `true` hash to one key, and so do `0.0`, `0` and `false` |
| `LoaderProperties.StringSuiteTestsSplit` | selenium_side_runner/loader.py:32 | a suite's `"tests": "ab"` yields the references `["a", "b"]` |

## Left out

- `src/logger_config.py` is not part of this model. It holds logging set-up, the logger
  accessor and a call-tracing decorator. These are I/O and global configuration, and the loader
  does not call them.
- The JSON parser's internals: `json.loads` is the parameter `parse`. Its diagnostic is an opaque
  string.
- The JSON literals `NaN`, `Infinity` and `-Infinity`. Python's parser accepts them, but `Json`
  has no value for them. NaN would be truthy. Every NaN the parser produces is one and the same
  object, so NaN test ids would collide as one key although NaN is unequal to itself.
- Number literals that overflow a float, such as `1e400`. Python parses them to infinity, so the
  ids `1e400` and `1e500` are one key. `Float(real)` keeps them apart.
- Strings that hold a lone surrogate, such as `"\ud800"`. Python's parser accepts them, but a
  Dafny `char` is a Unicode scalar value and cannot hold one.
- The dataclasses of `selenium_side_runner/models.py`, which is not part of this model. `Command`,
  `Test`, `Suite` and `Project` are plain datatypes with the same fields.
- `isinstance` is modelled by the input sum type `Payload` (text or not text). No other Python
  object is modelled.
- The text of the `TypeError` message for non-text input is not modelled. The text of Python's
  own `AttributeError` and `TypeError` messages is not modelled either. Each error carries the
  offending value instead.
- `Loader.IndexTests`: the map is keyed by the id's equality class (`Key`), not by the id object
  that Python keeps, which is the first one inserted. Lookups by any equal id behave the same. The
  printed key can differ: `1` where the model only knows `NumKey(1.0)`. The map's iteration
  order is not modelled either: a Python dict yields each key at the position where it was first
  inserted, with the last test as its value (ids `a`, `b`, `a` iterate as `a`, then `b`), while
  `Project.tests` is an unordered `map`.
- Python's recursion and memory limits on very deep or very large documents.
