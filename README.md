# Configuration codec and position extraction of the QED PyQt6 GUI

This project models, in Dafny, the two pieces of the QED desktop GUI that hold
logic of their own:

- **The configuration document codec** (`configuration.py`). A
  `MoleculeConfig` is a pass-through record of a molecule's `name`, `atoms`
  and `electrons`; its `from_dict` is strict and raises `KeyError` for the
  first missing key. A `Configuration` holds the MongoDB connection strings
  (`uri`, `database`, `collection`), the simulation's `num_steps` and `dt`,
  and an ordered list of `MoleculeConfig`. It converts to a document with
  the sections `mongodb`, `simulation` and `molecules`, and back. Its
  `from_dict` is lenient: a missing section or field takes its hard-coded
  default.
- **Position extraction in `visualize_data`** (`visualization.py`). The
  loaded simulation-output document is flattened into a list of atom
  positions and a list of electron positions, in order. `atoms` and
  `electrons` default to `[]`, while `molecules` and `position` are looked
  up strictly. Only a missing file or malformed JSON is caught, and then the
  call returns `None`.

## Layout

- `wrappers.dfy`, module `Wrappers`: `Option` and `Result`.
- `documents.dfy`, module `Documents`: parsed JSON values (`Value`). It
  also models the three Python operations the core applies to them:
  `d.get(key, default)` (`Get`), `d[key]` (`Subscript`) and `for x in v`
  (`Iterate`). It also holds the exceptions they raise (`PyError`:
  `KeyError(key)`, `TypeError`, `AttributeError`).
- `configuration.dfy`, module `Configurations`:
  - the `MoleculeConfig` datatype with `ToDict`/`FromDict`;
  - `Settings`, the six fields of a configuration as one value;
  - `Encode` (what `to_dict` builds);
  - `Load` (what `from_dict` does to an object whose fields were `prior`);
  - the class `Configuration`, whose `FromDict` method overwrites its fields
    one after the other;
  - the lemmas about the codec.
- `visualization.dfy`, module `Visualization`:
  - the specification functions of the extraction (`Extract`,
    `ExtractDocument`, and the one-list reference `Gather`);
  - the method `ExtractPositions`, which does the `data['molecules']`
    lookup, and the loop methods `CollectPositions` (the loop over
    molecules) and `AppendPositions` (one inner loop, used once for atoms
    and once for electrons);
  - `VisualizeData` with its error mapping;
  - the lemmas.

## Modelling decisions

- Python copies whatever a document holds into the fields without checking
  types. So every scalar field of `Configuration` and every field of
  `MoleculeConfig` is a JSON `Value`. The defaults are the values
  `"mongodb://localhost:27017/"`, `"qed_adamant"`, `"simulation_results"`,
  `1000` and `0.01`.
- `dt` is only copied. A non-integer JSON number is therefore an opaque
  decimal literal, `Decimal(mantissa, exponent)`, and `0.01` is
  `Decimal(1, -2)`.
- A JSON object is a `map<string, Value>`; the order of its keys is not
  kept. In Python, iterating a non-empty dict or string yields strings, and
  every consumer in the core fails on the first of them. Which string comes
  first therefore does not matter, and `Iterate` reports only that the
  items are strings (`StrItems`).
- Reading the file and parsing the JSON are not part of the model.
  `VisualizeData` takes the outcome of that step as a parameter: a parsed
  document, a missing file, or malformed JSON.
- The model keeps the code's own error behaviour:
  - `Configuration.from_dict` raises Python's own `AttributeError` or
    `TypeError` for a badly shaped document. It also stops partway: after a `simulation` section that is not a dict, the
    three connection fields are already overwritten; after a molecule that
    fails, all but `molecule_configs` are. `Load` and `LoadOnError` state
    exactly which fields change.
  - `visualize_data` neither skips nor reports a malformed atom or
    electron entry. The `KeyError` or `TypeError` propagates, and so does the
    `KeyError` for a document without `molecules`.
  - No field type is checked: a string `num_steps` is accepted and kept.

## Model

| member | source | states |
|---|---|---|
| `Configurations.MoleculeConfig.ToDict` | configuration.py:26-31 | the document has exactly the keys `name`, `atoms`, `electrons`, each holding the field unchanged |
| `Configurations.MoleculeConfig.FromDict` | configuration.py:33-35 | succeeds exactly when the input is a dict with all three keys, and then copies them. A non-dict raises `TypeError`. Otherwise the first missing key, in the order `name`, `atoms`, `electrons`, raises `KeyError`. Nothing is defaulted |
| `Configurations.FromDictAll` | configuration.py:79 | the comprehension succeeds exactly when every item decodes. It then yields one descriptor per item, in the same order. Otherwise the error is that of the first item that fails |
| `Configurations.MoleculesFromDict` | configuration.py:72-79 | a list is decoded item by item. An empty string or dict yields no molecules. A non-empty string or dict, or a non-iterable, raises `TypeError` |
| `Configurations.MoleculeDicts` | configuration.py:66 | one molecule document per molecule, same length, in the same order |
| `Configurations.Encode` | configuration.py:54-67 | exactly the three sections `mongodb`, `simulation`, `molecules`. `mongodb` holds exactly `uri`/`database`/`collection`, and `simulation` exactly `num_steps`/`dt`, each with the field's value. `molecules` lists the molecule documents in order |
| `Configurations.Load` | configuration.py:69-79 | `from_dict` applied to an object whose fields were `prior`. A document that is not a dict raises `AttributeError` and changes nothing. After any exception, `molecule_configs` keeps its old value. The only exceptions are `AttributeError`, `TypeError` and `KeyError` for `name`, `atoms` or `electrons`. Its other properties are the `Load*` lemmas below |
| `Configurations.Configuration.constructor` | configuration.py:39-52 | every omitted argument takes its default, and `molecule_configs=None` becomes `[]` |
| `Configurations.Configuration.ToDict` | configuration.py:54-67 | the document of the current fields. Run `from_dict` on it, on any object, and you get exactly these fields back with no exception |
| `Configurations.Configuration.FromDict` | configuration.py:69-79 | the new fields and the raised exception are those of `Load` applied to the old fields |
| `Configurations.MoleculeRoundTrip` | configuration.py:26-35 | `from_dict(m.to_dict())` reproduces `m` field for field |
| `Configurations.MoleculesRoundTrip` | configuration.py:66-79 | decoding the documents of a molecule list gives back the same list in the same order |
| `Configurations.LoadRoundTrip` | configuration.py:54-79 | `from_dict(to_dict())` restores all six fields, raises nothing, and ignores what the object held before |
| `Configurations.LoadRoundTripAll` | configuration.py:54-79 | the round trip holds for every prior state at once, as `Configuration.ToDict` states it |
| `Configurations.LoadEmptyDocument` | configuration.py:69-79 | `from_dict({})` resets every field to its default |
| `Configurations.LoadSubstitutesDefaults` | configuration.py:69-79 | `from_dict` raises nothing exactly when the document is a dict, `mongodb` and `simulation` are absent or dicts, and every molecule decodes. Each field is then the document's value where present and the default where absent |
| `Configurations.LoadForgetsPriorState` | configuration.py:69-79 | the exception raised does not depend on the prior fields, and after a successful call no prior field survives |
| `Configurations.LoadOnError` | configuration.py:69-79 | after an exception, the fields assigned so far hold their new values and the rest keep their old ones. That is none, the first three, or all but `molecule_configs`, depending on where it failed |
| `Configurations.LoadPreservesMoleculeOrder` | configuration.py:72-79 | the loaded molecules are as many as the document's entries, and entry `i` decodes to molecule `i` |
| `Configurations.LenientConfigurationStrictMolecule` | configuration.py:33-79 | the empty document is a complete configuration but not a molecule (`KeyError: 'name'`) |
| `Configurations.MissingMoleculeKeyRaises` | configuration.py:34-35 | `MoleculeConfig.from_dict({"name": "H2"})` raises `KeyError: 'atoms'` |
| `Configurations.PartialDocument` | configuration.py:69-79 | `{"simulation": {"num_steps": 50}}` gives the defaults except `num_steps == 50` |
| `Configurations.EndToEnd` | configuration.py:54-79 | a complete one-molecule document decodes to the configuration it describes, and re-encoding it gives the same document |
| `Documents.Get` | configuration.py:70-78 | `d.get(key, default)`, also used at visualization.py:33 and 35. It succeeds exactly on a dict and otherwise raises `AttributeError`. It gives the value of a present key and `default` for an absent one |
| `Documents.Subscript` | configuration.py:35 | `d[key]`, also used at visualization.py:32, 34 and 36. It succeeds exactly on a dict that holds the key. It raises `KeyError(key)` on any other dict and `TypeError` on a non-dict |
| `Documents.Iterate` | visualization.py:32-35 | `for x in v`, also used at configuration.py:79. A list yields its elements, and an empty string or dict yields nothing. A non-empty string or dict yields only strings. Any other value is not iterable |
| `Visualization.Entries` | visualization.py:33-35 | `molecule.get(key, [])`, iterated. A non-dict molecule raises `AttributeError`. An absent key gives no entries, and a list gives its elements. An empty string or dict gives no entries. Any other present value raises `TypeError`: a non-empty string or dict yields strings, and `s['position']` fails on them, while a number, `null` or bool is not iterable |
| `Visualization.PositionsOf` | visualization.py:33-36 | one `position` per entry, in entry order. It succeeds exactly when every entry has one. Otherwise the first entry without one decides the error |
| `Visualization.MoleculePositions` | visualization.py:33-36 | what one molecule adds to one list. A non-dict molecule raises `AttributeError`, and a missing key adds `[]`. The only exceptions are `AttributeError`, `TypeError` and `KeyError('position')`. A present list adds exactly what `PositionsOf` gives for its items: one position per entry, in order. A present empty string or dict adds `[]`. Any other present non-list raises `TypeError`: a non-empty string or dict yields strings that fail `['position']`, and a number, `null` or bool is not iterable |
| `Visualization.Extract` | visualization.py:32-36 | the nested loops over a molecule list as a function, with the first exception in loop order winning. They can raise only `AttributeError`, `TypeError` or `KeyError('position')`. `ExtractSucceedsIff`, `ExtractAgreesWithGather` and `ExtractFlattensEntries` prove the rest |
| `Visualization.ExtractDocument` | visualization.py:30-36 | the extraction of a whole document. A non-dict raises `TypeError`, and a dict without `molecules` raises `KeyError('molecules')`. A `molecules` list is handed to `Extract`. An empty string or dict as `molecules` gives two empty lists. A non-empty string or dict raises `AttributeError`, because its string items have no `.get`. Any other non-list raises `TypeError`. No exception it can raise is one the handler at line 60 catches |
| `Visualization.Gather` | visualization.py:30-36 | one list built on its own succeeds exactly when every molecule's entries do |
| `Visualization.ExtractPositions` | visualization.py:30-36 | the lists built by the lookup of `data['molecules']` and the loops, or the exception raised, are those of `ExtractDocument` |
| `Visualization.CollectPositions` | visualization.py:32-36 | the nested `append` loops over the molecule list build the two lists, or raise the exception, of `Extract` |
| `Visualization.AppendPositions` | visualization.py:33-36 | one inner loop, run once for atoms and once for electrons. It extends the list by exactly what `MoleculePositions` gives for that molecule and key, or raises that function's exception |
| `Visualization.MoleculeFails` | visualization.py:32-36 | once every earlier molecule has succeeded, the first exception of a molecule's atoms, or else its electrons, is the outcome of the loops |
| `Visualization.MoleculeStep` | visualization.py:32-36 | a molecule that succeeds appends its atom positions and its electron positions to the two lists built so far |
| `Visualization.VisualizeData` | visualization.py:25-62 | a missing file or malformed JSON returns `None`. An extraction exception propagates. Otherwise the two lists are rendered |
| `Visualization.FirstFailure` | visualization.py:34-36 | the first entry without `position` determines the exception |
| `Visualization.ExtractExtends` | visualization.py:32-36 | once a molecule has raised, the later molecules do not change the outcome |
| `Visualization.ExtractSucceedsIff` | visualization.py:32-36 | the loops raise nothing exactly when every molecule's atoms and electrons all succeed |
| `Visualization.ExtractAgreesWithGather` | visualization.py:30-36 | the combined loops succeed exactly when building each list on its own succeeds, and then yield those two lists |
| `Visualization.GatherFlattensEntries` | visualization.py:30-36 | a list is the positions of all its entries, in molecule order and then entry order, with one value per entry |
| `Visualization.PositionsAppend` | visualization.py:33-36 | appending more entries and their positions to the lists built so far keeps every entry lined up with its own position |
| `Visualization.ExtractFlattensEntries` | visualization.py:30-36 | `atom_positions` and `electron_positions` each have the length of the total number of their entries, and hold those entries' positions in order |
| `Visualization.MissingKeyContributesNothing` | visualization.py:33-35 | a molecule without `atoms` (or `electrons`) adds nothing to that list and raises nothing for it |
| `Visualization.MissingMoleculesRaises` | visualization.py:32 | a document without `molecules` raises `KeyError: 'molecules'`, which the handler at line 60 does not catch |
| `Visualization.MissingPositionRaises` | visualization.py:34-36 | an atom or electron entry without `position` makes the extraction raise |
| `Visualization.FirstMissingPositionRaises` | visualization.py:32-36 | suppose every earlier molecule succeeded and earlier entries in the same list succeeded. For an electron, the same molecule's atoms also went first. Then the first atom or electron entry without `position` makes the whole document raise `KeyError('position')`, which `VisualizeData` propagates |
| `Visualization.AtomWithoutPositionExample` | visualization.py:32-36 | a single atom without `position` raises exactly `KeyError: 'position'` |

## Left out

- `gui.py`: widget construction, menu wiring and file dialogs, all of it
  PyQt6. Its `create_config_object` passes raw dicts as `molecule_configs`.
  `to_dict` cannot encode those, so the model types `molecule_configs` as a
  list of `MoleculeConfig`.
- `main.py` (entry point only) and `add_header.py` (rewrites licence headers
  in files on disk): I/O only.
- The rendering part of `visualize_data` (visualization.py:38-58): figure
  creation, the `if atom_positions:` checks, `points3d`, `show`, the screen
  grab and its base64 encoding. These are foreign calls on floating-point
  data. `Rendered` stands for "the two lists were handed to the renderer".
  Errors the renderer itself could raise (for example a `position` that is
  not three numbers) are not modelled.
- Opening the file and parsing JSON (`open`, `json.load`). These are the
  `FileRead` parameter, and other I/O errors (such as permission or
  encoding errors) are not modelled.
- `Configuration.__str__` and JSON text formatting: presentation only.
- Floating-point semantics of `dt`: it is only copied, so it is kept as an
  opaque literal.
- The text of Python's exception messages: only the exception class, plus
  the key for a `KeyError`, is modelled.
- The order of keys inside a JSON object: a dict is modelled as a map.
- The `print` of the caught error in `visualize_data` (visualization.py:61),
  which is console output only. The model keeps only the `None` result.
- Aliasing. In the source, a `MoleculeConfig` shares the document's own
  `atoms` and `electrons` list objects (configuration.py:23-24, 29-30, 35).
  `__init__` also keeps the caller's `molecule_configs` list
  (configuration.py:52). So a later in-place change to one of those lists
  would show through the other reference. The model uses immutable
  values, so it does not capture this sharing.
