# Keras backend selection and configuration bootstrap, in Dafny

This project models what `keras/backend/__init__.py` does when the package is
first imported. It chooses a base directory: the home directory, or `/tmp`
when home is not writable. It reads the optional `<base>/.keras/keras.json` and
overlays its `floatx`, `epsilon`, `backend` and `image_data_format` on the
current values, checking each against its fixed domain. It writes a seed
config file on first run. It lets `KERAS_BACKEND` override the backend. Finally
it binds the Theano or TensorFlow backend module, and `backend()` reports the
name of the one in use.

The file system, `json.load` and the environment become plain inputs (a `Host`
value). Python values, both the parsed file's and the common module's settings,
become one JSON-value datatype. A parsed JSON object is kept as its members in
document order. A repeated key keeps its last value, as in the dict `json.load`
returns.

Files:

- `json.dfy` (module `Json`): the value datatype, hashability, and `dict.get`
  on a parsed object (`Lookup`, `Get`).
- `resolution.dfy` (module `Resolution`): the whole sequence as a function.
  `Resolve` maps the common module's starting settings and a `Host` to a `Run`:
  the config path, the final four fields, the seed record written (if any), and
  either the bound backend or the exception that stopped the import. The file
  layer, the seed step, the environment layer and the dispatch are separate
  functions.
- `properties.dfy` (module `Properties`): lemmas over all hosts and all starting
  states. They cover precedence, the abort cases, the seed file, the
  environment override, the round trip through the seed file, and three
  concrete scenarios: a first run, a file overridden by `KERAS_BACKEND`, and
  an invalid `floatx`.
- `package.dfy` (module `Package`): the package as mutable state.
  `BackendPackage` holds these fields:
  - the common module's settings;
  - `_BACKEND`;
  - the path globals;
  - the seed-file slot;
  - the bound backend.

  `Import` runs the module-level statements step by step: it calls the three
  setters only after all four checks pass. It is proved to leave exactly the
  state, seed and outcome that `Resolve` describes.

Behaviour of the code a reader might not expect:

- An existing file that does not parse is not equivalent to an absent one. It
  suppresses the seed write, and the current values still go through the four
  checks (`MalformedVersusAbsent`).
- Only a failing `os.makedirs` is swallowed. A failing `open(path, 'w')` or
  write stops the import (`SeedWriteFailureAborts`).
- On a file system that does not change during the import, swallowing the
  `os.makedirs` failure never saves the import. When `.keras` is missing and
  cannot be created, the `open(path, 'w')` that follows raises anyway
  (`MakedirsFailureSwallowed`, `MissingDirectoryAbortsSeed`). In that setting
  the comment "Save config file, if possible" promises more than the code
  does. The `try` does help when another process creates `.keras` between the
  `exists` test and `makedirs`; that case is not modelled.
- `epsilon` is checked too. An integer JSON number such as `1` fails
  `isinstance(_, float)`.
- A list or dict value tested against one of the string sets raises
  `TypeError`, not `AssertionError`.
- A file that parses to something other than an object stops the import, because
  `.get` raises `AttributeError`. An `OSError` from opening or reading an existing
  file also stops it, because only `ValueError` is caught. Either way no setter
  runs and no seed is written (`ExistingFileAborts`).

## Model

| member | source | states |
|---|---|---|
| `Json.Lookup` | keras/backend/__init__.py:80-87 | the dict built from the parsed members has no entry for a key exactly when no member carries that key; otherwise its value is that of the last member with the key |
| `Json.Get` | keras/backend/__init__.py:80-87 | `.get(key, default)` gives the default when no member carries the key, and otherwise the value of the last member with that key |
| `Resolution.PathJoin` | keras/backend/__init__.py:67-74 | an absolute second component replaces the first; otherwise the joined path is the two components with at most one character added between them |
| `Resolution.BaseDir` | keras/backend/__init__.py:64-66 | the base directory is the home directory when that is writable, and `/tmp` otherwise |
| `Resolution.SeedAttempted` | keras/backend/__init__.py:96-102 | a seed is attempted only when no config file exists; when no file exists it is attempted if home is writable, and also under `/tmp` if home is not writable but `/tmp` is; never when neither is writable |
| `Resolution.SeedWriteSucceeds` | keras/backend/__init__.py:97-108 | the seed write fails whenever the file cannot be created, and whenever `.keras` is missing and makedirs fails; it succeeds when the file can be created and `.keras` either exists or is missing and makedirs creates it |
| `Resolution.CheckIn` | keras/backend/__init__.py:81 | a value passes a set-membership assertion exactly when it is one of the domain's strings; a failure is an AssertionError for a hashable value and a TypeError for a list or dict |
| `Resolution.CheckFloat` | keras/backend/__init__.py:83 | the epsilon check passes exactly for a float value; every other value, an integer included, raises AssertionError |
| `Resolution.Overlay` | keras/backend/__init__.py:80-88 | whenever the four checks on the resolved values all pass, the resulting configuration is in every domain; otherwise the error is an assertion or type error |
| `Resolution.FileLayer` | keras/backend/__init__.py:75-88 | reading an existing file yields, on success, a configuration whose four fields are all in their domains |
| `Resolution.Dispatch` | keras/backend/__init__.py:116-125 | the backend module is bound exactly when `_BACKEND` is theano or tensorflow, and it is the module of that name; otherwise the error is the 'Unknown backend' ValueError |
| `Resolution.EnvLayer` | keras/backend/__init__.py:110-125 | the environment step leaves the settings and the seed untouched; on success `_BACKEND` names the bound module and equals KERAS_BACKEND when that is set; without KERAS_BACKEND the state is unchanged and the dispatch runs on the current `_BACKEND`; a KERAS_BACKEND outside {theano, tensorflow} leaves the state unchanged and raises AssertionError; a valid one becomes `_BACKEND` and the import succeeds |
| `Resolution.Resolve` | keras/backend/__init__.py:63-125 | the run uses the config path of the chosen base directory, and every successful import ends with `_BACKEND` in {theano, tensorflow} |
| `Properties.PathJoinParts` | keras/backend/__init__.py:67-74 | joining a relative component keeps the first as prefix and the second as suffix, with a '/' just before the second when the first is not empty; no separator is added when the first is empty or already ends in '/' |
| `Properties.ConfigPathShape` | keras/backend/__init__.py:67-74 | the config path is always the base, then a separator unless the base is empty or already ends in one, then `.keras/keras.json` |
| `Properties.ConfigPathChoice` | keras/backend/__init__.py:64-67 | the config path is under the home directory when it is writable and is `/tmp/.keras/keras.json` otherwise |
| `Properties.MalformedIsEmpty` | keras/backend/__init__.py:76-79 | a file whose parse raises ValueError gives exactly the same run as a file holding `{}` |
| `Properties.MalformedVersusAbsent` | keras/backend/__init__.py:75-108 | an unparsable existing file never gets a seed written, aborts when the current settings are out of domain, and otherwise agrees with the no-file run on state and outcome, unless the no-file run fails writing its seed |
| `Properties.EmptyFileKeepsCurrent` | keras/backend/__init__.py:79-88 | with an empty or unparsable file every field keeps its current value, and the layer succeeds exactly when those values are valid |
| `Properties.FilePrecedence` | keras/backend/__init__.py:80-93 | each field resolves to the file's value when the key is present and to the current value otherwise; the file layer succeeds exactly when all four resolved values are in their domains |
| `Properties.ExistingFileAborts` | keras/backend/__init__.py:75-93 | an existing file that cannot be opened or read, or that parses to something other than an object, stops the import with the starting state, no seed, and that error |
| `Properties.FileWinsWithoutEnv` | keras/backend/__init__.py:75-125 | without KERAS_BACKEND, a file that passes its checks decides the final state, `_BACKEND` included, and the import succeeds |
| `Properties.FileLayerFailures` | keras/backend/__init__.py:80-88 | the four abort cases (floatx, epsilon, backend, image_data_format out of domain), each reported by the first failing check in source order |
| `Properties.FileFailureChangesNothing` | keras/backend/__init__.py:80-93 | when the file layer aborts, no setter has run, `_BACKEND` is still 'tensorflow', and nothing is written or bound |
| `Properties.NoFileNoEnvDefaults` | keras/backend/__init__.py:70-75 | with no file and no KERAS_BACKEND the settings are unchanged, `_BACKEND` is 'tensorflow', and the import binds TensorFlow unless the seed write fails |
| `Properties.SeedContents` | keras/backend/__init__.py:96-108 | a seed is written exactly when the base directory is writable, no file exists and the write succeeds; it holds the starting settings and 'tensorflow' |
| `Properties.EnvOnlyAffectsBackend` | keras/backend/__init__.py:110-114 | KERAS_BACKEND changes neither the seed written nor floatx, epsilon or image_data_format |
| `Properties.EnvOverride` | keras/backend/__init__.py:111-114 | when the earlier steps succeed, a valid KERAS_BACKEND becomes `_BACKEND` whatever the file said, and an invalid one raises AssertionError |
| `Properties.MakedirsFailureSwallowed` | keras/backend/__init__.py:97-101 | with `.keras` missing, a failing makedirs raises nothing of its own: the run equals one where the directory was created but the seed file cannot be |
| `Properties.MissingDirectoryAbortsSeed` | keras/backend/__init__.py:97-108 | when the seed is attempted with `.keras` missing and makedirs failing, the import stops at the unguarded file write and no seed is recorded |
| `Properties.SeedWriteFailureAborts` | keras/backend/__init__.py:102-108 | when the seed write is attempted and cannot succeed, the import stops with the write's error |
| `Properties.UnknownBackendUnreachable` | keras/backend/__init__.py:116-125 | the 'Unknown backend' ValueError is never raised, and a successful import binds the module `_BACKEND` names |
| `Properties.SuccessIsValid` | keras/backend/__init__.py:80-93 | a successful import from valid settings, or from any settings when a file exists, leaves all four fields in their domains |
| `Resolution.SeedDocument` | keras/backend/__init__.py:103-106 | the seed record is an object of four members with distinct keys, floatx, epsilon, backend and image_data_format in that order, each holding its field |
| `Properties.SeedDocumentLookups` | keras/backend/__init__.py:103-106 | each of the four keys of the seed record holds the corresponding field |
| `Properties.SeedRoundTrip` | keras/backend/__init__.py:102-108 | reading back a seed record of a valid configuration yields exactly that configuration |
| `Properties.SecondRunStable` | keras/backend/__init__.py:75-108 | from valid settings, with or without KERAS_BACKEND, a second import that finds the seed file the first wrote ends in the same state and outcome and writes nothing |
| `Properties.FirstRunScenario` | keras/backend/__init__.py:63-125 | first run with a writable home, no file and no KERAS_BACKEND: float32, 1e-07, tensorflow, channels_last, seeded with the same four values, TensorFlow bound |
| `Properties.EnvWinsScenario` | keras/backend/__init__.py:110-123 | a file `{"backend": "theano"}` with KERAS_BACKEND=tensorflow ends with tensorflow bound |
| `Properties.InvalidFloatxScenario` | keras/backend/__init__.py:80-81 | a file `{"floatx": "float8"}` stops the import at the floatx assertion |
| `Package.BackendPackage.constructor` | keras/backend/__init__.py:6-13 | before the import the common module holds its defaults and nothing is written or bound |
| `Package.BackendPackage.SetFloatx` | keras/backend/__init__.py:90 | `set_floatx` leaves floatx holding the given value and changes no other field |
| `Package.BackendPackage.SetEpsilon` | keras/backend/__init__.py:91 | `set_epsilon` leaves epsilon holding the given value and changes no other field |
| `Package.BackendPackage.SetImageDataFormat` | keras/backend/__init__.py:92 | `set_image_data_format` leaves image_data_format holding the given value and changes no other field |
| `Package.BackendPackage.ChooseConfigPath` | keras/backend/__init__.py:63-74 | sets the base directory, the `.keras` directory and the config path as the path functions define them |
| `Package.BackendPackage.ReadConfig` | keras/backend/__init__.py:75-93 | applies the file layer in place: on success the four fields are its result; on failure they are unchanged |
| `Package.BackendPackage.SaveConfig` | keras/backend/__init__.py:95-108 | records the current four fields as the seed exactly when the base is writable, no file exists and the write succeeds; fails only on the write |
| `Package.BackendPackage.ApplyEnvironment` | keras/backend/__init__.py:110-114 | replaces `_BACKEND` by KERAS_BACKEND only after its domain check passes |
| `Package.BackendPackage.Import` | keras/backend/__init__.py:63-125 | the step-by-step import leaves the base and `.keras` directories, the state, config path, seed and outcome that `Resolve` describes, and binds a backend exactly when it succeeds |
| `Package.BackendPackage.Backend` | keras/backend/__init__.py:128-141 | returns `_BACKEND`; after a successful import that is theano or tensorflow, the name of the bound module |

## Left out

- The star-imports of the Theano and TensorFlow backend modules: the model
  records only which branch is taken (`Engine`). Those modules are not part
  of this model.
- The common module: keras/backend/common.py is not part of this model. Its
  getters and setters are plain fields that each setter assigns, and its
  initial values are taken as float32, 1e-07 and channels_last, the defaults
  Keras's own documentation of `~/.keras/keras.json` gives.
- `os.path.expanduser`, `os.access`, `os.path.exists`, `os.makedirs`, `open`:
  these are the fields of `Host`. The second `expanduser` on the joined config
  path is taken as the identity.
- `json.load` and `json.dumps(indent=4)`: the model takes the parsed value as an
  input and keeps the seed as a record (`SeedDocument`), not as text.
- A seed write that fails part-way is taken to leave nothing on disk. In the
  source, `os.makedirs` may already have created `.keras`, and
  `open(path, 'w')` creates or truncates `keras.json` before the write. A
  failed write can therefore leave an empty `keras.json`, which the next
  import reads as unparsable, so it never writes a seed again. The model
  does not carry disk state from one import to the next.
- Paths follow POSIX (`posixpath.join`): Windows path rules (`ntpath`, drive
  letters, backslashes) are not modelled.
- Concurrent imports and any other change to the file system while the import
  runs: each `Host` answer is fixed for the whole run. In the source, another
  process may create `.keras` between the `os.path.exists` test and
  `os.makedirs`; the `FileExistsError` is then swallowed and the seed write
  succeeds. The model has no such interleaving.
- Floating-point meaning of `epsilon`: only its type is checked, so a float is an
  abstract real and NaN or infinities are not distinguished.
- The diagnostics written to stderr, and the explanatory docstring.
- Assertions are modelled as always active; running Python with `-O` would
  disable them.
- Package.BackendPackage.Import: requires that nothing is bound yet, because
  the module body runs once per process.
