# Runner of the nearest-template classifier, modelled in Dafny

This project models the `Runner` class of `process.py`. The runner loads one
trained comparator ("weight set") at a time. It holds a library of labelled
templates and classifies incoming frames against them. A caller can raise a
capture flag so that the next single frame is written out as a new template.

The model has these parts:

- `Runners.Runner` (runner.dfy) is a class whose fields are the Python
  object's fields: `running`, `index`, `size`, `numLayers`, `sessionName`,
  the formatter width, `templateIndex`, `templates`, `templateLabels` and
  `collectTemplateFlag`. It also holds copies of the module-level
  catalogues `weight_sets` and `template_paths`; they are shared between
  runners in Python (see "## Left out").
  - `sessionLog` records each compute session opened and released. `Valid()`
    says that opens and releases alternate, that a session is open exactly
    while `running` holds, and that the open session is the one loaded for
    `sessionName`, the name the comparator is called with.
  - `writes` records each template written to storage.
- `Matching` (matching.dfy) is the pure result derivation. Classes and flips
  are the label rows at the comparator's best indices. Scores are
  `raw[:, c].flatten()`.
- `Archive` (archive.dfy) is the weight path computed at line 136 of
  `archive_selected`.
- `Python` (python.dfy) gives Python's list and NumPy index resolution,
  including negative indices, plus `str.split("/")` and `"/".join`.
- `Types` (types.dfy) holds the entities, and `Wrappers` holds `Option`.

The comparator, the formatter and the template-directory reader are
parameters of function type. A call that raises `IndexError` returns
`Outcome.IndexError`. Field updates made before the raise are kept.

The model keeps these sharp edges of the code as they are:

- `setup` overwrites `self.index` before its bounds check. A rejected index
  therefore still changes `index`, and so changes what `archive_selected`
  would read.
- The session is a single boolean `running`. There are no Loading or Closing
  states.
- A capture writes the frame to template storage only. The in-memory
  `templates` and `template_labels` are not appended to.
- For N inputs the batch path returns N·N scores (`raw[:, c].flatten()`), not
  one score per input. Each input's own best-match score sits on the
  diagonal, at position k·N + k (`Matching.BatchScoresSquare`).
- `change_template` rejects only an index greater than the catalogue length.
  An index equal to the length passes the check, is recorded, and then raises
  `IndexError`.
- Negative indices are not rejected. Python resolves them from the back of
  the list, and one before the front raises `IndexError`.

## Model

| member | source | states |
|---|---|---|
| `Python.Split` | process.py:136 | `split("/")` always yields at least one part, and no part contains the separator |
| `Python.JoinSplit` | process.py:136 | joining the parts of `split("/")` with `/` gives back the original string |
| `Python.SplitSingle` | process.py:136 | a string splits into exactly one part if and only if it has no `/` |
| `Python.JoinSnoc` | process.py:136 | joining a non-empty list with one more part appends `/` and that part |
| `Archive.WeightPathDropsLastSegment` | process.py:136 | with no `/` the weight path is empty; otherwise the session name is the weight path, then `/`, then a last segment that has no `/` |
| `Archive.WeightPathIsPrefix` | process.py:136 | the weight path is a prefix of the session name |
| `Matching.ResolveAll` | process.py:94-96 | the best indices resolve if and only if each lies in [-n, n); each resolved position is below n and is the one Python selects |
| `Matching.Classify` | process.py:93-96 | the result exists if and only if every best index is in range for both the label rows and the score columns; then there is one class and one flip per best index, and class k and flip k are the label row that best index k selects |
| `Matching.FlattenLength` | process.py:94 | `raw[:, idx].flatten()` has rows·\|idx\| values |
| `Matching.FlattenAt` | process.py:94 | position r·\|idx\|+j of the flattened selection is `raw[r][idx[j]]` |
| `Matching.ScoreCount` | process.py:94 | a classification carries rows(raw)·\|c\| scores |
| `Matching.ScoreAt` | process.py:94 | score r·\|c\|+j is row r of the score matrix at the column best index j selects (row-major) |
| `Matching.BatchScoresSquare` | process.py:89-96 | for N inputs with N score rows there are N·N scores, and input k's own best-match score is at k·N+k |
| `Matching.SingleScore` | process.py:98-104 | a single input with a single best index yields exactly its own best-match score |
| `Runners.FormatBatch` | process.py:90-92 | the batch buffer holds one formatted row per frame: row k is the formatter applied to frame k |
| `Runners.Runner.constructor` | process.py:45-49 | construction selects weight set 0 and template set 0, leaves one open session and no pending capture |
| `Runners.Runner.CloseDown` | process.py:116-120 | afterwards no session runs; a release is logged only if one was running, so a second call is a no-op |
| `Runners.Runner.Setup` | process.py:59-83 | the index is always recorded. An index at or past the end returns false and one before the front raises, both changing nothing else. A valid index takes size, layers and session name from that descriptor, releases any open session, then opens exactly one new session and returns true |
| `Runners.Runner.ChangeTemplate` | process.py:51-57 | returns false only when the index exceeds the catalogue length. Otherwise the index is recorded; an index equal to the length, or before the front, raises with the templates unchanged; a valid one loads that template set with the current formatter |
| `Runners.Runner.RaiseTemplateFlag` | process.py:112-114 | the flag becomes the given label, overwriting any earlier one |
| `Runners.Runner.Process` | process.py:85-110 | when not running: returns None and changes nothing. A list is formatted row by row and classified, leaving the flag and the writes alone. A single frame is classified; with a flag of 0 or more, exactly one write with that label goes to the current template directory and the flag resets to -1. An `IndexError` leaves the flag and the writes unchanged |
| `Runners.Runner.GetWeightSets` | process.py:122-124 | the weight-set catalogue becomes the fresh discovery; the current index is reported as it stands |
| `Runners.Runner.GetTemplateSets` | process.py:126-128 | the template catalogue becomes the fresh discovery; the current template index is reported as it stands |
| `Runners.Runner.ArchiveWeightPath` | process.py:136 | the weight path exists if and only if `index` selects a descriptor. It is then that descriptor's session name without its last `/` segment: empty when there is no `/`, otherwise the prefix before the last `/` |
| `Runners.CloseDownTwice` | process.py:116-120 | two consecutive close-downs release at most once |
| `Runners.CaptureOnce` | process.py:99-114 | after two raises the last label wins; a served single-frame call writes exactly one template with that frame and label and clears the flag; a further single-frame call writes nothing; nothing happens while not running |
| `Runners.SwitchWeightSet` | process.py:59-83 | switching weight sets while running logs a release and then one open, so two sessions are never open at once |

## Left out

- TensorFlow session creation, graph reset and `Comparator` construction and
  loading (process.py:73-82, 118-119). They are a foreign ML runtime, so the
  model records only the open and release events.
- Runners.Runner.Setup: does not model a failure in `load_session` (missing
  weight files), which in Python raises after `running` is already true.
- The comparator's inference, the formatter's feature extraction,
  `read_template_directory` and `write_to_template_directory` are external
  code. They appear as function parameters and as recorded write events.
- The `np.reshape` to rows of 2·width values is not modelled. Formatted
  frames and templates are taken to be rows of that shape already, and
  shape-mismatch errors are not modelled.
- Score values are float32 outputs of the comparator. They are kept as
  opaque bit patterns.
- The random file identifier of a template write, every `print`, and the
  `__main__` block are left out. `random.randint(0, 100000)` (process.py:107)
  can give two captures the same identifier, so a later capture can
  overwrite an earlier template file. `writes` records write calls, not the
  files that end up in storage.
- The comparator is assumed to depend only on the session name. In Python it
  is also built from `size[0]`, `size[1]` and `num_layers` (process.py:75).
- `discover_weight_set` and `discover_template_set` (process.py:14-40) list
  directories and read JSON. The discovered catalogues are parameters of the
  constructor, `GetWeightSets` and `GetTemplateSets`. A descriptor lacking
  `size`, `num_layers` or `session_name` would raise `KeyError` in Python;
  descriptors here always have these fields, and the size is non-negative.
- The directory copying and tar.gz creation in `archive_selected`
  (process.py:131-141) are filesystem I/O. Only the weight path of line 136
  is modelled.
- Runners.Runner.constructor: requires both catalogues to be non-empty.
  Without a weight set or template set, Python's `__init__` raises and no
  runner exists.
- Runners.Runner.RaiseTemplateFlag: the label is an integer already, so the
  `ValueError` that `int(label)` can raise is not modelled.
- Runners.Runner.Process: the template write always succeeds. In Python, if
  `write_to_template_directory` raises (process.py:107), line 108 never runs,
  so the flag stays armed and the next single frame tries the capture again.
- Runners.Runner.ChangeTemplate: the template reader always succeeds. In
  Python, if `read_template_directory` raises (process.py:55),
  `template_index` already holds the new index while `templates` and
  `template_labels` still hold the old set, so later captures go to a
  directory other than the loaded one.
- `weight_sets` and `template_paths` are module globals (process.py:11, 29)
  that every `Runner` shares, and `get_weight_sets` / `get_template_sets`
  refresh them for all runners at once. The model holds them as fields of a
  single runner. One runner is assumed, and a refresh by one runner changing
  what another indexes is not modelled. `get_weight_sets` and
  `get_template_sets` return the module list itself (process.py:124, 128),
  and a later discovery clears and refills that list in place (process.py:15,
  33), so a list a caller received earlier changes too. The model returns a
  copy, so this aliasing is not captured.
- Concurrent use of one runner is not modelled. Calls are sequential.
