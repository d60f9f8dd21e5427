# data_plumber: stage references and stage construction

This project models two sequential pieces of the `data_plumber` Python
package and proves properties of them in Dafny 4.11.

- **Stage references** (`data_plumber/ref.py`). `Previous` and `First`
  resolve against the trace of a running pipeline. The trace is the list of
  stage records in the execution context. `Previous` gives the newest
  record, `First` the oldest, and both give `None` when the trace is empty.
  The reference hierarchy becomes the closed datatype `Refs.StageRef`. It
  has one `Get`. Python's list indexing, with its `IndexError` caught, is
  written out as `Refs.Index`, and that includes negative indices.
- **The execution context** (`data_plumber/context.py`): the four-field
  dataclass `Contexts.PipelineContext` (records, kwargs, out, count). A
  trace entry is `Contexts.Record(message, status)`.
- **Stage construction** (`data_plumber/stage.py`). The class
  `Stages.Stage` has one field per attribute that the Python constructor
  assigns. Its constructor normalises the `requires` dictionary in a loop:
  - a string key `k` becomes `ById(k)`;
  - an integer key `k` becomes `ByIncrement(k)`;
  - a reference key is kept as it is;
  - values are never changed.

  The constructor also installs the default callbacks. The read-only
  properties are the functions `Requires`, `Primer`, `Action`, `Export`,
  `Status` and `Message`. Each returns the stored field and nothing else.
  The constructor's postconditions are stated through them.
  The loop is proved against the specification function
  `Stages.Normalized`. It stores the items one after the other into an
  empty dictionary, so the last write wins. Lemmas about `Normalized` say
  which keys exist and where each stored value comes from.

Design choices:
- The `requires` dictionary is modelled as its ordered list of items, which
  is what the loop `for k, v in requires.items()` walks.
- A requirement value is `Exact(status)` or `Pred(int -> bool)`.
- Callbacks are opaque total functions from the keyword-argument map to
  their result. `None` for a callback argument means "omitted"; the
  constructor then installs the default.
- `V` stands for Python's `Any`. Python's `None` as a callback result is
  `Wrappers.None`.

Where the code and its tests or design notes disagree, the model follows
the code:
- The tests expect `Previous.get` and `First.get` on an empty context to
  raise `PipelineError`. The code at data_plumber/ref.py:41-44 and
  data_plumber/ref.py:52-55 returns `None`, and so does `Refs.StageRef.Get`.
- The tests build `PipelineContext` with seven arguments. The dataclass at
  data_plumber/context.py:21-24 has four fields, and those are modelled.

## Model

| member | source | states |
|---|---|---|
| `Refs.Index` | data_plumber/ref.py:41-44 | Python list indexing with `IndexError` mapped to `None`: `None` exactly when the index is outside `-len .. len-1`. Otherwise it is the element at that index, counted from the end for negative indices, and so an element of the list. |
| `Refs.StageRef.Get` | data_plumber/ref.py:24-55 | `None` exactly when the trace is empty. A returned record is an element of the trace. `Previous` gives the last record of a non-empty trace and `First` gives the first. |
| `Refs.GetReadsOnlyRecords` | data_plumber/ref.py:39-55 | The result depends only on the trace. Two contexts with the same records resolve alike whatever their kwargs, output and counter. |
| `Refs.SingleRecordAgree` | data_plumber/ref.py:40-53 | With exactly one record, `Previous` and `First` both return that record. |
| `Refs.PreviousAfterAppend` | data_plumber/ref.py:40-44 | After a record is appended to the trace, `Previous` resolves to that record. |
| `Refs.FirstStableUnderAppend` | data_plumber/ref.py:51-55 | Appending a record leaves `First` unchanged on a non-empty trace. On an empty trace the new record becomes the first. |
| `Stages.NormalizedKeys` | data_plumber/stage.py:90-97 | The keys of the normalised mapping are exactly the normalised keys of the input items. No key is dropped and none is invented. |
| `Stages.NormalizedLastWins` | data_plumber/stage.py:90-97 | An input item whose normalised key no later item repeats is stored under that key with its value unchanged. |
| `Stages.NormalizedFromInput` | data_plumber/stage.py:90-97 | Every stored entry equals the value of one input item. That item is the last one whose key normalises to the stored key, so no value is invented or altered. |
| `Stages.StrKeyStored` | data_plumber/stage.py:92-93 | A string key `k` is stored as `ById(k)` with its value unchanged, unless a later item overwrites that key. |
| `Stages.IntKeyStored` | data_plumber/stage.py:94-95 | An integer key `k` is stored as `ByIncrement(k)` with its value unchanged, unless a later item overwrites that key. |
| `Stages.RefKeyStored` | data_plumber/stage.py:96-97 | A reference key is stored as it is with its value unchanged, unless a later item overwrites that key. |
| `Stages.Stage.constructor` | data_plumber/stage.py:76-106 | If `requires` is omitted, the stored requirements are `None`, not an empty map. Otherwise they are `Normalized` of the items, and their key set is the set of normalised input keys. Given callbacks are stored as passed. The defaults are: `primer` and `action` return `None`, `export` returns the empty map, `status` returns 0 and `message` returns `""`. All of this is stated through the property functions `Requires`, `Primer`, `Action`, `Export`, `Status` and `Message`, which model data_plumber/stage.py:108-138. |

## Left out

- `Refs.StageRef.Get` requires `Previous` or `First`: the `get` of `ById`, `ByIncrement` and the other reference kinds (Last, Next, Skip, StageByIndex, PreviousN, NextN) is defined in code that is not part of this model. `ById` and `ByIncrement` appear only as tags that `Stage` construction produces.
- The abstract `StageRef.get`, which raises `NotImplementedError`: the closed datatype has no abstract case.
- The pipeline run loop, requirement evaluation against the trace, `exit_on_status`, `loop`, forks, `append`/`prepend`/`insert` and `Pipearray`: their code (`pipeline.py`, `array.py`) is not part of this model.
- `data_plumber/fork.py`: `Fork.eval` only forwards to the caller's callback, and its id comes from `uuid4`.
- The `_PipelineComponent` base constructor called at data_plumber/stage.py:106: `component.py` is not part of this model.
- `Stages.Stage.constructor`: key identity differs from Python. The model compares references by value, so two input keys that normalise to equal references share one entry, and the last write wins. Python's hashing of `StageById` objects is not visible, so the model makes no claim about the number of entries.
- Python's `bool` being a subtype of `int` (a `True` key would take the integer branch): keys are a closed datatype here.
- Keys of a type other than `str`, `int` or a stage reference, which the Python `else` branch would keep as they are: only stage-reference keys are modelled.
- `Stages.Stage.constructor`: an explicit `None` passed for `primer`, `action`, `status` or `message` is read as "omitted". Python would store `None` itself. For `export`, an explicit `None` installs the default in Python too, so that case matches.
- What the callbacks do: they are opaque functions. `action` changing the shared output in place is not modelled, and the distinct keyword lists each callback receives are merged into one keyword map.
- The `pypelines/` package, `setup.py` and the `__init__.py` re-exports: they are an empty earlier stub, packaging and re-exports.
