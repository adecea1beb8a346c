# LoRA adapter export to vLLM, modelled in Dafny

This project models `LVMMExporter.export_peft` from `unsloth/exporter.py`. The
function takes a LoRA (PEFT) model handle, a tokenizer handle, an output
directory and two optional overrides. It runs three capability checks in a
fixed order. It then fills in the base model and the architecture name when
their overrides are falsy. It creates the output directory if it is missing,
saves the adapter to `<out>/lora_adapter` and the tokenizer to
`<out>/tokenizer`, and writes a two-field manifest to `<out>/vllm_config.json`.
Last, it prints the unescaped `vllm serve` command.

Layout:

- `exporter.dfy`, module `Exporter`. It holds the collaborators as records:
  `Model` has two capability flags, `nameOrPath` and the sub-module class
  names, which can never be empty. `Tokenizer` has a capability flag and an
  identifier. The export never reads the identifier; it only tells saved
  tokenizers apart. Filesystem entries are `Dir`, `AdapterBlob`, `TokenizerBlob` and
  `Manifest(baseModel, architectureName)`. Side effects are `Printed`,
  `MadeDirs` and `Saved`.
  - The pure specification is `Export`. It runs the validation gate. On
    success it builds the list of effects in source order (`Effects`, which is
    `Preamble` followed by `Finale`), applies them to the filesystem map
    (`Replay`) and appends them to the journal. The console is the journal's
    printed lines (`Console`).
  - The class `Environment` holds the filesystem map and the journal. Its
    methods `PathExists`, `Print`, `MakeDirs` and `Save` model `os.path.exists`,
    `print`, `os.makedirs` and the two saves (`save_pretrained` and
    `open(..., 'w')` + `json.dump`). `ExportPeft` runs the source's steps in
    the source's order, through three phase methods: `ResolveDefaults`,
    `EnsureDirectory` and `WriteArtifacts`. Its postcondition equates the
    outcome and new state with `Export` of the old state.
- `exporter_properties.dfy`, module `ExporterProperties`: lemmas for each
  promise of the operation, stated over `Export`.

Three facts about the source shape the model:

- A failed check raises `ValueError`, with the messages at
  unsloth/exporter.py:35, 38 and 41. The model's only error is `ValueError`
  with those exact messages.
- `if not base_model` and `if not architecture_name` (unsloth/exporter.py:44
  and 49) replace an empty string as well as `None`. Both are falsy in the
  model.
- All three checks run before any print, `makedirs` or write
  (unsloth/exporter.py:34-56), so each failed check leaves the filesystem and
  the console untouched.

## Model

| member | source | states |
|---|---|---|
| `Exporter.Validate` | unsloth/exporter.py:34-41 | Validation passes exactly when the model is an AutoModel, is a PeftModel and the tokenizer is an AutoTokenizer |
| `Exporter.ExportSucceeds` | unsloth/exporter.py:44-77 | When validation passes, the export finishes with `Done`. The filesystem is the old one, plus the output directory if it was missing, with the adapter, tokenizer and manifest paths overwritten. The journal gains exactly the effects of the export, in source order |
| `Exporter.ReplayPreamble` | unsloth/exporter.py:44-56 | The steps before the writes change the filesystem only by adding the output directory as a `Dir`, and only when no entry existed at that path |
| `Exporter.ReplayFinale` | unsloth/exporter.py:58-77 | The two saves, the manifest write and the final print overwrite exactly the three target paths |
| `Exporter.Environment.PathExists` | unsloth/exporter.py:54 | `os.path.exists` holds exactly when the path has an entry |
| `Exporter.Environment.Print` | unsloth/exporter.py:77 | A print appends one line to the journal and leaves the filesystem alone |
| `Exporter.Environment.MakeDirs` | unsloth/exporter.py:56 | `os.makedirs` makes the path a directory and records the effect |
| `Exporter.Environment.Save` | unsloth/exporter.py:58-70 | A save or a `'w'` write replaces whatever the path held and records the effect |
| `Exporter.Environment.ResolveDefaults` | unsloth/exporter.py:44-51 | The base model and architecture returned are the override when it is truthy, else `model.name_or_path` and the first sub-module's class name. Exactly one notice is printed per defaulted value, and the filesystem is unchanged |
| `Exporter.Environment.EnsureDirectory` | unsloth/exporter.py:54-56 | The directory is created, after its notice, only when nothing exists at its path. Otherwise nothing happens |
| `Exporter.Environment.WriteArtifacts` | unsloth/exporter.py:58-70 | The adapter, the tokenizer and the `{base_model, architecture_name}` manifest are saved to their three paths under the output directory, in that order, and nothing else changes |
| `Exporter.Environment.ExportPeft` | unsloth/exporter.py:22-77 | The status and new state equal `Export` of the old state. A raised error leaves the filesystem and journal unchanged |
| `ExporterProperties.CheckOrder` | unsloth/exporter.py:34-41 | The first failing check decides the exact message: AutoModel, then PeftModel, then AutoTokenizer. The export succeeds exactly when all three hold |
| `ExporterProperties.FailedValidationHasNoEffect` | unsloth/exporter.py:34-56 | When any check fails the status is `Raised`, and the filesystem and journal are exactly the old ones, so nothing is printed, created or written |
| `ExporterProperties.NewLinesInOrder` | unsloth/exporter.py:44-77 | A successful export prints, in order: the base-model notice if defaulted, the architecture notice if defaulted, the directory notice if it was missing, and then the command |
| `ExporterProperties.ConsoleGrowth` | unsloth/exporter.py:34-77 | The console only grows. A success appends its new lines and a failure appends nothing |
| `ExporterProperties.BaseModelDefault` | unsloth/exporter.py:44-46 | The manifest's base model is `model.name_or_path` when the override is falsy, and the first new line announces it. Otherwise the manifest holds the override unchanged and no line starts with the base-model notice |
| `ExporterProperties.ArchitectureDefault` | unsloth/exporter.py:49-51 | The manifest's architecture is the first sub-module's class name when the override is falsy, and it is announced. Otherwise the manifest holds the override and no line starts with the architecture notice |
| `ExporterProperties.EmptyOverrideIsAbsent` | unsloth/exporter.py:44-51 | An override of `""` gives the same outcome as no override, for both the base model and the architecture |
| `ExporterProperties.DirectoryCreation` | unsloth/exporter.py:54-56 | The directory is created exactly when it was missing, and then it is a `Dir` and its notice is printed. If it existed, its entry is unchanged and no line starts with the directory notice |
| `ExporterProperties.FinalLayout` | unsloth/exporter.py:58-70 | The adapter, tokenizer and `{base_model, architecture_name}` manifest sit at `out/lora_adapter`, `out/tokenizer` and `out/vllm_config.json`. The key set grows by only the directory and those three paths, and every other entry keeps its value |
| `ExporterProperties.ExportIdempotent` | unsloth/exporter.py:54-70 | Exporting twice with the same arguments gives the same status and the same filesystem as exporting once, manifest included. The second run does not create the directory |
| `ExporterProperties.RepeatedExport` | unsloth/exporter.py:54-70 | Any number n ≥ 1 of identical exports leaves the filesystem the first export left |
| `ExporterProperties.ExportSameFiles` | unsloth/exporter.py:34-70 | The status and resulting filesystem depend on the old filesystem, not on what was printed before |
| `ExporterProperties.CommandIsLast` | unsloth/exporter.py:72-77 | The last effect of a successful export, after every write, is printing the command, and the command is the console's last line |
| `ExporterProperties.CommandParts` | unsloth/exporter.py:72-76 | The command is `vllm serve `, then the base model verbatim, then ` --enable-lora --lora-modules custom-lora=`, then the output directory verbatim |
| `ExporterProperties.CommandDeterminesEachPart` | unsloth/exporter.py:72-76 | With the output directory fixed the command determines the base model, and with the base model fixed it determines the output directory |
| `ExporterProperties.CommandIsNotEscaped` | unsloth/exporter.py:72-76 | Nothing is quoted, so a base model that contains the LoRA flags prints the same command as a request whose base model and output directory both differ from it |
| `ExporterProperties.ExampleLayout` | unsloth/exporter.py:44-70 | Exporting "meta/base-7b" with first sub-module "LlamaDecoderLayer" to a missing "/tmp/out" succeeds. It creates the directory and writes `Manifest("meta/base-7b", "LlamaDecoderLayer")` to "/tmp/out/vllm_config.json" |
| `ExporterProperties.ExampleConsole` | unsloth/exporter.py:44-77 | That export prints the two defaulting notices, the directory notice and `vllm serve meta/base-7b --enable-lora --lora-modules custom-lora=/tmp/out`, in that order |
| `ExporterProperties.ExamplePath` | unsloth/exporter.py:65 | The manifest path under "/tmp/out" is "/tmp/out/vllm_config.json" |
| `ExporterProperties.ExampleLines` | unsloth/exporter.py:46-55 | The three notice texts for that example, character for character |
| `ExporterProperties.ExampleCommand` | unsloth/exporter.py:72-76 | The command text for that example is `vllm serve meta/base-7b --enable-lora --lora-modules custom-lora=/tmp/out`, character for character |

## Left out

- The `isinstance` checks against `AutoModel`, `PeftModel` and `AutoTokenizer` are modelled as boolean flags on the records. Whether real library objects would pass these checks is not modelled.
- `model.model.modules()` is modelled as a non-empty sequence of class names, and the first one is taken. How PyTorch walks its module tree is not modelled.
- The formats written by `save_pretrained` and the bytes of `json.dump` are not modelled. Each save is one opaque entry at its path. The manifest is a two-field record.
- `save_pretrained` writes files inside a directory. The model replaces the whole path with one blob, so stale files left in an existing `lora_adapter/` or `tokenizer/` are not modelled.
- Path semantics are not modelled: `os.path.join` is `out + "/" + name`, and `os.makedirs` is one map insert. Intermediate directories, trailing separators and absolute second components are left out.
- I/O failures are not modelled. That covers permission errors, a full disk, and an output path that exists as a regular file (`os.path.exists` is then true and the later saves would fail). It also covers an empty `output_dir`: the source prints the directory notice and then `os.makedirs("")` raises `FileNotFoundError`, while the model records a `MadeDirs("")`, writes to `/lora_adapter`, `/tokenizer` and `/vllm_config.json`, and finishes with `Done`. A failure partway through would leave earlier writes in place, and no model state stands for that.
- Overrides of types other than `str` or `None` are not modelled. Python's falsiness is modelled for those two only.
- The console is the `Printed` effects of the journal. The text goes to standard output, which is not modelled.
- The unused `tempfile` import and the empty `ModelExporter` and `LVMMExporter` constructors (unsloth/exporter.py:3-19) carry no behaviour.
- Concurrent exports to the same directory are not modelled.
