/** Export of a LoRA adapter model to the layout served by vLLM
    (`LVMMExporter.export_peft`).

    The operation reads two collaborators (a model handle and a tokenizer
    handle), checks three capabilities, fills in the base-model identifier and
    the architecture name when they are not given, and then changes the
    outside world step by step: it prints notices, creates the output
    directory when it is missing, saves the adapter, the tokenizer and a
    two-field manifest, and prints the command that launches the server.

    The outside world is a filesystem, a map from paths to abstract entries,
    together with a journal of every side effect in the order it happened;
    the console is the journal's printed lines. */
module Exporter {

  type Path = string

  datatype Option<T> = None | Some(value: T)

  /** The class names met when iterating a model's module tree in its natural
      order. The iteration always yields at least the model itself. */
  type ClassNames = s: seq<string> | |s| > 0 witness ["Module"]

  /** The adapter model handle: the two capability markers that are checked
      (a generic pretrained-model handle, an adaptation-bearing model), the
      recorded origin identifier, and the class names of its inner model's
      sub-modules. */
  datatype Model = Model(
    isAutoModel: bool,
    isPeftModel: bool,
    nameOrPath: string,
    moduleClassNames: ClassNames)

  /** The tokenizer handle: its capability marker and an identifier. The
      export never reads the identifier; it stands for the tokenizer's own
      state, so that the blob save_pretrained leaves at the tokenizer path
      records which tokenizer was saved. */
  datatype Tokenizer = Tokenizer(isAutoTokenizer: bool, nameOrPath: string)

  /** What a path holds. What save_pretrained writes is opaque here: a blob
      only records whose state it holds. */
  datatype Entry =
    | Dir
    | AdapterBlob(model: Model)
    | TokenizerBlob(tokenizer: Tokenizer)
    | Manifest(baseModel: string, architectureName: string)

  /** One observable side effect. */
  datatype Effect =
    | Printed(line: string)
    | MadeDirs(path: Path)
    | Saved(path: Path, entry: Entry)

  datatype ExportError = ValueError(message: string)

  datatype Status = Done | Raised(error: ExportError)

  /** Everything the export can observe or change. */
  datatype Host = Host(files: map<Path, Entry>, journal: seq<Effect>)

  /** The arguments of one export; an absent override is `None`. */
  datatype Request = Request(
    outputDir: Path,
    model: Model,
    tokenizer: Tokenizer,
    baseModel: Option<string>,
    architectureName: Option<string>)

  datatype Outcome = Outcome(status: Status, host: Host)

  const NotAutoModel := ValueError("Model must be an AutoModel")
  const NotPeftModel := ValueError("Model must be a PeftModel")
  const NotAutoTokenizer := ValueError("Tokenizer must be an AutoTokenizer")

  const AdapterDir := "lora_adapter"
  const TokenizerDir := "tokenizer"
  const ConfigFile := "vllm_config.json"

  const BasePrefix := "Using base model : "
  const ArchPrefix := "Using architecture : "
  const DirPrefix := "Creating output directory : "
  const ServePrefix := "vllm serve "
  const LoraFlags := " --enable-lora --lora-modules custom-lora="

  /** Python's `not s` for an optional string: None and "" are both falsy. */
  predicate Falsy(s: Option<string>) {
    s.None? || s.value == ""
  }

  /** `os.path.join(dir, name)` for a name without separators. */
  function Join(dir: Path, name: string): Path {
    dir + "/" + name
  }

  /** The three capability checks, in the order they run; the first one
      that fails decides the error. */
  function Validate(model: Model, tokenizer: Tokenizer): (r: Option<ExportError>)
    ensures r.None? <==> model.isAutoModel && model.isPeftModel && tokenizer.isAutoTokenizer
  {
    if !model.isAutoModel then Some(NotAutoModel)
    else if !model.isPeftModel then Some(NotPeftModel)
    else if !tokenizer.isAutoTokenizer then Some(NotAutoTokenizer)
    else None
  }

  /** The base model the manifest and the command name. */
  function ResolveBase(baseModel: Option<string>, model: Model): string {
    if Falsy(baseModel) then model.nameOrPath else baseModel.value
  }

  /** The architecture name the manifest records: the class name of the
      first sub-module unless an override is given. */
  function ResolveArch(architectureName: Option<string>, model: Model): string {
    if Falsy(architectureName) then model.moduleClassNames[0] else architectureName.value
  }

  /** The launch command, with no quoting or escaping. */
  function RunCommand(baseModel: string, outputDir: Path): string {
    ServePrefix + baseModel + LoraFlags + outputDir
  }

  /** The notices for the defaults that were filled in. */
  function Notices(model: Model, baseModel: Option<string>, architectureName: Option<string>): seq<Effect> {
    (if Falsy(baseModel) then [Printed(BasePrefix + model.nameOrPath)] else [])
    + (if Falsy(architectureName) then [Printed(ArchPrefix + model.moduleClassNames[0])] else [])
  }

  /** The notice and the creation of the output directory, when it is
      missing. */
  function DirectoryEffects(files: map<Path, Entry>, outputDir: Path): seq<Effect> {
    if outputDir in files then [] else [Printed(DirPrefix + outputDir), MadeDirs(outputDir)]
  }

  /** The effects before the three writes. */
  function Preamble(files: map<Path, Entry>, r: Request): seq<Effect> {
    Notices(r.model, r.baseModel, r.architectureName) + DirectoryEffects(files, r.outputDir)
  }

  /** The three writes and the final command. */
  function Finale(r: Request): seq<Effect> {
    var base := ResolveBase(r.baseModel, r.model);
    var arch := ResolveArch(r.architectureName, r.model);
    [ Saved(Join(r.outputDir, AdapterDir), AdapterBlob(r.model)),
      Saved(Join(r.outputDir, TokenizerDir), TokenizerBlob(r.tokenizer)),
      Saved(Join(r.outputDir, ConfigFile), Manifest(base, arch)),
      Printed(RunCommand(base, r.outputDir)) ]
  }

  /** Every effect of an export that passes validation, in order. */
  function Effects(files: map<Path, Entry>, r: Request): seq<Effect> {
    Preamble(files, r) + Finale(r)
  }

  /** What one effect does to the filesystem. A save and the manifest write
      replace whatever the path held. */
  function Apply(files: map<Path, Entry>, e: Effect): map<Path, Entry> {
    match e
    case Printed(_) => files
    case MadeDirs(p) => files[p := Dir]
    case Saved(p, x) => files[p := x]
  }

  /** The filesystem after the effects, applied in order. */
  function Replay(files: map<Path, Entry>, effects: seq<Effect>): map<Path, Entry>
    decreases |effects|
  {
    if effects == [] then files else Replay(Apply(files, effects[0]), effects[1..])
  }

  /** The console: the printed lines of a journal, in order. */
  function Console(journal: seq<Effect>): seq<string>
    decreases |journal|
  {
    if journal == [] then []
    else (if journal[0].Printed? then [journal[0].line] else []) + Console(journal[1..])
  }

  /** One call of `export_peft`: the validation gate, and on success every
      effect applied to the filesystem and appended to the journal. */
  function Export(h: Host, r: Request): Outcome {
    match Validate(r.model, r.tokenizer)
    case Some(e) => Outcome(Raised(e), h)
    case None =>
      var effects := Effects(h.files, r);
      Outcome(Done, Host(Replay(h.files, effects), h.journal + effects))
  }

  /** Replaying two journals one after the other is replaying their
      concatenation. */
  lemma {:induction false} ReplayAppend(files: map<Path, Entry>, a: seq<Effect>, b: seq<Effect>)
    ensures Replay(files, a + b) == Replay(Replay(files, a), b)
    decreases |a|
  {
    if a != [] {
      assert (a + b)[1..] == a[1..] + b;
      ReplayAppend(Apply(files, a[0]), a[1..], b);
    } else {
      assert a + b == b;
    }
  }

  /** Printing changes no file. */
  lemma {:induction false} ReplayPrints(files: map<Path, Entry>, s: seq<Effect>)
    requires forall i :: 0 <= i < |s| ==> s[i].Printed?
    ensures Replay(files, s) == files
    decreases |s|
  {
    if s != [] {
      ReplayPrints(files, s[1..]);
    }
  }

  /** The filesystem once the output directory has been ensured: unchanged
      when its path has an entry, otherwise with a new directory there. */
  function Prepared(files: map<Path, Entry>, outputDir: Path): map<Path, Entry> {
    if outputDir in files then files else files[outputDir := Dir]
  }

  /** The notices and the directory step leave the filesystem as
      `Prepared` says. */
  lemma ReplayPreamble(files: map<Path, Entry>, r: Request)
    ensures Replay(files, Preamble(files, r)) == Prepared(files, r.outputDir)
  {
    var notices := Notices(r.model, r.baseModel, r.architectureName);
    var mkdir := DirectoryEffects(files, r.outputDir);
    ReplayAppend(files, notices, mkdir);
    ReplayPrints(files, notices);
    if r.outputDir !in files {
      assert mkdir[1..] == [MadeDirs(r.outputDir)];
      assert Replay(files, mkdir) == Replay(files, mkdir[1..]);
      assert Replay(files, mkdir[1..]) == Replay(files[r.outputDir := Dir], []);
    }
  }

  /** The three writes land at their paths; the final print changes no
      file. */
  lemma ReplayFinale(files: map<Path, Entry>, r: Request)
    ensures Replay(Prepared(files, r.outputDir), Finale(r)) == Layout(files, r)
  {
    var f, g := Finale(r), Prepared(files, r.outputDir);
    var f1, f2, f3 := Apply(g, f[0]), Apply(Apply(g, f[0]), f[1]),
                      Apply(Apply(Apply(g, f[0]), f[1]), f[2]);
    assert f[1..][1..][1..][1..] == [];
    calc {
      Replay(g, f);
      Replay(f1, f[1..]);
      { assert f[1..][0] == f[1]; }
      Replay(f2, f[1..][1..]);
      { assert f[1..][1..][0] == f[2]; }
      Replay(f3, f[1..][1..][1..]);
      { assert f[1..][1..][1..][0] == f[3]; }
      Replay(f3, []);
    }
  }

  /** The filesystem after an export that passes validation. */
  function Layout(files: map<Path, Entry>, r: Request): map<Path, Entry> {
    Prepared(files, r.outputDir)
      [Join(r.outputDir, AdapterDir) := AdapterBlob(r.model)]
      [Join(r.outputDir, TokenizerDir) := TokenizerBlob(r.tokenizer)]
      [Join(r.outputDir, ConfigFile) := Manifest(ResolveBase(r.baseModel, r.model),
                                                  ResolveArch(r.architectureName, r.model))]
  }

  /** A successful export in closed form: its filesystem is `Layout` and its
      journal gains exactly `Effects`. */
  lemma ExportSucceeds(h: Host, r: Request)
    requires Validate(r.model, r.tokenizer) == None
    ensures Export(h, r) == Outcome(Done, Host(Layout(h.files, r), h.journal + Effects(h.files, r)))
  {
    ReplayAppend(h.files, Preamble(h.files, r), Finale(r));
    ReplayPreamble(h.files, r);
    ReplayFinale(h.files, r);
  }

  /** The journal the export's phases build one after another (notices,
      directory, writes, command) is the old journal followed by `Effects`. */
  lemma PhasedJournal(journal: seq<Effect>, files: map<Path, Entry>, r: Request)
    ensures journal + Notices(r.model, r.baseModel, r.architectureName) + DirectoryEffects(files, r.outputDir)
              + Finale(r)[..3] + [Finale(r)[3]]
         == journal + Effects(files, r)
  {
    var notices, dirs, writes := Notices(r.model, r.baseModel, r.architectureName),
                                 DirectoryEffects(files, r.outputDir), Finale(r)[..3];
    assert writes + [Finale(r)[3]] == Finale(r);
    assert journal + notices + dirs + writes + [Finale(r)[3]]
        == journal + ((notices + dirs) + (writes + [Finale(r)[3]]));
  }

  /** The process the export runs in: its filesystem and its journal of
      effects. */
  class Environment {
    var files: map<Path, Entry>
    var journal: seq<Effect>

    constructor (files0: map<Path, Entry>)
      ensures files == files0 && journal == []
    {
      files := files0;
      journal := [];
    }

    function State(): Host
      reads this
    {
      Host(files, journal)
    }

    /** `os.path.exists`. */
    method PathExists(p: Path) returns (b: bool)
      ensures b <==> p in files
    {
      b := p in files;
    }

    /** `print`. */
    method Print(line: string)
      modifies this
      ensures files == old(files) && journal == old(journal) + [Printed(line)]
    {
      journal := journal + [Printed(line)];
    }

    /** `os.makedirs`. */
    method MakeDirs(p: Path)
      modifies this
      ensures files == old(files)[p := Dir] && journal == old(journal) + [MadeDirs(p)]
    {
      files := files[p := Dir];
      journal := journal + [MadeDirs(p)];
    }

    /** `save_pretrained`, or `open(p, 'w')` followed by `json.dump`: the
        path holds the new entry, whatever it held before. */
    method Save(p: Path, x: Entry)
      modifies this
      ensures files == old(files)[p := x] && journal == old(journal) + [Saved(p, x)]
    {
      files := files[p := x];
      journal := journal + [Saved(p, x)];
    }

    /** Creates the output directory, with a notice, only when no entry
        exists at its path. */
    method EnsureDirectory(outputDir: Path)
      modifies this
      ensures files == Prepared(old(files), outputDir)
      ensures journal == old(journal) + DirectoryEffects(old(files), outputDir)
    {
      var present := PathExists(outputDir);
      if !present {
        Print(DirPrefix + outputDir);
        MakeDirs(outputDir);
      }
    }

    /** The defaulting step: an override that is None or "" is replaced,
        with a notice, by the model's identifier or by the class name of its
        first sub-module. */
    method ResolveDefaults(model: Model, baseModel: Option<string>, architectureName: Option<string>)
      returns (base: string, arch: string)
      modifies this
      ensures base == ResolveBase(baseModel, model) && arch == ResolveArch(architectureName, model)
      ensures files == old(files)
      ensures journal == old(journal) + Notices(model, baseModel, architectureName)
    {
      base := if baseModel.Some? then baseModel.value else "";
      if base == "" {
        base := model.nameOrPath;
        Print(BasePrefix + base);
      }
      arch := if architectureName.Some? then architectureName.value else "";
      if arch == "" {
        arch := model.moduleClassNames[0];
        Print(ArchPrefix + arch);
      }
    }

    /** The adapter, the tokenizer and the manifest, each saved at its fixed
        path under the output directory. */
    method WriteArtifacts(outputDir: Path, model: Model, tokenizer: Tokenizer, base: string, arch: string)
      modifies this
      ensures files == old(files)[Join(outputDir, AdapterDir) := AdapterBlob(model)]
                                 [Join(outputDir, TokenizerDir) := TokenizerBlob(tokenizer)]
                                 [Join(outputDir, ConfigFile) := Manifest(base, arch)]
      ensures journal == old(journal) + [ Saved(Join(outputDir, AdapterDir), AdapterBlob(model)),
                                          Saved(Join(outputDir, TokenizerDir), TokenizerBlob(tokenizer)),
                                          Saved(Join(outputDir, ConfigFile), Manifest(base, arch)) ]
    {
      var saveModelPath := Join(outputDir, AdapterDir);
      Save(saveModelPath, AdapterBlob(model));
      var saveTokenizerPath := Join(outputDir, TokenizerDir);
      Save(saveTokenizerPath, TokenizerBlob(tokenizer));
      var configPath := Join(outputDir, ConfigFile);
      Save(configPath, Manifest(base, arch));
    }

    /** `LVMMExporter.export_peft`. */
    method ExportPeft(outputDir: Path, model: Model, tokenizer: Tokenizer,
                      baseModel: Option<string>, architectureName: Option<string>)
      returns (status: Status)
      modifies this
      ensures Outcome(status, State())
           == Export(old(State()), Request(outputDir, model, tokenizer, baseModel, architectureName))
      ensures status.Raised? ==> files == old(files) && journal == old(journal)
    {
      if !model.isAutoModel {
        return Raised(NotAutoModel);
      }
      if !model.isPeftModel {
        return Raised(NotPeftModel);
      }
      if !tokenizer.isAutoTokenizer {
        return Raised(NotAutoTokenizer);
      }
      ghost var r := Request(outputDir, model, tokenizer, baseModel, architectureName);
      ghost var files0, journal0 := files, journal;

      var base, arch := ResolveDefaults(model, baseModel, architectureName);
      EnsureDirectory(outputDir);
      WriteArtifacts(outputDir, model, tokenizer, base, arch);
      var runCommand := RunCommand(base, outputDir);
      Print(runCommand);
      status := Done;

      PhasedJournal(journal0, files0, r);
      ExportSucceeds(old(State()), r);
    }
  }
}
