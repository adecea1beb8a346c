/** What `export_peft` promises, proved about the model of it in module
    `Exporter`: the order of the validation checks, that a failed check
    changes nothing, the defaulting rules and their notices, when the output
    directory is created, the final layout and manifest, that a second export
    overwrites rather than accumulates, and the exact launch command. */
module ExporterProperties {

  import opened Exporter

  predicate StartsWith(s: string, prefix: string) {
    |prefix| <= |s| && s[..|prefix|] == prefix
  }

  /** The lines one export adds to the console when it passes validation. */
  function NewLines(h: Host, r: Request): seq<string> {
    Console(Effects(h.files, r))
  }

  /** The three paths an export writes. */
  function Targets(outputDir: Path): set<Path> {
    {Join(outputDir, AdapterDir), Join(outputDir, TokenizerDir), Join(outputDir, ConfigFile)}
  }

  /** `n` exports with the same arguments, one after the other. */
  function ExportTimes(h: Host, r: Request, n: nat): Host {
    if n == 0 then h else Export(ExportTimes(h, r, n - 1), r).host
  }

  // ---------------------------------------------------------------------
  // Helpers about the console and about prefixes

  lemma {:induction false} ConsoleAppend(a: seq<Effect>, b: seq<Effect>)
    ensures Console(a + b) == Console(a) + Console(b)
    decreases |a|
  {
    if a == [] {
      assert a + b == b;
    } else {
      assert (a + b)[1..] == a[1..] + b;
      ConsoleAppend(a[1..], b);
    }
  }

  lemma DifferAt(s: string, prefix: string, k: nat)
    requires k < |s| && k < |prefix| && s[k] != prefix[k]
    ensures !StartsWith(s, prefix)
  {
  }

  lemma ConsoleFinale(r: Request)
    ensures Console(Finale(r)) == [RunCommand(ResolveBase(r.baseModel, r.model), r.outputDir)]
  {
    var f := Finale(r);
    var command := RunCommand(ResolveBase(r.baseModel, r.model), r.outputDir);
    assert f[3] == Printed(command);
    assert f[1..][1..][1..] == [f[3]];
    assert Console([f[3]]) == [command] + Console([f[3]][1..]);
    assert Console(f[1..][1..]) == Console(f[1..][1..][1..]);
    assert Console(f[1..]) == Console(f[1..][1..]);
    assert Console(f) == Console(f[1..]);
  }

  lemma ConsolePreamble(files: map<Path, Entry>, r: Request)
    ensures Console(Preamble(files, r))
         == (if Falsy(r.baseModel) then [BasePrefix + r.model.nameOrPath] else [])
          + (if Falsy(r.architectureName) then [ArchPrefix + r.model.moduleClassNames[0]] else [])
          + (if r.outputDir in files then [] else [DirPrefix + r.outputDir])
  {
    var a := if Falsy(r.baseModel) then [Printed(BasePrefix + r.model.nameOrPath)] else [];
    var b := if Falsy(r.architectureName) then [Printed(ArchPrefix + r.model.moduleClassNames[0])] else [];
    var c := DirectoryEffects(files, r.outputDir);
    assert Preamble(files, r) == (a + b) + c;
    ConsoleAppend(a + b, c);
    ConsoleAppend(a, b);
    assert Console(a) == if Falsy(r.baseModel) then [BasePrefix + r.model.nameOrPath] else [];
    assert Console(b) == if Falsy(r.architectureName) then [ArchPrefix + r.model.moduleClassNames[0]] else [];
    if c != [] {
      assert c[1..] == [MadeDirs(r.outputDir)];
      assert Console(c[1..]) == Console(c[1..][1..]);
    }
    assert Console(c) == if r.outputDir in files then [] else [DirPrefix + r.outputDir];
  }

  /** The lines a successful export prints, in order. */
  lemma NewLinesInOrder(h: Host, r: Request)
    ensures NewLines(h, r)
         == (if Falsy(r.baseModel) then [BasePrefix + r.model.nameOrPath] else [])
          + (if Falsy(r.architectureName) then [ArchPrefix + r.model.moduleClassNames[0]] else [])
          + (if r.outputDir in h.files then [] else [DirPrefix + r.outputDir])
          + [RunCommand(ResolveBase(r.baseModel, r.model), r.outputDir)]
  {
    ConsoleAppend(Preamble(h.files, r), Finale(r));
    ConsolePreamble(h.files, r);
    ConsoleFinale(r);
  }

  /** The console of an export is the old console followed by the new lines;
      a failed validation prints nothing. */
  lemma ConsoleGrowth(h: Host, r: Request)
    ensures Export(h, r).status.Done? ==>
              Console(Export(h, r).host.journal) == Console(h.journal) + NewLines(h, r)
    ensures Export(h, r).status.Raised? ==> Console(Export(h, r).host.journal) == Console(h.journal)
  {
    if Export(h, r).status.Done? {
      ConsoleAppend(h.journal, Effects(h.files, r));
    }
  }

  // ---------------------------------------------------------------------
  // Validation gate

  /** The three checks run in a fixed order and the first failure decides
      the message; only when all three pass does the export go on. */
  lemma CheckOrder(h: Host, r: Request)
    ensures !r.model.isAutoModel ==>
              Export(h, r).status == Raised(ValueError("Model must be an AutoModel"))
    ensures r.model.isAutoModel && !r.model.isPeftModel ==>
              Export(h, r).status == Raised(ValueError("Model must be a PeftModel"))
    ensures r.model.isAutoModel && r.model.isPeftModel && !r.tokenizer.isAutoTokenizer ==>
              Export(h, r).status == Raised(ValueError("Tokenizer must be an AutoTokenizer"))
    ensures Export(h, r).status == Done
        <==> r.model.isAutoModel && r.model.isPeftModel && r.tokenizer.isAutoTokenizer
  {
  }

  /** A failed check happens before any print, directory creation or write:
      the filesystem and the journal are exactly as they were. */
  lemma FailedValidationHasNoEffect(h: Host, r: Request)
    requires !(r.model.isAutoModel && r.model.isPeftModel && r.tokenizer.isAutoTokenizer)
    ensures Export(h, r).status.Raised?
    ensures Export(h, r).host.files == h.files
    ensures Export(h, r).host.journal == h.journal
  {
  }

  // ---------------------------------------------------------------------
  // Defaulting

  /** The manifest's base model is the model's own identifier exactly when
      the override is absent or empty, and only then is it announced;
      otherwise the override is used unchanged and nothing is announced. */
  lemma BaseModelDefault(h: Host, r: Request)
    requires Validate(r.model, r.tokenizer) == None
    ensures Join(r.outputDir, ConfigFile) in Export(h, r).host.files
    ensures Export(h, r).host.files[Join(r.outputDir, ConfigFile)].Manifest?
    ensures Falsy(r.baseModel) ==>
              Export(h, r).host.files[Join(r.outputDir, ConfigFile)].baseModel == r.model.nameOrPath
    ensures !Falsy(r.baseModel) ==>
              Export(h, r).host.files[Join(r.outputDir, ConfigFile)].baseModel == r.baseModel.value
    ensures Falsy(r.baseModel) ==> NewLines(h, r)[0] == BasePrefix + r.model.nameOrPath
    ensures !Falsy(r.baseModel) ==> forall line :: line in NewLines(h, r) ==> !StartsWith(line, BasePrefix)
  {
    ExportSucceeds(h, r);
    NewLinesInOrder(h, r);
    if !Falsy(r.baseModel) {
      forall line | line in NewLines(h, r)
        ensures !StartsWith(line, BasePrefix)
      {
        if line == ArchPrefix + r.model.moduleClassNames[0] {
          DifferAt(line, BasePrefix, 6);
        } else if line == DirPrefix + r.outputDir {
          DifferAt(line, BasePrefix, 0);
        } else {
          DifferAt(line, BasePrefix, 0);
        }
      }
    }
  }

  /** The manifest's architecture name is the class name of the first
      sub-module exactly when the override is absent or empty, and only then
      is it announced; otherwise the override is kept. */
  lemma ArchitectureDefault(h: Host, r: Request)
    requires Validate(r.model, r.tokenizer) == None
    ensures Join(r.outputDir, ConfigFile) in Export(h, r).host.files
    ensures Export(h, r).host.files[Join(r.outputDir, ConfigFile)].Manifest?
    ensures Falsy(r.architectureName) ==>
              Export(h, r).host.files[Join(r.outputDir, ConfigFile)].architectureName
                == r.model.moduleClassNames[0]
    ensures !Falsy(r.architectureName) ==>
              Export(h, r).host.files[Join(r.outputDir, ConfigFile)].architectureName
                == r.architectureName.value
    ensures Falsy(r.architectureName) ==> ArchPrefix + r.model.moduleClassNames[0] in NewLines(h, r)
    ensures !Falsy(r.architectureName) ==>
              forall line :: line in NewLines(h, r) ==> !StartsWith(line, ArchPrefix)
  {
    ExportSucceeds(h, r);
    NewLinesInOrder(h, r);
    if !Falsy(r.architectureName) {
      forall line | line in NewLines(h, r)
        ensures !StartsWith(line, ArchPrefix)
      {
        if line == BasePrefix + r.model.nameOrPath {
          DifferAt(line, ArchPrefix, 6);
        } else {
          DifferAt(line, ArchPrefix, 0);
        }
      }
    }
  }

  /** An empty override behaves exactly as an absent one. */
  lemma EmptyOverrideIsAbsent(h: Host, r: Request)
    ensures Export(h, r.(baseModel := Some(""))) == Export(h, r.(baseModel := None))
    ensures Export(h, r.(architectureName := Some(""))) == Export(h, r.(architectureName := None))
  {
  }

  // ---------------------------------------------------------------------
  // Directory creation and layout

  /** The output directory is created, and announced, only when it was
      missing; an existing entry there is left as it was. */
  lemma DirectoryCreation(h: Host, r: Request)
    requires Validate(r.model, r.tokenizer) == None
    ensures r.outputDir in Export(h, r).host.files
    ensures MadeDirs(r.outputDir) in Effects(h.files, r) <==> r.outputDir !in h.files
    ensures r.outputDir !in h.files ==>
              Export(h, r).host.files[r.outputDir] == Dir && DirPrefix + r.outputDir in NewLines(h, r)
    ensures r.outputDir in h.files ==>
              Export(h, r).host.files[r.outputDir] == h.files[r.outputDir]
    ensures r.outputDir in h.files ==>
              forall line :: line in NewLines(h, r) ==> !StartsWith(line, DirPrefix)
  {
    ExportSucceeds(h, r);
    NewLinesInOrder(h, r);
    var out := r.outputDir;
    assert |Join(out, AdapterDir)| > |out| && |Join(out, TokenizerDir)| > |out| && |Join(out, ConfigFile)| > |out|;
    if out in h.files {
      assert Effects(h.files, r) == Preamble(h.files, r) + Finale(r);
      forall line | line in NewLines(h, r)
        ensures !StartsWith(line, DirPrefix)
      {
        DifferAt(line, DirPrefix, 0);
      }
    }
  }

  /** After a successful export the adapter, the tokenizer and the two-field
      manifest sit at their fixed paths under the output directory, and every
      other path is as it was. */
  lemma FinalLayout(h: Host, r: Request)
    requires Validate(r.model, r.tokenizer) == None
    ensures var files := Export(h, r).host.files;
      && Targets(r.outputDir) <= files.Keys
      && files[Join(r.outputDir, AdapterDir)] == AdapterBlob(r.model)
      && files[Join(r.outputDir, TokenizerDir)] == TokenizerBlob(r.tokenizer)
      && files[Join(r.outputDir, ConfigFile)]
           == Manifest(ResolveBase(r.baseModel, r.model), ResolveArch(r.architectureName, r.model))
    ensures var files := Export(h, r).host.files;
      files.Keys == h.files.Keys + {r.outputDir} + Targets(r.outputDir)
    ensures var files := Export(h, r).host.files;
      forall p :: p in h.files && p != r.outputDir && p !in Targets(r.outputDir) ==> files[p] == h.files[p]
  {
    ExportSucceeds(h, r);
    var out := r.outputDir;
    var a, t, c := Join(out, AdapterDir), Join(out, TokenizerDir), Join(out, ConfigFile);
    assert |a| == |out| + 13 && |t| == |out| + 10 && |c| == |out| + 17;
  }

  // ---------------------------------------------------------------------
  // Overwrite

  /** A second export with the same arguments to the same directory leaves
      the filesystem, the manifest included, as the first one left it, and
      does not create the directory again. */
  lemma ExportIdempotent(h: Host, r: Request)
    ensures Export(Export(h, r).host, r).status == Export(h, r).status
    ensures Export(Export(h, r).host, r).host.files == Export(h, r).host.files
    ensures Export(h, r).status.Done? ==>
              MadeDirs(r.outputDir) !in Effects(Export(h, r).host.files, r)
  {
    if Validate(r.model, r.tokenizer) == None {
      var h1 := Export(h, r).host;
      ExportSucceeds(h, r);
      ExportSucceeds(h1, r);
      DirectoryCreation(h1, r);
      FinalLayout(h, r);
      var out := r.outputDir;
      assert out in h1.files;
      assert Prepared(h1.files, out) == h1.files;
      var a, t, c := Join(out, AdapterDir), Join(out, TokenizerDir), Join(out, ConfigFile);
      var f2 := Export(h1, r).host.files;
      assert f2.Keys == h1.files.Keys;
      forall p | p in f2
        ensures f2[p] == h1.files[p]
      {
      }
    }
  }

  /** However many times the same export is repeated, the filesystem is the
      one the first export left. */
  lemma {:induction false} RepeatedExport(h: Host, r: Request, n: nat)
    requires n >= 1
    ensures ExportTimes(h, r, n).files == Export(h, r).host.files
  {
    if n > 1 {
      RepeatedExport(h, r, n - 1);
      var prev := ExportTimes(h, r, n - 1);
      ExportIdempotent(h, r);
      assert Export(prev, r).host.files == Export(Export(h, r).host, r).host.files by {
        ExportSameFiles(prev, Export(h, r).host, r);
      }
    }
  }

  /** An export's effect on the filesystem depends on the journal not at all. */
  lemma ExportSameFiles(h1: Host, h2: Host, r: Request)
    requires h1.files == h2.files
    ensures Export(h1, r).host.files == Export(h2, r).host.files
    ensures Export(h1, r).status == Export(h2, r).status
  {
  }

  // ---------------------------------------------------------------------
  // Launch command

  /** The last effect of a successful export, after every write, is printing
      the launch command, which is also the console's last line. */
  lemma CommandIsLast(h: Host, r: Request)
    requires Validate(r.model, r.tokenizer) == None
    ensures var j := Export(h, r).host.journal;
      |j| > |h.journal| && j[|j| - 1] == Printed(RunCommand(ResolveBase(r.baseModel, r.model), r.outputDir))
    ensures var c := Console(Export(h, r).host.journal);
      |c| > 0 && c[|c| - 1] == RunCommand(ResolveBase(r.baseModel, r.model), r.outputDir)
  {
    ExportSucceeds(h, r);
    ConsoleGrowth(h, r);
    NewLinesInOrder(h, r);
  }

  /** The command is the serve prefix, the base model verbatim, the LoRA
      flags and the output directory verbatim, with nothing quoted. */
  lemma CommandParts(baseModel: string, outputDir: Path)
    ensures var c := RunCommand(baseModel, outputDir);
      && |c| == |ServePrefix| + |baseModel| + |LoraFlags| + |outputDir|
      && c[..|ServePrefix|] == "vllm serve "
      && c[|ServePrefix|..|ServePrefix| + |baseModel|] == baseModel
      && c[|ServePrefix| + |baseModel|..|c| - |outputDir|] == " --enable-lora --lora-modules custom-lora="
      && c[|c| - |outputDir|..] == outputDir
  {
  }

  /** For a given output directory the command names exactly one base model,
      and for a given base model exactly one output directory. */
  lemma CommandDeterminesEachPart(b1: string, b2: string, o1: Path, o2: Path)
    ensures RunCommand(b1, o1) == RunCommand(b2, o1) ==> b1 == b2
    ensures RunCommand(b1, o1) == RunCommand(b1, o2) ==> o1 == o2
  {
    if RunCommand(b1, o1) == RunCommand(b2, o1) {
      CommandParts(b1, o1);
      CommandParts(b2, o1);
    }
    if RunCommand(b1, o1) == RunCommand(b1, o2) {
      CommandParts(b1, o1);
      CommandParts(b1, o2);
    }
  }

  /** Because nothing is escaped, different exports can print the same
      command: a base model that itself contains the LoRA flags reads as a
      shorter base model and a longer output directory. */
  lemma CommandIsNotEscaped(baseModel: string, middle: string, outputDir: Path)
    ensures baseModel + LoraFlags + middle != baseModel
    ensures middle + LoraFlags + outputDir != outputDir
    ensures RunCommand(baseModel + LoraFlags + middle, outputDir)
         == RunCommand(baseModel, middle + LoraFlags + outputDir)
  {
  }

  // ---------------------------------------------------------------------
  // A concrete run

  function ExampleModel(): Model {
    Model(true, true, "meta/base-7b", ["LlamaDecoderLayer", "Linear"])
  }

  function ExampleRequest(tokenizer: Tokenizer): Request {
    Request("/tmp/out", ExampleModel(), tokenizer, None, None)
  }

  /** An export to a missing directory, with both overrides omitted, of a
      model recorded as "meta/base-7b" whose first sub-module is a
      "LlamaDecoderLayer": the directory is created and the manifest names
      both. */
  lemma ExampleLayout(tokenizer: Tokenizer)
    requires tokenizer.isAutoTokenizer
    ensures var o := Export(Host(map[], []), ExampleRequest(tokenizer));
      && o.status == Done
      && "/tmp/out" in o.host.files && o.host.files["/tmp/out"] == Dir
      && "/tmp/out/vllm_config.json" in o.host.files
      && o.host.files["/tmp/out/vllm_config.json"] == Manifest("meta/base-7b", "LlamaDecoderLayer")
  {
    var r := ExampleRequest(tokenizer);
    var h := Host(map[], []);
    ExportSucceeds(h, r);
    ExamplePath();
  }

  /** The same export prints the two defaulting notices, the directory
      notice and then the launch command, in that order. */
  lemma ExampleConsole(tokenizer: Tokenizer)
    requires tokenizer.isAutoTokenizer
    ensures Console(Export(Host(map[], []), ExampleRequest(tokenizer)).host.journal)
         == [ "Using base model : meta/base-7b",
              "Using architecture : LlamaDecoderLayer",
              "Creating output directory : /tmp/out",
              "vllm serve meta/base-7b --enable-lora --lora-modules custom-lora=/tmp/out" ]
  {
    var r := ExampleRequest(tokenizer);
    var h := Host(map[], []);
    ConsoleGrowth(h, r);
    NewLinesInOrder(h, r);
    ExampleLines();
    ExampleCommand();
  }

  lemma ExamplePath()
    ensures Join("/tmp/out", ConfigFile) == "/tmp/out/vllm_config.json"
  {
  }

  /** The three notices of that export, character for character. */
  lemma ExampleLines()
    ensures BasePrefix + "meta/base-7b" == "Using base model : meta/base-7b"
    ensures ArchPrefix + "LlamaDecoderLayer" == "Using architecture : LlamaDecoderLayer"
    ensures DirPrefix + "/tmp/out" == "Creating output directory : /tmp/out"
  {
  }

  /** The command that export prints, character for character. */
  lemma ExampleCommand()
    ensures RunCommand("meta/base-7b", "/tmp/out")
         == "vllm serve meta/base-7b --enable-lora --lora-modules custom-lora=/tmp/out"
  {
    assert ServePrefix + "meta/base-7b" == "vllm serve meta/base-7b";
    CommandHead();
    CommandTail();
    FlagsThenDirectory();
    var head, flags, tail := "vllm serve meta/base-7b", " --enable-lora --lora-modules", " custom-lora=/tmp/out";
    assert head + (flags + tail) == (head + flags) + tail;
  }

  // The example command's text in three overlapping pieces, each short
  // enough for the solver to compare character by character.

  lemma CommandHead()
    ensures "vllm serve meta/base-7b" + " --enable-lora --lora-modules"
         == "vllm serve meta/base-7b --enable-lora --lora-modules"
  {
  }

  lemma CommandTail()
    ensures "vllm serve meta/base-7b --enable-lora --lora-modules" + " custom-lora=/tmp/out"
         == "vllm serve meta/base-7b --enable-lora --lora-modules custom-lora=/tmp/out"
  {
  }

  lemma FlagsThenDirectory()
    ensures LoraFlags + "/tmp/out" == " --enable-lora --lora-modules" + " custom-lora=/tmp/out"
  {
  }
}
