/**
 * `MermaidToImagePlugin`, the MkDocs plugin object. MkDocs calls its hooks in
 * order (`on_config`, `on_files`, `on_page_markdown` per page, `on_post_build`);
 * the object keeps the processor built at configuration time, the images
 * generated so far and the site's file collection between calls.
 *
 * What the hooks receive from outside — the command line, the environment,
 * the file system, the processor's page transformation and the registration of
 * images with MkDocs — is given to them as parameters. Each hook's outcome is
 * defined by a function on values, and the properties are lemmas about those
 * functions.
 */
module Plugin {
  import opened Wrappers
  import opened Text
  import opened Paths
  import opened Config
  import opened Exceptions
  import opened Utils

  /** `os.environ`. */
  type Environment = map<string, string>

  // ----- _should_be_enabled -----

  /** The option is absent, `None` or a string, as its `Optional(Type(str))` scheme entry guarantees. */
  predicate EnvOptionTyped(config: ConfigDict) {
    "enabled_if_env" !in config || config["enabled_if_env"].VStr? || config["enabled_if_env"] == VNone
  }

  /** The option is absent or a string. */
  predicate TextOption(config: ConfigDict, key: string) {
    key !in config || config[key].VStr?
  }

  /** The options the hooks read as strings have the types MkDocs' validation of the scheme gives them. */
  lemma WellTypedHookOptions(config: ConfigDict)
    requires WellTyped(config)
    ensures EnvOptionTyped(config)
    ensures TextOption(config, "output_dir") && TextOption(config, "cache_dir")
  {
    var scheme := ConfigScheme();
    assert scheme[1] == OptionSpec("enabled_if_env", OptionalOf(StrOption));
    assert scheme[2] == OptionSpec("output_dir", Typed(StrOption, VStr("assets/images")));
    assert scheme[15] == OptionSpec("cache_dir", Typed(StrOption, VStr(".mermaid_cache")));
  }

  /** `_should_be_enabled(config)`: a named environment variable decides alone; otherwise the `enabled` switch, on by default. */
  function ShouldBeEnabled(config: ConfigDict, env: Environment): bool
    requires EnvOptionTyped(config)
  {
    var name := Get(config, "enabled_if_env", VNone);
    if name != VNone then name.s in env && Strip(env[name.s]) != ""
    else Truthy(Get(config, "enabled", VBool(true)))
  }

  /** With `enabled_if_env` naming a variable, the plugin is on exactly when that variable is set to something other than whitespace, whatever `enabled` says. */
  lemma EnabledByEnvironment(config: ConfigDict, env: Environment, name: string)
    requires "enabled_if_env" in config && config["enabled_if_env"] == VStr(name)
    ensures ShouldBeEnabled(config, env) <==> name in env && !AllSpace(env[name], IsSpace)
  {
    if name in env {
      StripEmptyIff(env[name], IsSpace);
    }
  }

  /** Without `enabled_if_env`, the plugin is on unless `enabled` is set to a falsy value. */
  lemma EnabledBySwitch(config: ConfigDict, env: Environment)
    requires "enabled_if_env" !in config || config["enabled_if_env"] == VNone
    ensures ShouldBeEnabled(config, env) <==> "enabled" !in config || Truthy(config["enabled"])
  {
  }

  // ----- on_config -----

  /** The `MermaidProcessor` the plugin builds, known by the configuration it is built from. */
  datatype Processor = Processor(config: ConfigDict)

  /** What `validate_config` raises, as a Python exception. */
  function FaultRaised(f: ConfigFault): (e: Raised)
    ensures f.ValueError? <==> e.ValueFailure?
    ensures f.FileNotFoundError? <==> e.FileNotFound?
    ensures f.TypeError? <==> e.TypeFailure?
    ensures Str(e) == f.message
  {
    match f
    case ValueError(m) => ValueFailure(m)
    case FileNotFoundError(m) => FileNotFound(m)
    case TypeError(m) => TypeFailure(m)
  }

  const InitMissingPrefix := "Required file not found during plugin initialization: "
  const InitFileSystemPrefix := "File system error during plugin initialization: "
  const InitConfigPrefix := "Plugin configuration error: "

  /** The handlers of `on_config`: configuration and file errors pass unchanged, other file-system errors become file errors, everything else a configuration error. */
  function InitError(e: Raised): (r: MermaidError)
    ensures r.kind == ConfigError || r.kind == FileError
    ensures e.Mermaid? && (e.error.kind == ConfigError || e.error.kind == FileError) ==> r == e.error
    ensures e.Mermaid? && e.error.kind != ConfigError && e.error.kind != FileError
         ==> r == NewConfigError(InitConfigPrefix + Str(e), None, DNone, None)
    ensures e.FileNotFound? ==> r == NewFileError(InitMissingPrefix + e.msg)
    ensures e.PermissionDenied? || e.OSFailure? ==> r == NewFileError(InitFileSystemPrefix + e.msg)
    ensures e.ValueFailure? || e.TypeFailure? || e.KeyMissing? || e.Other? ==> r == NewConfigError(InitConfigPrefix + Str(e), None, DNone, None)
  {
    match e
    case Mermaid(err) =>
      if err.kind == ConfigError || err.kind == FileError then err
      else NewConfigError(InitConfigPrefix + Str(e), None, DNone, None)
    case FileNotFound(m) => NewFileError(InitMissingPrefix + m)
    case PermissionDenied(m) => NewFileError(InitFileSystemPrefix + m)
    case OSFailure(m) => NewFileError(InitFileSystemPrefix + m)
    case _ => NewConfigError(InitConfigPrefix + Str(e), None, DNone, None)
  }

  /** The copy of the options handed to the processor: outside verbose mode, its log level is `WARNING`. */
  function ProcessorOptions(config: ConfigDict, verbose: bool): (r: ConfigDict)
    ensures "log_level" in r || verbose
    ensures !verbose ==> r["log_level"] == VStr("WARNING")
    ensures verbose ==> r == config
    ensures forall k :: k != "log_level" ==> (k in r <==> k in config)
    ensures forall k :: k != "log_level" && k in config ==> r[k] == config[k]
  {
    if verbose then config else config["log_level" := VStr("WARNING")]
  }

  /**
   * `on_config`: the processor it builds, `None` when the plugin is disabled,
   * or the error it raises. `construct` is the failure, if any, of building a
   * `MermaidProcessor` from the given options.
   */
  function Initialise(config: ConfigDict, env: Environment, verbose: bool, fileExists: string -> bool,
                      construct: ConfigDict -> Option<Raised>): Result<Option<Processor>, MermaidError>
    requires EnvOptionTyped(config)
  {
    match ValidateConfig(config, fileExists)
    case Failure(f) => Failure(InitError(FaultRaised(f)))
    case Success(_) =>
      if !ShouldBeEnabled(config, env) then Success(None)
      else
        var options := ProcessorOptions(config, verbose);
        match construct(options)
        case Some(e) => Failure(InitError(e))
        case None => Success(Some(Processor(options)))
  }

  /** Validation comes first: an invalid configuration is an error even when the plugin is disabled, and only a missing file is reported as a file error. */
  lemma InvalidConfigFailsInitialise(config: ConfigDict, env: Environment, verbose: bool, fileExists: string -> bool,
                                     construct: ConfigDict -> Option<Raised>)
    requires EnvOptionTyped(config)
    requires !IsValidConfig(config, fileExists)
    ensures var r := Initialise(config, env, verbose, fileExists, construct);
      && r.Failure?
      && (r.error.kind == FileError <==> ValidateConfig(config, fileExists).error.FileNotFoundError?)
  {
    ValidateConfigSucceedsIff(config, fileExists);
  }

  /** A valid configuration of a disabled plugin builds no processor and raises nothing. */
  lemma DisabledInitialise(config: ConfigDict, env: Environment, verbose: bool, fileExists: string -> bool,
                           construct: ConfigDict -> Option<Raised>)
    requires EnvOptionTyped(config)
    requires IsValidConfig(config, fileExists) && !ShouldBeEnabled(config, env)
    ensures Initialise(config, env, verbose, fileExists, construct) == Success(None)
  {
    ValidateConfigSucceedsIff(config, fileExists);
  }

  /** An enabled plugin with a valid configuration builds its processor from the options, with the log level lowered outside verbose mode. */
  lemma EnabledInitialise(config: ConfigDict, env: Environment, verbose: bool, fileExists: string -> bool,
                          construct: ConfigDict -> Option<Raised>)
    requires EnvOptionTyped(config)
    requires IsValidConfig(config, fileExists) && ShouldBeEnabled(config, env)
    requires construct(ProcessorOptions(config, verbose)).None?
    ensures var r := Initialise(config, env, verbose, fileExists, construct);
      && r.Success? && r.value.Some?
      && (verbose ==> r.value.value.config == config)
      && (!verbose ==> r.value.value.config == config["log_level" := VStr("WARNING")])
  {
    ValidateConfigSucceedsIff(config, fileExists);
  }

  /** A width of zero or less stops the build with a configuration error carrying validation's message. */
  lemma NonPositiveWidthFailsInitialise(config: ConfigDict, env: Environment, verbose: bool, fileExists: string -> bool,
                                        construct: ConfigDict -> Option<Raised>)
    requires EnvOptionTyped(config)
    requires "width" in config && "height" in config && "scale" in config && IsNonPositive(config["width"])
    ensures Initialise(config, env, verbose, fileExists, construct)
         == Failure(NewConfigError(InitConfigPrefix + DimensionsMessage, None, DNone, None))
  {
    NonPositiveDimensionRejected(config, fileExists);
  }

  /** A stylesheet that does not exist stops the build with a file error naming it. */
  lemma MissingStylesheetFailsInitialise(config: ConfigDict, env: Environment, verbose: bool, fileExists: string -> bool,
                                         construct: ConfigDict -> Option<Raised>, path: string)
    requires EnvOptionTyped(config)
    requires "width" in config && "height" in config && "scale" in config
    requires IsPositive(config["width"]) && IsPositive(config["height"]) && IsPositive(config["scale"])
    requires "css_file" in config && config["css_file"] == VStr(path) && path != "" && !fileExists(path)
    ensures Initialise(config, env, verbose, fileExists, construct)
         == Failure(NewFileError(InitMissingPrefix + CssMissingPrefix + path))
  {
    MissingStylesheetRejected(config, fileExists, path);
    assert InitMissingPrefix + (CssMissingPrefix + path) == InitMissingPrefix + CssMissingPrefix + path;
  }

  // ----- _process_mermaid_diagrams -----

  /** The page being rendered: `page.file.src_path` and `page.url`. */
  datatype Page = Page(srcPath: string, url: string)

  /** What `process_page` returns — the new Markdown and the images written — or the exception it raises. */
  datatype PageProcessing = Processed(content: string, imagePaths: seq<string>) | ProcessFailed(error: Raised)

  /** `processor.process_page(src_path, markdown, output_dir, page_url)`. */
  type ProcessPage = (Processor, string, string, string, string) -> PageProcessing

  /** The failure, if any, of `_register_generated_images_to_files(image_paths, docs_dir, config)` on a non-empty list. */
  type RegisterImages = (seq<string>, string) -> Option<Raised>

  /** The exception `_process_mermaid_diagrams` raises in strict mode for an exception of the processing. */
  function Escalate(e: Raised, srcPath: string): (r: Raised)
    ensures r.Mermaid?
    ensures e.Mermaid? ==> r == e
    ensures e.FileNotFound? || e.PermissionDenied? || e.OSFailure? ==>
      r.error == NewFileError("File system error processing " + srcPath + ": " + e.msg)
    ensures e.ValueFailure? ==> r.error == NewValidationError("Validation error processing " + srcPath + ": " + e.msg)
    ensures e.KeyMissing? || e.TypeFailure? || e.Other? ==> r.error == NewPreprocessorError("Unexpected error: " + Str(e), None)
  {
    match e
    case Mermaid(_) => e
    case FileNotFound(m) => Mermaid(NewFileError("File system error processing " + srcPath + ": " + m))
    case PermissionDenied(m) => Mermaid(NewFileError("File system error processing " + srcPath + ": " + m))
    case OSFailure(m) => Mermaid(NewFileError("File system error processing " + srcPath + ": " + m))
    case ValueFailure(m) => Mermaid(NewValidationError("Validation error processing " + srcPath + ": " + m))
    case _ => Mermaid(NewPreprocessorError("Unexpected error: " + Str(e), None))
  }

  /** The handlers of `_process_mermaid_diagrams`: raise when `error_on_fail` is set, else keep the page as it was; reading a missing `error_on_fail` raises `KeyError`. */
  function HandlePageFailure(config: ConfigDict, e: Raised, srcPath: string, markdown: string): Result<string, Raised> {
    if "error_on_fail" !in config then Failure(KeyMissing("error_on_fail"))
    else if Truthy(config["error_on_fail"]) then Failure(Escalate(e, srcPath))
    else Success(markdown)
  }

  /** The outcome of rendering one page, and the images to record as generated. */
  datatype PageOutcome = PageOutcome(result: Result<string, Raised>, added: seq<string>)

  /** `self.files` is a non-empty collection. */
  function FilesTruthy(files: Option<seq<string>>): bool {
    files.Some? && files.value != []
  }

  /** `_process_mermaid_diagrams(markdown, page, config)` with `docs_dir` the site's source directory. */
  function ProcessDiagrams(config: ConfigDict, processor: Option<Processor>, files: Option<seq<string>>,
                           markdown: string, page: Page, docsDir: string,
                           process: ProcessPage, register: RegisterImages): PageOutcome
    requires TextOption(config, "output_dir")
  {
    if processor.None? then PageOutcome(Success(markdown), [])
    else if "output_dir" !in config then
      PageOutcome(HandlePageFailure(config, KeyMissing("output_dir"), page.srcPath, markdown), [])
    else
      var outputDir := JoinPath(docsDir, config["output_dir"].s);
      match process(processor.value, page.srcPath, markdown, outputDir, page.url)
      case ProcessFailed(e) => PageOutcome(HandlePageFailure(config, e, page.srcPath, markdown), [])
      case Processed(content, images) =>
        var failure := if images != [] && FilesTruthy(files) then register(images, docsDir) else None;
        PageOutcome(if failure.Some? then HandlePageFailure(config, failure.value, page.srcPath, markdown) else Success(content), images)
  }

  /** The processing succeeded and its images were registered. */
  predicate ProcessingSucceeded(config: ConfigDict, processor: Option<Processor>, files: Option<seq<string>>,
                                markdown: string, page: Page, docsDir: string,
                                process: ProcessPage, register: RegisterImages)
    requires TextOption(config, "output_dir")
  {
    && processor.Some? && "output_dir" in config
    && var p := process(processor.value, page.srcPath, markdown, JoinPath(docsDir, config["output_dir"].s), page.url);
       p.Processed? && !(p.imagePaths != [] && FilesTruthy(files) && register(p.imagePaths, docsDir).Some?)
  }

  /** A successful processing gives its content; in lenient mode any failure gives back the page unchanged; in strict mode any failure is raised as one of the plugin's errors. */
  lemma ProcessDiagramsOutcome(config: ConfigDict, processor: Option<Processor>, files: Option<seq<string>>,
                               markdown: string, page: Page, docsDir: string,
                               process: ProcessPage, register: RegisterImages)
    requires TextOption(config, "output_dir") && processor.Some? && "error_on_fail" in config
    ensures var o := ProcessDiagrams(config, processor, files, markdown, page, docsDir, process, register);
      && (ProcessingSucceeded(config, processor, files, markdown, page, docsDir, process, register) ==>
            o.result == Success(process(processor.value, page.srcPath, markdown, JoinPath(docsDir, config["output_dir"].s), page.url).content))
      && (!ProcessingSucceeded(config, processor, files, markdown, page, docsDir, process, register) ==>
            if Truthy(config["error_on_fail"]) then o.result.Failure? && o.result.error.Mermaid?
            else o.result == Success(markdown))
  {
  }

  /** The images a processing writes are recorded even when their registration raises; nothing else is ever recorded. */
  lemma ProcessDiagramsRecords(config: ConfigDict, processor: Option<Processor>, files: Option<seq<string>>,
                               markdown: string, page: Page, docsDir: string,
                               process: ProcessPage, register: RegisterImages)
    requires TextOption(config, "output_dir")
    ensures var o := ProcessDiagrams(config, processor, files, markdown, page, docsDir, process, register);
      if processor.Some? && "output_dir" in config
         && process(processor.value, page.srcPath, markdown, JoinPath(docsDir, config["output_dir"].s), page.url).Processed?
      then o.added == process(processor.value, page.srcPath, markdown, JoinPath(docsDir, config["output_dir"].s), page.url).imagePaths
      else o.added == []
  {
  }

  /** A plugin error raised by the processor is re-raised as it is in strict mode. */
  lemma PluginErrorsReraised(config: ConfigDict, processor: Option<Processor>, files: Option<seq<string>>,
                             markdown: string, page: Page, docsDir: string,
                             process: ProcessPage, register: RegisterImages, err: MermaidError)
    requires TextOption(config, "output_dir") && processor.Some? && "output_dir" in config
    requires "error_on_fail" in config && Truthy(config["error_on_fail"])
    requires process(processor.value, page.srcPath, markdown, JoinPath(docsDir, config["output_dir"].s), page.url) == ProcessFailed(Mermaid(err))
    ensures ProcessDiagrams(config, processor, files, markdown, page, docsDir, process, register).result == Failure(Mermaid(err))
  {
  }

  /** `on_page_markdown`: a disabled plugin, and every page in serve mode, leaves the Markdown as it is. */
  function PageMarkdown(config: ConfigDict, env: Environment, serveMode: bool, processor: Option<Processor>, files: Option<seq<string>>,
                        markdown: string, page: Page, docsDir: string,
                        process: ProcessPage, register: RegisterImages): PageOutcome
    requires EnvOptionTyped(config) && TextOption(config, "output_dir")
  {
    if !ShouldBeEnabled(config, env) || serveMode then PageOutcome(Success(markdown), [])
    else ProcessDiagrams(config, processor, files, markdown, page, docsDir, process, register)
  }

  /** No page is rendered, and no image recorded, while the plugin is disabled or MkDocs serves the site. */
  lemma PagesUntouchedWhenSkipped(config: ConfigDict, env: Environment, serveMode: bool, processor: Option<Processor>, files: Option<seq<string>>,
                                  markdown: string, page: Page, docsDir: string,
                                  process: ProcessPage, register: RegisterImages)
    requires EnvOptionTyped(config) && TextOption(config, "output_dir")
    requires !ShouldBeEnabled(config, env) || serveMode || processor.None?
    ensures PageMarkdown(config, env, serveMode, processor, files, markdown, page, docsDir, process, register)
         == PageOutcome(Success(markdown), [])
  {
  }

  // ----- on_post_build -----

  /** `cleanup_generated_images` is set and some image was generated. */
  predicate CleansImages(config: ConfigDict, images: seq<string>) {
    Truthy(Get(config, "cleanup_generated_images", VBool(false))) && images != []
  }

  /** The files left after the image cleanup of `on_post_build`. */
  function AfterImageCleanup(config: ConfigDict, images: seq<string>, paths: set<string>, failing: map<string, RemoveFailure>): (r: set<string>)
    ensures r <= paths
    ensures !CleansImages(config, images) ==> r == paths
    ensures forall p :: p in paths && p !in images ==> p in r
  {
    if CleansImages(config, images) then paths - Deletable(paths, failing, images) else paths
  }

  /** The files left once a directory tree is removed. */
  function WithoutTree(paths: set<string>, d: string): (r: set<string>)
    ensures r <= paths && d !in r
    ensures forall p :: p in r ==> !IsBelow(p, d)
    ensures forall p :: p in paths && p != d && !IsBelow(p, d) ==> p in r
  {
    set p | p in paths && p != d && !IsBelow(p, d)
  }

  /** What `on_post_build` raises, if anything, and the files it leaves. */
  datatype BuildOutcome = BuildOutcome(result: Outcome<Raised>, paths: set<string>)

  /** `on_post_build`: remove the generated images when asked, then the cache directory when caching is off. */
  function PostBuild(config: ConfigDict, env: Environment, images: seq<string>, paths: set<string>, failing: map<string, RemoveFailure>): BuildOutcome
    requires EnvOptionTyped(config) && TextOption(config, "cache_dir")
  {
    if !ShouldBeEnabled(config, env) then BuildOutcome(Pass, paths)
    else
      var cleaned := AfterImageCleanup(config, images, paths, failing);
      if "cache_enabled" !in config then BuildOutcome(Fail(KeyMissing("cache_enabled")), cleaned)
      else if Truthy(config["cache_enabled"]) then BuildOutcome(Pass, cleaned)
      else if "cache_dir" !in config then BuildOutcome(Fail(KeyMissing("cache_dir")), cleaned)
      else
        var d := config["cache_dir"].s;
        BuildOutcome(Pass, if d in cleaned then WithoutTree(cleaned, d) else cleaned)
  }

  /** The build's end removes only generated images and the cache tree: every other file survives. */
  lemma PostBuildKeepsOtherFiles(config: ConfigDict, env: Environment, images: seq<string>, paths: set<string>,
                                 failing: map<string, RemoveFailure>, q: string)
    requires EnvOptionTyped(config) && TextOption(config, "cache_dir")
    requires q in paths && q !in images
    requires "cache_dir" in config ==> q != config["cache_dir"].s && !IsBelow(q, config["cache_dir"].s)
    ensures q in PostBuild(config, env, images, paths, failing).paths
  {
  }

  /** With caching off, an existing cache directory and everything below it are gone after the build. */
  lemma PostBuildRemovesCache(config: ConfigDict, env: Environment, images: seq<string>, paths: set<string>,
                              failing: map<string, RemoveFailure>)
    requires EnvOptionTyped(config) && TextOption(config, "cache_dir")
    requires ShouldBeEnabled(config, env)
    requires "cache_enabled" in config && !Truthy(config["cache_enabled"]) && "cache_dir" in config
    requires config["cache_dir"].s in paths && config["cache_dir"].s !in images
    ensures var o := PostBuild(config, env, images, paths, failing);
      && o.result == Pass
      && config["cache_dir"].s !in o.paths
      && forall p :: p in o.paths ==> !IsBelow(p, config["cache_dir"].s)
  {
  }

  /** With caching on, the cache is kept and only the image cleanup changes the files; a disabled plugin changes nothing. */
  lemma PostBuildKeepsCache(config: ConfigDict, env: Environment, images: seq<string>, paths: set<string>,
                            failing: map<string, RemoveFailure>)
    requires EnvOptionTyped(config) && TextOption(config, "cache_dir")
    ensures !ShouldBeEnabled(config, env) ==> PostBuild(config, env, images, paths, failing) == BuildOutcome(Pass, paths)
    ensures ShouldBeEnabled(config, env) && "cache_enabled" in config && Truthy(config["cache_enabled"]) ==>
      PostBuild(config, env, images, paths, failing) == BuildOutcome(Pass, AfterImageCleanup(config, images, paths, failing))
  {
  }

  // ----- on_serve -----

  /** `on_serve`: the directory handed to `server.watch`, if any. */
  function WatchedDirectory(config: ConfigDict, env: Environment, paths: set<string>): (r: Result<Option<string>, Raised>)
    requires EnvOptionTyped(config) && TextOption(config, "cache_dir")
    ensures r.Success? && r.value.Some? ==>
      && ShouldBeEnabled(config, env) && "cache_enabled" in config && Truthy(config["cache_enabled"])
      && "cache_dir" in config && r.value.value == config["cache_dir"].s && r.value.value in paths
    ensures r.Failure? ==> ShouldBeEnabled(config, env) && r.error.KeyMissing?
  {
    if !ShouldBeEnabled(config, env) then Success(None)
    else if "cache_enabled" !in config then Failure(KeyMissing("cache_enabled"))
    else if !Truthy(config["cache_enabled"]) then Success(None)
    else if "cache_dir" !in config then Failure(KeyMissing("cache_dir"))
    else if config["cache_dir"].s in paths then Success(Some(config["cache_dir"].s))
    else Success(None)
  }

  // ----- the plugin object -----

  class MermaidToImagePlugin {
    /** `self.config`: the plugin's options as MkDocs validated them against the scheme. */
    const config: ConfigDict
    const isServeMode: bool
    const isVerboseMode: bool
    var processor: Option<Processor>
    var generatedImages: seq<string>
    /** `self.files`, the site's files known by their source paths. */
    var files: Option<seq<string>>

    /** `__init__`, with `sys.argv` as `argv` and the options MkDocs loads into `self.config`. */
    constructor (config: ConfigDict, argv: seq<string>)
      requires WellTyped(config)
      ensures this.config == config
      ensures isServeMode == ("serve" in argv)
      ensures isVerboseMode == ("--verbose" in argv || "-v" in argv)
      ensures processor == None && generatedImages == [] && files == None
    {
      this.config := config;
      isServeMode := "serve" in argv;
      isVerboseMode := "--verbose" in argv || "-v" in argv;
      processor := None;
      generatedImages := [];
      files := None;
    }

    /** `on_config`: the processor is replaced only when one is built. */
    method OnConfig(env: Environment, fileExists: string -> bool, construct: ConfigDict -> Option<Raised>) returns (r: Outcome<MermaidError>)
      requires WellTyped(config)
      modifies this`processor
      ensures EnvOptionTyped(config)
      ensures var init := Initialise(config, env, isVerboseMode, fileExists, construct);
        && (init.Failure? ==> r == Fail(init.error) && processor == old(processor))
        && (init.Success? ==> r == Pass && processor == if init.value.Some? then init.value else old(processor))
    {
      WellTypedHookOptions(config);
      var init := Initialise(config, env, isVerboseMode, fileExists, construct);
      if init.Failure? {
        return Fail(init.error);
      }
      if init.value.Some? {
        processor := init.value;
      }
      r := Pass;
    }

    /** `on_files`: an enabled plugin with a processor keeps the site's files and forgets earlier images. */
    method OnFiles(siteFiles: seq<string>, env: Environment) returns (r: seq<string>)
      requires WellTyped(config)
      modifies this`files, this`generatedImages
      ensures EnvOptionTyped(config)
      ensures r == siteFiles
      ensures ShouldBeEnabled(config, env) && processor.Some? ==> files == Some(siteFiles) && generatedImages == []
      ensures !(ShouldBeEnabled(config, env) && processor.Some?) ==> files == old(files) && generatedImages == old(generatedImages)
    {
      WellTypedHookOptions(config);
      if ShouldBeEnabled(config, env) && processor.Some? {
        files := Some(siteFiles);
        generatedImages := [];
      }
      r := siteFiles;
    }

    /** `_process_mermaid_diagrams`: the images written are appended to those generated so far. */
    method ProcessMermaidDiagrams(markdown: string, page: Page, docsDir: string, process: ProcessPage, register: RegisterImages)
      returns (r: Result<string, Raised>)
      requires WellTyped(config)
      modifies this`generatedImages
      ensures TextOption(config, "output_dir")
      ensures var o := ProcessDiagrams(config, processor, files, markdown, page, docsDir, process, register);
        r == o.result && generatedImages == old(generatedImages) + o.added
    {
      WellTypedHookOptions(config);
      if processor.None? {
        return Success(markdown);
      }
      if "output_dir" !in config {
        return HandlePageFailure(config, KeyMissing("output_dir"), page.srcPath, markdown);
      }
      var outputDir := JoinPath(docsDir, config["output_dir"].s);
      var processed := process(processor.value, page.srcPath, markdown, outputDir, page.url);
      if processed.ProcessFailed? {
        return HandlePageFailure(config, processed.error, page.srcPath, markdown);
      }
      generatedImages := generatedImages + processed.imagePaths;
      if processed.imagePaths != [] && FilesTruthy(files) {
        var failure := register(processed.imagePaths, docsDir);
        if failure.Some? {
          return HandlePageFailure(config, failure.value, page.srcPath, markdown);
        }
      }
      r := Success(processed.content);
    }

    /** `on_page_markdown`. */
    method OnPageMarkdown(markdown: string, page: Page, env: Environment, docsDir: string, process: ProcessPage, register: RegisterImages)
      returns (r: Result<string, Raised>)
      requires WellTyped(config)
      modifies this`generatedImages
      ensures EnvOptionTyped(config) && TextOption(config, "output_dir")
      ensures var o := PageMarkdown(config, env, isServeMode, processor, files, markdown, page, docsDir, process, register);
        r == o.result && generatedImages == old(generatedImages) + o.added
    {
      WellTypedHookOptions(config);
      if !ShouldBeEnabled(config, env) || isServeMode {
        return Success(markdown);
      }
      r := ProcessMermaidDiagrams(markdown, page, docsDir, process, register);
    }

    /** `on_post_build` on the file system `fs`. */
    method OnPostBuild(fs: FileSystem, env: Environment) returns (r: Outcome<Raised>)
      requires WellTyped(config)
      modifies fs
      ensures EnvOptionTyped(config) && TextOption(config, "cache_dir")
      ensures fs.failing == old(fs.failing)
      ensures var o := PostBuild(config, env, generatedImages, old(fs.paths), old(fs.failing));
        r == o.result && fs.paths == o.paths
    {
      WellTypedHookOptions(config);
      if !ShouldBeEnabled(config, env) {
        return Pass;
      }
      if CleansImages(config, generatedImages) {
        var _, _, _, _ := CleanGeneratedImages(fs, generatedImages, true);
      }
      if "cache_enabled" !in config {
        return Fail(KeyMissing("cache_enabled"));
      }
      if !Truthy(config["cache_enabled"]) {
        if "cache_dir" !in config {
          return Fail(KeyMissing("cache_dir"));
        }
        var cacheDir := config["cache_dir"].s;
        if fs.Exists(cacheDir) {
          fs.RemoveTree(cacheDir);
        }
      }
      r := Pass;
    }
  }
}
