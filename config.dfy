/**
 * The plugin's configuration: the option scheme it declares to MkDocs (names,
 * types, choices and defaults) and `ConfigManager.validate_config`, an ordered
 * series of checks on a configuration dictionary.
 */
module Config {
  import opened Wrappers

  /** A value of a configuration dictionary, with Python's dynamic type. */
  datatype Value = VStr(s: string) | VInt(i: int) | VReal(r: real) | VBool(b: bool) | VNone

  type ConfigDict = map<string, Value>

  /** `bool(v)`. */
  predicate Truthy(v: Value) {
    match v
    case VStr(s) => s != ""
    case VInt(i) => i != 0
    case VReal(r) => r != 0.0
    case VBool(b) => b
    case VNone => false
  }

  /** `type(v).__name__`. */
  function TypeName(v: Value): string {
    match v
    case VStr(_) => "str"
    case VInt(_) => "int"
    case VReal(_) => "float"
    case VBool(_) => "bool"
    case VNone => "NoneType"
  }

  /** `config.get(key, default)`. */
  function Get(config: ConfigDict, key: string, default: Value): (v: Value)
    ensures key in config ==> v == config[key]
    ensures key !in config ==> v == default
  {
    if key in config then config[key] else default
  }

  // ----- the option scheme -----

  datatype OptionType = BoolOption | StrOption | IntOption | FloatOption

  /** `Type(t, default=d)`, `Optional(Type(t))` (default `None`) or `Choice(choices, default=d)`. */
  datatype OptionKind =
    | Typed(t: OptionType, default: Value)
    | OptionalOf(t: OptionType)
    | Choice(choices: seq<string>, selected: string)

  datatype OptionSpec = OptionSpec(name: string, kind: OptionKind)

  /** `ConfigManager.get_config_scheme()`, in its order. */
  function ConfigScheme(): seq<OptionSpec> {
    [ OptionSpec("enabled", Typed(BoolOption, VBool(true))),
      OptionSpec("enabled_if_env", OptionalOf(StrOption)),
      OptionSpec("output_dir", Typed(StrOption, VStr("assets/images"))),
      OptionSpec("image_format", Choice(["png", "svg"], "png")),
      OptionSpec("mermaid_config", OptionalOf(StrOption)),
      OptionSpec("mmdc_path", Typed(StrOption, VStr("mmdc"))),
      OptionSpec("theme", Choice(["default", "dark", "forest", "neutral"], "default")),
      OptionSpec("background_color", Typed(StrOption, VStr("white"))),
      OptionSpec("width", Typed(IntOption, VInt(800))),
      OptionSpec("height", Typed(IntOption, VInt(600))),
      OptionSpec("scale", Typed(FloatOption, VReal(1.0))),
      OptionSpec("css_file", OptionalOf(StrOption)),
      OptionSpec("puppeteer_config", OptionalOf(StrOption)),
      OptionSpec("temp_dir", OptionalOf(StrOption)),
      OptionSpec("cache_enabled", Typed(BoolOption, VBool(true))),
      OptionSpec("cache_dir", Typed(StrOption, VStr(".mermaid_cache"))),
      OptionSpec("preserve_original", Typed(BoolOption, VBool(false))),
      OptionSpec("error_on_fail", Typed(BoolOption, VBool(false))),
      OptionSpec("log_level", Choice(["DEBUG", "INFO", "WARNING", "ERROR"], "INFO")),
      OptionSpec("cleanup_generated_images", Typed(BoolOption, VBool(false))) ]
  }

  /** The value an option takes when the user sets none. */
  function DefaultValue(kind: OptionKind): Value {
    match kind
    case Typed(_, d) => d
    case OptionalOf(_) => VNone
    case Choice(_, d) => VStr(d)
  }

  /** `isinstance(v, t)` as MkDocs' `Type` checks it; `bool` is a subclass of `int`, `int` is not one of `float`. */
  predicate HasType(v: Value, t: OptionType) {
    match t
    case BoolOption => v.VBool?
    case StrOption => v.VStr?
    case IntOption => v.VInt? || v.VBool?
    case FloatOption => v.VReal?
  }

  /** The values MkDocs lets through for an option of this kind. */
  predicate Admits(kind: OptionKind, v: Value) {
    match kind
    case Typed(t, _) => HasType(v, t)
    case OptionalOf(t) => v == VNone || HasType(v, t)
    case Choice(cs, _) => v.VStr? && v.s in cs
  }

  /** Every scheme option the dictionary holds has a value the scheme admits; options may be absent. */
  predicate WellTyped(config: ConfigDict) {
    forall i :: 0 <= i < |ConfigScheme()| && ConfigScheme()[i].name in config ==>
      Admits(ConfigScheme()[i].kind, config[ConfigScheme()[i].name])
  }

  /** The names of a list of options are pairwise different. */
  predicate DistinctNames(specs: seq<OptionSpec>) {
    forall i, j :: 0 <= i < j < |specs| ==> specs[i].name != specs[j].name
  }

  /** The dictionary MkDocs builds when the user sets no option: every scheme option at its default. */
  function Defaults(): ConfigDict {
    map["enabled" := VBool(true), "enabled_if_env" := VNone, "output_dir" := VStr("assets/images"),
      "image_format" := VStr("png"), "mermaid_config" := VNone, "mmdc_path" := VStr("mmdc"), "theme" := VStr("default"),
      "background_color" := VStr("white"), "width" := VInt(800), "height" := VInt(600), "scale" := VReal(1.0),
      "css_file" := VNone, "puppeteer_config" := VNone, "temp_dir" := VNone, "cache_enabled" := VBool(true),
      "cache_dir" := VStr(".mermaid_cache"), "preserve_original" := VBool(false), "error_on_fail" := VBool(false),
      "log_level" := VStr("INFO"), "cleanup_generated_images" := VBool(false)]
  }

  /** The options the plugin declares, in the order it declares them. */
  const OptionNames: seq<string> := ["enabled", "enabled_if_env", "output_dir", "image_format", "mermaid_config",
    "mmdc_path", "theme", "background_color", "width", "height", "scale", "css_file", "puppeteer_config", "temp_dir",
    "cache_enabled", "cache_dir", "preserve_original", "error_on_fail", "log_level", "cleanup_generated_images"]

  lemma SchemeNames()
    ensures |ConfigScheme()| == |OptionNames|
    ensures forall i :: 0 <= i < |ConfigScheme()| ==> ConfigScheme()[i].name == OptionNames[i]
  {
  }

  /** The option names are distinct, so the scheme is a dictionary. */
  lemma SchemeNamesDistinct()
    ensures DistinctNames(ConfigScheme())
  {
    SchemeNames();
    OptionNamesDistinctBelow4();
    OptionNamesDistinctBelow10();
    OptionNamesDistinctBelow20();
  }

  lemma OptionNamesDistinctBelow4()
    ensures forall i, j :: 0 <= i < 4 && i < j < |OptionNames| ==> OptionNames[i] != OptionNames[j]
  {
  }

  lemma OptionNamesDistinctBelow10()
    ensures forall i, j :: 4 <= i < 10 && i < j < |OptionNames| ==> OptionNames[i] != OptionNames[j]
  {
  }

  lemma OptionNamesDistinctBelow20()
    ensures forall i, j :: 10 <= i < j < |OptionNames| ==> OptionNames[i] != OptionNames[j]
  {
  }

  /** Every `Choice` default is one of its choices and every `Type` default has its type. */
  lemma SchemeDefaultsAdmitted()
    ensures forall i :: 0 <= i < |ConfigScheme()| ==> Admits(ConfigScheme()[i].kind, DefaultValue(ConfigScheme()[i].kind))
  {
  }

  /** The defaults dictionary holds each option of the scheme at the default the scheme declares for it. */
  lemma DefaultsFollowScheme()
    ensures forall i :: 0 <= i < |ConfigScheme()| ==>
      ConfigScheme()[i].name in Defaults() && Defaults()[ConfigScheme()[i].name] == DefaultValue(ConfigScheme()[i].kind)
  {
    DefaultsFollowSchemeBetween0();
    DefaultsFollowSchemeBetween2();
    DefaultsFollowSchemeBetween5();
    DefaultsFollowSchemeBetween8();
    DefaultsFollowSchemeBetween10();
  }

  lemma DefaultsFollowSchemeBetween0()
    ensures forall i :: 0 <= i < 2 ==>
      ConfigScheme()[i].name in Defaults() && Defaults()[ConfigScheme()[i].name] == DefaultValue(ConfigScheme()[i].kind)
  {
  }

  lemma DefaultsFollowSchemeBetween2()
    ensures forall i :: 2 <= i < 5 ==>
      ConfigScheme()[i].name in Defaults() && Defaults()[ConfigScheme()[i].name] == DefaultValue(ConfigScheme()[i].kind)
  {
  }

  lemma DefaultsFollowSchemeBetween5()
    ensures forall i :: 5 <= i < 8 ==>
      ConfigScheme()[i].name in Defaults() && Defaults()[ConfigScheme()[i].name] == DefaultValue(ConfigScheme()[i].kind)
  {
  }

  lemma DefaultsFollowSchemeBetween8()
    ensures forall i :: 8 <= i < 10 ==>
      ConfigScheme()[i].name in Defaults() && Defaults()[ConfigScheme()[i].name] == DefaultValue(ConfigScheme()[i].kind)
  {
  }

  lemma DefaultsFollowSchemeBetween10()
    ensures forall i :: 10 <= i < 20 ==>
      ConfigScheme()[i].name in Defaults() && Defaults()[ConfigScheme()[i].name] == DefaultValue(ConfigScheme()[i].kind)
  {
  }

  /** The defaults dictionary is well typed against the scheme. */
  lemma DefaultsWellTyped()
    ensures WellTyped(Defaults())
  {
    DefaultsFollowScheme();
    SchemeDefaultsAdmitted();
  }

  /** The image format is `png` or `svg`, the theme one of Mermaid's four, the log level one of four. */
  lemma SchemeChoices()
    ensures ConfigScheme()[3] == OptionSpec("image_format", Choice(["png", "svg"], "png"))
    ensures ConfigScheme()[6] == OptionSpec("theme", Choice(["default", "dark", "forest", "neutral"], "default"))
    ensures ConfigScheme()[18] == OptionSpec("log_level", Choice(["DEBUG", "INFO", "WARNING", "ERROR"], "INFO"))
  {
  }

  // ----- validate_config -----

  /** What `validate_config` raises. */
  datatype ConfigFault =
    | ValueError(message: string)
    | FileNotFoundError(message: string)
    | TypeError(message: string)

  /** `v <= 0`; comparing a string or `None` with a number raises `TypeError`. */
  function AtMostZero(v: Value): (r: Result<bool, ConfigFault>)
    ensures r.Success? <==> (v.VInt? || v.VReal? || v.VBool?)
    ensures r.Success? ==> (r.value <==> IsNonPositive(v))
    ensures r.Failure? ==> r.error.TypeError?
  {
    match v
    case VInt(i) => Success(i <= 0)
    case VReal(x) => Success(x <= 0.0)
    case VBool(b) => Success(!b)
    case _ => Failure(TypeError("'<=' not supported between instances of '" + TypeName(v) + "' and 'int'"))
  }

  /** `Path(v).exists()` with the file system's answer `fileExists`; a path must be a string. */
  function PathExists(v: Value, fileExists: string -> bool): (r: Result<bool, ConfigFault>)
    ensures r.Success? <==> v.VStr?
    ensures r.Success? ==> r.value == fileExists(v.s)
  {
    if v.VStr? then Success(fileExists(v.s))
    else Failure(TypeError("argument should be a str or an os.PathLike object where __fspath__ returns a str, not '" + TypeName(v) + "'"))
  }

  /** The keys `validate_config` demands, in the order it checks them. */
  const RequiredKeys: seq<string> := ["width", "height", "scale"]

  function MissingKeyMessage(key: string): string {
    "Required configuration key '" + key + "' is missing"
  }

  const DimensionsMessage := "Width and height must be positive integers"
  const ScaleMessage := "Scale must be a positive number"
  const CssMissingPrefix := "CSS file not found: "
  const PuppeteerMissingPrefix := "Puppeteer config file not found: "

  /** The first check that fails, else the second. */
  function AndThen(first: Outcome<ConfigFault>, next: Outcome<ConfigFault>): Outcome<ConfigFault> {
    if first.Fail? then first else next
  }

  /** `if v <= 0: raise ValueError(message)`. */
  function CheckPositive(v: Value, message: string): Outcome<ConfigFault> {
    match AtMostZero(v)
    case Failure(e) => Fail(e)
    case Success(bad) => if bad then Fail(ValueError(message)) else Pass
  }

  /** The check of an optional file setting: set and truthy means the file must exist. */
  function CheckOptionalFile(config: ConfigDict, key: string, prefix: string, fileExists: string -> bool): Outcome<ConfigFault> {
    if key in config && Truthy(config[key]) then
      match PathExists(config[key], fileExists)
      case Failure(e) => Fail(e)
      case Success(found) => if found then Pass else Fail(FileNotFoundError(prefix + config[key].s))
    else Pass
  }

  /** `ConfigManager.validate_config(config)`: `True`, or the first check that fails raises. */
  function ValidateConfig(config: ConfigDict, fileExists: string -> bool): (r: Result<bool, ConfigFault>)
    ensures r.Success? ==> r.value
  {
    if "width" !in config then Failure(ValueError(MissingKeyMessage("width")))
    else if "height" !in config then Failure(ValueError(MissingKeyMessage("height")))
    else if "scale" !in config then Failure(ValueError(MissingKeyMessage("scale")))
    else
      var outcome :=
        AndThen(CheckPositive(config["width"], DimensionsMessage),
        AndThen(CheckPositive(config["height"], DimensionsMessage),
        AndThen(CheckPositive(config["scale"], ScaleMessage),
        AndThen(CheckOptionalFile(config, "css_file", CssMissingPrefix, fileExists),
                CheckOptionalFile(config, "puppeteer_config", PuppeteerMissingPrefix, fileExists)))));
      if outcome.Fail? then Failure(outcome.error) else Success(true)
  }

  /** A number greater than zero (`True` counts as 1). */
  predicate IsPositive(v: Value) {
    (v.VInt? && v.i > 0) || (v.VReal? && v.r > 0.0) || v == VBool(true)
  }

  /** A number at most zero (`False` counts as 0). */
  predicate IsNonPositive(v: Value) {
    (v.VInt? && v.i <= 0) || (v.VReal? && v.r <= 0.0) || v == VBool(false)
  }

  /** An optional file setting that is absent, falsy, or names an existing file. */
  predicate FileSettingHolds(config: ConfigDict, key: string, fileExists: string -> bool) {
    key !in config || !Truthy(config[key]) || (config[key].VStr? && fileExists(config[key].s))
  }

  /** What a configuration that passes validation looks like, independent of the order of the checks. */
  predicate IsValidConfig(config: ConfigDict, fileExists: string -> bool) {
    && "width" in config && "height" in config && "scale" in config
    && IsPositive(config["width"]) && IsPositive(config["height"]) && IsPositive(config["scale"])
    && FileSettingHolds(config, "css_file", fileExists)
    && FileSettingHolds(config, "puppeteer_config", fileExists)
  }

  /** A positivity check passes exactly on positive numbers and reports its message exactly on the others. */
  lemma CheckPositiveCases(v: Value, message: string)
    ensures CheckPositive(v, message).Pass? <==> IsPositive(v)
    ensures CheckPositive(v, message) == Fail(ValueError(message)) <==> IsNonPositive(v)
  {
  }

  lemma CheckOptionalFilePasses(config: ConfigDict, key: string, prefix: string, fileExists: string -> bool)
    ensures CheckOptionalFile(config, key, prefix, fileExists).Pass? <==> FileSettingHolds(config, key, fileExists)
  {
  }

  /** Validation succeeds, with `True`, exactly for the valid configurations. */
  lemma ValidateConfigSucceedsIff(config: ConfigDict, fileExists: string -> bool)
    ensures ValidateConfig(config, fileExists).Success? <==> IsValidConfig(config, fileExists)
    ensures ValidateConfig(config, fileExists).Success? ==> ValidateConfig(config, fileExists).value
  {
    if "width" in config && "height" in config && "scale" in config {
      CheckPositiveCases(config["width"], DimensionsMessage);
      CheckPositiveCases(config["height"], DimensionsMessage);
      CheckPositiveCases(config["scale"], ScaleMessage);
      CheckOptionalFilePasses(config, "css_file", CssMissingPrefix, fileExists);
      CheckOptionalFilePasses(config, "puppeteer_config", PuppeteerMissingPrefix, fileExists);
    }
  }

  /** The first missing required key is reported before any value is looked at. */
  lemma MissingKeyReportedFirst(config: ConfigDict, fileExists: string -> bool, n: nat)
    requires n < |RequiredKeys| && RequiredKeys[n] !in config
    requires forall m :: 0 <= m < n ==> RequiredKeys[m] in config
    ensures ValidateConfig(config, fileExists) == Failure(ValueError(MissingKeyMessage(RequiredKeys[n])))
  {
    if n > 0 { assert RequiredKeys[0] in config; }
    if n > 1 { assert RequiredKeys[1] in config; }
  }

  /** A width or height of zero or less is rejected, whatever the scale and the files. */
  lemma NonPositiveDimensionRejected(config: ConfigDict, fileExists: string -> bool)
    requires "width" in config && "height" in config && "scale" in config
    requires IsNonPositive(config["width"]) || (IsPositive(config["width"]) && IsNonPositive(config["height"]))
    ensures ValidateConfig(config, fileExists) == Failure(ValueError(DimensionsMessage))
  {
    CheckPositiveCases(config["width"], DimensionsMessage);
    CheckPositiveCases(config["height"], DimensionsMessage);
  }

  /** The scale is checked only once both dimensions pass. */
  lemma NonPositiveScaleRejected(config: ConfigDict, fileExists: string -> bool)
    requires "width" in config && "height" in config && "scale" in config
    requires IsPositive(config["width"]) && IsPositive(config["height"]) && IsNonPositive(config["scale"])
    ensures ValidateConfig(config, fileExists) == Failure(ValueError(ScaleMessage))
  {
    CheckPositiveCases(config["width"], DimensionsMessage);
    CheckPositiveCases(config["height"], DimensionsMessage);
    CheckPositiveCases(config["scale"], ScaleMessage);
  }

  /** A named stylesheet that does not exist is a file-not-found error. */
  lemma MissingStylesheetRejected(config: ConfigDict, fileExists: string -> bool, path: string)
    requires "width" in config && "height" in config && "scale" in config
    requires IsPositive(config["width"]) && IsPositive(config["height"]) && IsPositive(config["scale"])
    requires "css_file" in config && config["css_file"] == VStr(path) && path != "" && !fileExists(path)
    ensures ValidateConfig(config, fileExists) == Failure(FileNotFoundError(CssMissingPrefix + path))
  {
    CheckPositiveCases(config["width"], DimensionsMessage);
    CheckPositiveCases(config["height"], DimensionsMessage);
    CheckPositiveCases(config["scale"], ScaleMessage);
  }

  /** A named Puppeteer configuration that does not exist is a file-not-found error once the stylesheet passes. */
  lemma MissingPuppeteerConfigRejected(config: ConfigDict, fileExists: string -> bool, path: string)
    requires "width" in config && "height" in config && "scale" in config
    requires IsPositive(config["width"]) && IsPositive(config["height"]) && IsPositive(config["scale"])
    requires FileSettingHolds(config, "css_file", fileExists)
    requires "puppeteer_config" in config && config["puppeteer_config"] == VStr(path) && path != "" && !fileExists(path)
    ensures ValidateConfig(config, fileExists) == Failure(FileNotFoundError(PuppeteerMissingPrefix + path))
  {
    CheckPositiveCases(config["width"], DimensionsMessage);
    CheckPositiveCases(config["height"], DimensionsMessage);
    CheckPositiveCases(config["scale"], ScaleMessage);
    CheckOptionalFilePasses(config, "css_file", CssMissingPrefix, fileExists);
  }

  /** Two dictionaries that agree on `key`: both lack it or both hold the same value. */
  predicate AgreeOn(c1: ConfigDict, c2: ConfigDict, key: string) {
    (key in c1 <==> key in c2) && (key in c1 ==> c1[key] == c2[key])
  }

  /** Two dictionaries that agree on every setting `validate_config` reads. */
  predicate AgreeOnValidated(c1: ConfigDict, c2: ConfigDict) {
    && AgreeOn(c1, c2, "width") && AgreeOn(c1, c2, "height") && AgreeOn(c1, c2, "scale")
    && AgreeOn(c1, c2, "css_file") && AgreeOn(c1, c2, "puppeteer_config")
  }

  /** Validation depends on the validated settings only. */
  lemma ValidateConfigReadsOnly(c1: ConfigDict, c2: ConfigDict, fileExists: string -> bool)
    requires AgreeOnValidated(c1, c2)
    ensures ValidateConfig(c1, fileExists) == ValidateConfig(c2, fileExists)
  {
    CheckOptionalFileReadsOnly(c1, c2, "css_file", CssMissingPrefix, fileExists);
    CheckOptionalFileReadsOnly(c1, c2, "puppeteer_config", PuppeteerMissingPrefix, fileExists);
    if "width" in c1 && "height" in c1 && "scale" in c1 {
      assert c1["width"] == c2["width"] && c1["height"] == c2["height"] && c1["scale"] == c2["scale"];
    }
  }

  /** The check of one file setting reads that setting only. */
  lemma CheckOptionalFileReadsOnly(c1: ConfigDict, c2: ConfigDict, key: string, prefix: string, fileExists: string -> bool)
    requires AgreeOn(c1, c2, key)
    ensures CheckOptionalFile(c1, key, prefix, fileExists) == CheckOptionalFile(c2, key, prefix, fileExists)
  {
  }

  /** Validation never looks at `mermaid_config`. */
  lemma MermaidConfigNotChecked(config: ConfigDict, fileExists: string -> bool, v: Value)
    ensures ValidateConfig(config["mermaid_config" := v], fileExists) == ValidateConfig(config, fileExists)
  {
    ValidateConfigReadsOnly(config["mermaid_config" := v], config, fileExists);
  }

  /** Width 800, height 600, scale 1.0 and no stylesheet or Puppeteer file pass validation. */
  lemma DefaultSettingsValid(config: ConfigDict, fileExists: string -> bool)
    requires "width" in config && config["width"] == VInt(800)
    requires "height" in config && config["height"] == VInt(600)
    requires "scale" in config && config["scale"] == VReal(1.0)
    requires "css_file" in config && config["css_file"] == VNone
    requires "puppeteer_config" in config && config["puppeteer_config"] == VNone
    ensures ValidateConfig(config, fileExists) == Success(true)
  {
    assert FileSettingHolds(config, "css_file", fileExists) && FileSettingHolds(config, "puppeteer_config", fileExists);
    assert IsValidConfig(config, fileExists);
    ValidateConfigSucceedsIff(config, fileExists);
  }

  /** The configuration built from the scheme's defaults passes validation, whatever files exist. */
  lemma DefaultsPassValidation(fileExists: string -> bool)
    ensures ValidateConfig(Defaults(), fileExists) == Success(true)
  {
    DefaultSettingsValid(Defaults(), fileExists);
  }
}
