# mkdocs-mermaid-to-image in Dafny

A Dafny model of the core of the MkDocs plugin `mkdocs-mermaid-to-image`. The
plugin replaces each Mermaid diagram in a Markdown page with a link to a
rendered image. The model covers five parts:

- **`MermaidBlock`** (`blocks.dfy`, module `Blocks`). A diagram found in a page. It
  merges its attributes (`theme`, `background`, `width`, `height`) into the render
  configuration. It names its image file. It writes the Markdown that replaces it:
  the image link, relative to the page, and the original fenced block when
  `preserve_original` is set.
- **The helpers of `utils.py`** (`utils.dfy`, module `Utils`):
  - the deterministic image file name `<stem>_mermaid_<index>_<hash8>.<format>`;
  - the removal of a temporary file and of the generated images, on a
    `FileSystem` object that holds the set of existing paths and the paths whose
    removal raises;
  - the guard of `get_relative_path`.
- **`ConfigManager`** (`config.dfy`, module `Config`). The option scheme, with its
  names, types, choices and defaults. `validate_config`, read as an ordered series
  of checks that each raise `ValueError`, `FileNotFoundError` or `TypeError`.
- **The plugin object** (`plugin.dfy`, module `Plugin`). The class
  `MermaidToImagePlugin` has the fields `processor`, `generated_images` and `files`.
  Its hooks are `on_config`, `on_files`, `on_page_markdown` (via
  `_process_mermaid_diagrams`) and `on_post_build`. Each hook's outcome is also a
  function on values (`Initialise`, `PageMarkdown`, `ProcessDiagrams`, `PostBuild`),
  and the hook's `ensures` ties the new object state to that function. The
  properties are lemmas about those functions.
- **The exception hierarchy** (`exceptions.dfy`, module `Exceptions`). One record
  `MermaidError(kind, message, details)`. The kind names the class; every class is
  a `MermaidPreprocessorError`. The constructors build the `details` maps.
  `Raised` is what a call can raise through a hook: a plugin error or a Python
  built-in exception.

Two support modules model the Python built-ins the core relies on:

- `text.dfy` (`Text`): `str.strip`, `int()` in base 10 with underscores, `str(int)`
  and `", ".join`.
- `paths.dfy` (`Paths`): POSIX `pathlib` paths read as their sequence of parts:
  `parts`, `name`, `stem`, `parent`, `/` and `str()`.

`wrappers.dfy` holds `Option`, `Result` and `Outcome`.

What comes from outside the plugin is a parameter of the operation that uses it:

- MD5: `md5: string -> Digest`, with 32 hexadecimal digits.
- File existence during validation: `fileExists`.
- The process environment: `env`.
- `sys.argv`: the constructor's `argv`.
- The processor's page transformation: `process`.
- The construction of a `MermaidProcessor`: `construct`, the exception it raises, if any.
- The registration of images with MkDocs' files: `register`, the exception it raises, if any.
- `os.path.relpath`: `relpath`.
- The image generator: `generate`.

`plugin.py` imports `MermaidFileError` and `MermaidValidationError` from
`exceptions.py`, which does not define them. The model gives them the kinds
`FileError` and `ValidationError`, with an empty details map.

## Model

| member | source | states |
|---|---|---|
| Text.Strip | src/mkdocs_mermaid_to_image/mermaid_block.py:16 | `s.strip()` has no `isspace` character at either end and is no longer than `s` |
| Text.StripBy | src/mkdocs_mermaid_to_image/mermaid_block.py:16 | stripping by a set of white-space characters leaves no such character at either end and is no longer than the text |
| Text.StripInfix | src/mkdocs_mermaid_to_image/mermaid_block.py:16 | `s` is white space, then its strip, then white space |
| Text.StripPadded | src/mkdocs_mermaid_to_image/mermaid_block.py:16 | stripping white space `w1`, trimmed text `t` and white space `w2` gives back `t` |
| Text.StripIdempotent | src/mkdocs_mermaid_to_image/mermaid_block.py:16 | stripping twice is stripping once |
| Text.StripEmptyIff | src/mkdocs_mermaid_to_image/plugin.py:43 | a string strips to `""` exactly when it is all white space |
| Text.IntToString | src/mkdocs_mermaid_to_image/utils.py:20 | `str(i)` is non-empty and trimmed, ends in a digit, and has only digits apart from a leading minus sign |
| Text.NatToStringValue | src/mkdocs_mermaid_to_image/utils.py:20 | the digits of `str(n)` form a digit group whose value is `n` |
| Text.ParseInt | src/mkdocs_mermaid_to_image/mermaid_block.py:37-38 | `int()` in base 10: the white space it skips, an optional sign, then at most 4300 digits with single underscores between them; anything else raises `ValueError` (`None`). `ParseIntToString`, `ParseIntPadded`, `ParseIntRejectsSeparator`, `ParseIntRejectsTrimmed` and `ParseIntRejectsLongNumeral` state it |
| Text.ParseIntToString | src/mkdocs_mermaid_to_image/mermaid_block.py:38 | `int(str(i)) == i` exactly when `str(i)` has at most 4300 digits; a longer text raises `ValueError` |
| Text.IntToStringTrimmed | src/mkdocs_mermaid_to_image/mermaid_block.py:38 | `str(i)` has nothing at either end that `int()` would skip |
| Text.ParseIntPadded | src/mkdocs_mermaid_to_image/mermaid_block.py:38 | `int()` skips the white space it recognises (every `isspace` character but U+001C..U+001F): any integer's decimal text padded with it parses back to the integer, exactly when it has at most 4300 digits |
| Text.Pow10Digits | src/mkdocs_mermaid_to_image/mermaid_block.py:38 | `str(10^k)` has `k + 1` digits |
| Text.ParseIntRejectsLongNumeral | src/mkdocs_mermaid_to_image/mermaid_block.py:37-38 | `int(str(10^4300))` raises `ValueError`: 4301 digits exceed CPython's default limit |
| Text.ParseIntRejectsSeparator | src/mkdocs_mermaid_to_image/mermaid_block.py:37-38 | a U+001C..U+001F before or after a number is white space to `isspace`, yet `int()` raises `ValueError` |
| Text.ParseIntRejectsTrimmed | src/mkdocs_mermaid_to_image/mermaid_block.py:37-38 | a text with nothing for `int()` to skip raises `ValueError` once it holds a character other than digits, `_` and signs |
| Text.DigitGroupChars | src/mkdocs_mermaid_to_image/mermaid_block.py:38 | the digits `int()` accepts are decimal digits and underscores only |
| Text.ParseIntUnderscore | src/mkdocs_mermaid_to_image/mermaid_block.py:38 | `int("1_000") == 1000` |
| Text.ParseIntRejectsDoubleUnderscore | src/mkdocs_mermaid_to_image/mermaid_block.py:37-38 | `int("1__0")` raises `ValueError` |
| Text.ParseIntRejectsLetters | src/mkdocs_mermaid_to_image/mermaid_block.py:37-38 | `int("abc")` raises `ValueError` |
| Paths.Parts | src/mkdocs_mermaid_to_image/mermaid_block.py:51 | an absolute path's parts are the root followed by components; a relative path's parts are all components |
| Paths.PartsOfPathString | src/mkdocs_mermaid_to_image/mermaid_block.py:49-54 | reading back a path printed from parts gives the same parts |
| Paths.Name | src/mkdocs_mermaid_to_image/mermaid_block.py:56 | a path's `name` has no separator |
| Paths.NameOfPathString | src/mkdocs_mermaid_to_image/mermaid_block.py:56 | the name of a path printed from components is its last component |
| Paths.Stem | src/mkdocs_mermaid_to_image/utils.py:14 | the `stem` is a prefix of the `name`, without a separator |
| Paths.StemOfFileName | src/mkdocs_mermaid_to_image/utils.py:14 | the stem of a plain file name `<base>.<ext>` is `<base>` |
| Paths.JoinPath | src/mkdocs_mermaid_to_image/plugin.py:137 | `docs_dir / output_dir`; `JoinPathParts` gives its parts |
| Paths.JoinPathParts | src/mkdocs_mermaid_to_image/plugin.py:137 | the parts of `a / b` are those of `b` when it is absolute, otherwise those of `a` followed by those of `b` |
| Paths.ParentDepth | src/mkdocs_mermaid_to_image/mermaid_block.py:58-59 | the parent of a relative path of `n` components has `n - 1` parts |
| Exceptions.Str | src/mkdocs_mermaid_to_image/exceptions.py:32-43 | `str(e)`: the message given to the exception; a `KeyError` prints its key between single quotes. `InitError` and `Escalate` build their messages from it |
| Exceptions.IsInstance | src/mkdocs_mermaid_to_image/exceptions.py:45-124 | every error is a `MermaidPreprocessorError` and an instance of its own class, and of no other |
| Exceptions.NewPreprocessorError | src/mkdocs_mermaid_to_image/exceptions.py:32-42 | the message is kept; missing details become the empty map |
| Exceptions.NewCLIError | src/mkdocs_mermaid_to_image/exceptions.py:61-81 | the details have exactly the keys `command`, `return_code` and `stderr`, holding the arguments |
| Exceptions.NewConfigError | src/mkdocs_mermaid_to_image/exceptions.py:101-121 | the details have exactly the keys `config_key`, `config_value` and `suggestion`, holding the arguments |
| Exceptions.TruncateCode | src/mkdocs_mermaid_to_image/exceptions.py:158-161 | code over 200 characters is kept as its first 200 and `...` (203 characters); shorter code and `None` are kept as they are |
| Exceptions.TruncateCodeIdempotent | src/mkdocs_mermaid_to_image/exceptions.py:158-161 | truncating stored code again changes nothing |
| Exceptions.NewParsingError | src/mkdocs_mermaid_to_image/exceptions.py:140-162 | the details have exactly the keys `source_file`, `line_number` and `mermaid_code`, the code truncated |
| Exceptions.NewFileError | src/mkdocs_mermaid_to_image/plugin.py:74-86 | a file error with the given message |
| Exceptions.NewValidationError | src/mkdocs_mermaid_to_image/plugin.py:184-188 | a validation error with the given message |
| Config.Get | src/mkdocs_mermaid_to_image/plugin.py:38 | `config.get(key, d)` is the stored value when the key is present, `d` otherwise |
| Config.SchemeNames | src/mkdocs_mermaid_to_image/config.py:9-86 | the scheme declares its 20 options in the source's order |
| Config.SchemeNamesDistinct | src/mkdocs_mermaid_to_image/config.py:9-86 | no option name is declared twice |
| Config.SchemeDefaultsAdmitted | src/mkdocs_mermaid_to_image/config.py:9-86 | every default has its option's type, and every choice default is one of its choices |
| Config.Defaults | src/mkdocs_mermaid_to_image/config.py:9-86 | the dictionary of the scheme's defaults; `DefaultsFollowScheme`, `DefaultsWellTyped` and `DefaultsPassValidation` state it |
| Config.DefaultsFollowScheme | src/mkdocs_mermaid_to_image/config.py:9-86 | the defaults dictionary holds every option at the default the scheme declares |
| Config.DefaultsWellTyped | src/mkdocs_mermaid_to_image/config.py:9-86 | the defaults dictionary is admitted by the scheme |
| Config.SchemeChoices | src/mkdocs_mermaid_to_image/config.py:23-40 | `image_format` is `png` or `svg` (default `png`); `theme` is one of four (default `default`); `log_level` is one of four (default `INFO`) |
| Config.AtMostZero | src/mkdocs_mermaid_to_image/config.py:96-100 | `v <= 0` is defined exactly for numbers and booleans, where it holds exactly for values at most zero (`False` as 0); any other value raises `TypeError` |
| Config.PathExists | src/mkdocs_mermaid_to_image/config.py:106 | `Path(v).exists()` is defined exactly for strings, and then it is the file system's answer |
| Config.ValidateConfig | src/mkdocs_mermaid_to_image/config.py:89-119 | validation either raises or returns `True` |
| Config.CheckPositive | src/mkdocs_mermaid_to_image/config.py:96-100 | `if v <= 0: raise ValueError(message)`; `CheckPositiveCases` gives when it passes and when it raises its message |
| Config.CheckOptionalFile | src/mkdocs_mermaid_to_image/config.py:103-117 | the check of `css_file` or `puppeteer_config`; `CheckOptionalFilePasses` gives when it passes and `MissingStylesheetRejected` what it raises |
| Config.IsValidConfig | src/mkdocs_mermaid_to_image/config.py:89-119 | the valid configurations, stated without the order of the checks; `ValidateConfigSucceedsIff` ties them to `validate_config` |
| Config.CheckPositiveCases | src/mkdocs_mermaid_to_image/config.py:96-100 | a positivity check passes exactly on positive numbers, and reports its message exactly on numbers at most zero |
| Config.CheckOptionalFilePasses | src/mkdocs_mermaid_to_image/config.py:103-117 | a file setting passes exactly when it is absent, falsy, or names an existing file |
| Config.ValidateConfigSucceedsIff | src/mkdocs_mermaid_to_image/config.py:89-119 | validation succeeds exactly when the three keys are present, all three values are positive, and both file settings hold |
| Config.MissingKeyReportedFirst | src/mkdocs_mermaid_to_image/config.py:91-94 | the first missing key of `width`, `height`, `scale` is reported before any value is checked |
| Config.NonPositiveDimensionRejected | src/mkdocs_mermaid_to_image/config.py:96-97 | a width or height at most zero raises the dimensions message, whatever the rest |
| Config.NonPositiveScaleRejected | src/mkdocs_mermaid_to_image/config.py:99-100 | a scale at most zero raises the scale message once both dimensions pass |
| Config.MissingStylesheetRejected | src/mkdocs_mermaid_to_image/config.py:103-108 | a named `css_file` that does not exist raises `FileNotFoundError("CSS file not found: <path>")` |
| Config.MissingPuppeteerConfigRejected | src/mkdocs_mermaid_to_image/config.py:110-117 | a named `puppeteer_config` that does not exist raises the Puppeteer message once the stylesheet passes |
| Config.ValidateConfigReadsOnly | src/mkdocs_mermaid_to_image/config.py:89-119 | two dictionaries that agree on the five validated settings validate alike |
| Config.MermaidConfigNotChecked | src/mkdocs_mermaid_to_image/config.py:103-117 | the value of `mermaid_config` never changes the outcome of validation |
| Config.DefaultSettingsValid | src/mkdocs_mermaid_to_image/config.py:89-119 | width 800, height 600, scale 1.0 and no files pass validation |
| Config.DefaultsPassValidation | src/mkdocs_mermaid_to_image/config.py:42-47 | the all-defaults configuration passes validation, whatever files exist |
| Utils.GenerateImageFilename | src/mkdocs_mermaid_to_image/utils.py:11-20 | `<stem>_mermaid_<index>_<hash8>.<format>`; `DecodeGenerated` reads it back into its four pieces, `FirstBlockName` and `HashDependsOnCodeOnly` state its shape |
| Utils.CodeHash | src/mkdocs_mermaid_to_image/utils.py:16-18 | the hash part is eight hexadecimal digits |
| Utils.DecodeImageFilename | src/mkdocs_mermaid_to_image/utils.py:20 | a decoded name has a format without a dot and a hash without an underscore |
| Utils.DecodeParts | src/mkdocs_mermaid_to_image/utils.py:20 | `<stem>_mermaid_<digits>_<hash>.<format>` reads back as those pieces when digits and hash hold no `_` or `.` and the format no `.` |
| Utils.FirstBlockName | src/mkdocs_mermaid_to_image/utils.py:14-20 | the first block of a page is named `<stem>_mermaid_0_<hash>.<format>` |
| Utils.DecodeGenerated | src/mkdocs_mermaid_to_image/utils.py:11-20 | reading a generated name back gives the page's stem, the block index, the hash and the format when the format has no dot, exactly when `int()` can read the index back (at most 4300 digits) |
| Utils.HashDependsOnCodeOnly | src/mkdocs_mermaid_to_image/utils.py:16-18 | names generated from the same code carry the same eight-digit hash, whatever the page, format and index (one `str()` can print) |
| Utils.TestPageFilename | src/mkdocs_mermaid_to_image/utils.py:14-20 | the first block of `test.md` as PNG is named `test_mermaid_0_<hash>.png` |
| Utils.TestPageStem | src/mkdocs_mermaid_to_image/utils.py:14 | the stem of `test.md` is `test` |
| Utils.FileSystem.Unlink | src/mkdocs_mermaid_to_image/utils.py:44 | an existing file is removed, or its recorded failure is raised and nothing changes |
| Utils.FileSystem.RemoveTree | src/mkdocs_mermaid_to_image/plugin.py:234 | the directory and every path below it are gone, and nothing else changes |
| Utils.AfterTempClean | src/mkdocs_mermaid_to_image/utils.py:35-68 | at most the given path is removed; it is gone unless it is empty or cannot be removed |
| Utils.TempCleanWarning | src/mkdocs_mermaid_to_image/utils.py:45-68 | the permission or OS-error warning of `clean_temp_file`, ending with the path |
| Utils.CleanTempFile | src/mkdocs_mermaid_to_image/utils.py:35-68 | the file system is left as `AfterTempClean` says; a warning is returned exactly when removal raised, and no error escapes |
| Utils.Deletable | src/mkdocs_mermaid_to_image/utils.py:111-120 | only existing paths are deleted |
| Utils.CleanupStep | src/mkdocs_mermaid_to_image/utils.py:111-157 | one more entry removes and counts it, counts an error, or skips it, by whether it is empty, present and removable |
| Utils.RemovalWarning | src/mkdocs_mermaid_to_image/utils.py:128-157 | the permission or OS-error warning of one failed image removal, ending with the path |
| Utils.SummaryMessage | src/mkdocs_mermaid_to_image/utils.py:159-160 | `Image cleanup: <cleaned> cleaned, <errors> errors`; `CleanGeneratedImages` states when it is logged |
| Utils.CleanupWarnings | src/mkdocs_mermaid_to_image/utils.py:127-157 | one warning per failed removal, so as many as `FailedRemovals` counts |
| Utils.CleanGeneratedImages | src/mkdocs_mermaid_to_image/utils.py:101-160 | the loop removes exactly the deletable listed paths and counts them and the failures; with a logger it returns the per-image permission or OS-error warnings in list order, and the summary exactly when some file was cleaned or failed |
| Utils.CleanupCountsBounded | src/mkdocs_mermaid_to_image/utils.py:108-146 | cleaned plus errors never exceeds the length of the list |
| Utils.CleanupTouchesListedOnly | src/mkdocs_mermaid_to_image/utils.py:111-157 | a path not in the list is still present after the cleanup exactly when it was before |
| Utils.CleanupOfEmptyEntries | src/mkdocs_mermaid_to_image/utils.py:105-113 | an empty list, or one of empty entries, removes nothing and counts nothing |
| Utils.DuplicateCleanedOnce | src/mkdocs_mermaid_to_image/utils.py:111-157 | in any list holding a path at two positions, dropping the second entry changes neither what is removed nor the cleaned count; a path that cannot be removed is counted as an error once per entry |
| Utils.FailedRemovalsConcat | src/mkdocs_mermaid_to_image/utils.py:111-157 | the failures of two lists in a row add up |
| Utils.GetRelativePath | src/mkdocs_mermaid_to_image/utils.py:71-94 | an empty argument returns `file_path` unchanged; otherwise `relpath`'s result, or `file_path` when it raises |
| Blocks.Lookup | src/mkdocs_mermaid_to_image/mermaid_block.py:32-41 | an attribute is found exactly when some pair has its key, and the value found is that pair's |
| Blocks.NewMermaidBlock | src/mkdocs_mermaid_to_image/mermaid_block.py:9-19 | the code is stored stripped, the positions as given, and missing attributes as none |
| Blocks.NewMermaidBlockStable | src/mkdocs_mermaid_to_image/mermaid_block.py:16 | rebuilding a block from its own fields gives the same block exactly when its code is already stripped |
| Blocks.Override | src/mkdocs_mermaid_to_image/mermaid_block.py:30-41 | an override sets one key when it has a value, and leaves every other key as it was |
| Blocks.TextOverride | src/mkdocs_mermaid_to_image/mermaid_block.py:32-35 | a text attribute sets its value exactly when it is present |
| Blocks.SizeOverride | src/mkdocs_mermaid_to_image/mermaid_block.py:36-41 | a size attribute sets its integer exactly when it is present and `int()` accepts it (so not past 4300 digits, see `MergedConfigIgnoresLongSize`, and not when an information separator U+001C..U+001F pads it, see `MergedConfigIgnoresSeparatedSize`) |
| Blocks.MergedConfig | src/mkdocs_mermaid_to_image/mermaid_block.py:30-41 | the copy of `config` with the block's overrides; `MergedConfigSpec` gives it key by key |
| Blocks.MergedConfigSpec | src/mkdocs_mermaid_to_image/mermaid_block.py:30-41 | at each key, the merged configuration holds the valid override, or else the caller's value |
| Blocks.MergedConfigKeepsOthers | src/mkdocs_mermaid_to_image/mermaid_block.py:30-41 | keys other than `theme`, `background_color`, `width` and `height` come through unchanged, and none is added or dropped |
| Blocks.MergedConfigRenames | src/mkdocs_mermaid_to_image/mermaid_block.py:32-35 | `theme` sets `theme`; `background` sets `background_color` and adds no `background` key |
| Blocks.MergedConfigIgnoresBadSize | src/mkdocs_mermaid_to_image/mermaid_block.py:36-41 | a size attribute that is not an integer leaves the caller's value, or its absence, as it was |
| Blocks.MergedConfigIgnoresSeparatedSize | src/mkdocs_mermaid_to_image/mermaid_block.py:36-41 | a size such as `"\x1c800"` is no integer to `int()`: the caller's value, or its absence, stays |
| Blocks.MergedConfigParsesSize | src/mkdocs_mermaid_to_image/mermaid_block.py:36-41 | a size attribute written as an integer of at most 4300 digits sets that integer; a longer one leaves the caller's value, or its absence |
| Blocks.MergedConfigIgnoresLongSize | src/mkdocs_mermaid_to_image/mermaid_block.py:36-41 | a width or height of `str(10^4300)` is suppressed as a `ValueError`: the caller's value, or its absence, stays |
| Blocks.GenerateImage | src/mkdocs_mermaid_to_image/mermaid_block.py:27-44 | the generator's verdict on the code and `MergedConfig`; `GenerateImageReadsRecognisedAttributes` states what it depends on |
| Blocks.GenerateImageReadsRecognisedAttributes | src/mkdocs_mermaid_to_image/mermaid_block.py:27-44 | blocks with the same code and the same four recognised attributes render alike, whatever their other attributes |
| Blocks.PartIndex | src/mkdocs_mermaid_to_image/mermaid_block.py:52 | `parts.index(x)` is the first position holding `x` |
| Blocks.ImageSitePath | src/mkdocs_mermaid_to_image/mermaid_block.py:49-56 | the image's path in the site; `SitePathAfterDocs` and `SitePathWithoutDocs` give its two cases |
| Blocks.SitePathAfterDocs | src/mkdocs_mermaid_to_image/mermaid_block.py:51-54 | an image under a `docs` part is linked by the parts after the first `docs` |
| Blocks.SitePathWithoutDocs | src/mkdocs_mermaid_to_image/mermaid_block.py:55-56 | an image outside any `docs` part is linked as `assets/images/` followed by its name |
| Blocks.PageDepth | src/mkdocs_mermaid_to_image/mermaid_block.py:58-59 | the number of parent parts of the page; `PageDepthOf` gives it for a page below `n` directories |
| Blocks.PageDepthOf | src/mkdocs_mermaid_to_image/mermaid_block.py:58-59 | a page below `n` directories has depth `n`; a top-level page has depth 0 |
| Blocks.RelativeImagePath | src/mkdocs_mermaid_to_image/mermaid_block.py:58-64 | the image's path seen from the page; `RelativeImagePathSteps` and `RelativePathDepth` state it |
| Blocks.RelativeImagePathSteps | src/mkdocs_mermaid_to_image/mermaid_block.py:61-64 | the relative path is one `../` per level of depth, then the site path |
| Blocks.RelativePathDepth | src/mkdocs_mermaid_to_image/mermaid_block.py:58-64 | a page `d1/.../dn/page` links its images through `n` steps `../`; a top-level page through none |
| Blocks.GetImageMarkdown | src/mkdocs_mermaid_to_image/mermaid_block.py:46-77 | the image link, followed by the original block when it is preserved; `MarkdownModes` states both modes |
| Blocks.MarkdownModes | src/mkdocs_mermaid_to_image/mermaid_block.py:66-77 | without `preserve_original` the result is exactly the image link; with it, the link, a blank line and the original block |
| Blocks.OriginalBlock | src/mkdocs_mermaid_to_image/mermaid_block.py:68-73 | the re-emitted fenced block; `OriginalBlockRoundTrip` and `OpeningFenceSingleLine` state its lines |
| Blocks.OpeningFenceSingleLine | src/mkdocs_mermaid_to_image/mermaid_block.py:70-71 | attributes without line breaks give an opening fence of one line |
| Blocks.OriginalBlockRoundTrip | src/mkdocs_mermaid_to_image/mermaid_block.py:68-75 | the re-emitted block's first line is the opening fence, plain when there are no attributes; exactly the code lies between that line and the closing fence |
| Blocks.GetFilename | src/mkdocs_mermaid_to_image/mermaid_block.py:79-80 | the image name of the block's code; `FilenameIgnoresPadding` states that only the stripped code counts |
| Blocks.FilenameIgnoresPadding | src/mkdocs_mermaid_to_image/mermaid_block.py:79-80 | the image is named from the stripped code: white space around the code does not change the name |
| Plugin.WellTypedHookOptions | src/mkdocs_mermaid_to_image/config.py:15-67 | in a configuration the scheme admits, `enabled_if_env` is a string or `None`, and `output_dir` and `cache_dir` are strings |
| Plugin.ShouldBeEnabled | src/mkdocs_mermaid_to_image/plugin.py:36-46 | `_should_be_enabled`; `EnabledByEnvironment` and `EnabledBySwitch` give its two cases |
| Plugin.EnabledByEnvironment | src/mkdocs_mermaid_to_image/plugin.py:38-43 | with `enabled_if_env` naming a variable, the plugin is on exactly when that variable is set to something other than white space, whatever `enabled` says |
| Plugin.EnabledBySwitch | src/mkdocs_mermaid_to_image/plugin.py:45-46 | without `enabled_if_env`, the plugin is on exactly when `enabled` is absent or truthy |
| Plugin.FaultRaised | src/mkdocs_mermaid_to_image/plugin.py:51 | a validation failure is raised as the same Python exception (`ValueError`, `FileNotFoundError` or `TypeError`, each exactly for its own kind of failure), with the same message |
| Plugin.InitError | src/mkdocs_mermaid_to_image/plugin.py:67-90 | `on_config` raises only configuration and file errors: those two pass unchanged, a missing file and other file-system errors become file errors with their prefixes, any other plugin error (such as a CLI or image error) and anything else a configuration error with the prefix `Plugin configuration error: ` |
| Plugin.ProcessorOptions | src/mkdocs_mermaid_to_image/plugin.py:50-55 | the processor's options are the plugin's; outside verbose mode `log_level` is `WARNING` |
| Plugin.Initialise | src/mkdocs_mermaid_to_image/plugin.py:48-92 | the outcome of `on_config`; `InvalidConfigFailsInitialise`, `DisabledInitialise`, `EnabledInitialise`, `NonPositiveWidthFailsInitialise` and `MissingStylesheetFailsInitialise` state it |
| Plugin.InvalidConfigFailsInitialise | src/mkdocs_mermaid_to_image/plugin.py:49-61 | an invalid configuration fails `on_config` even when the plugin is disabled; it is a file error exactly when a file was missing |
| Plugin.DisabledInitialise | src/mkdocs_mermaid_to_image/plugin.py:59-61 | a disabled plugin with a valid configuration builds no processor and raises nothing |
| Plugin.EnabledInitialise | src/mkdocs_mermaid_to_image/plugin.py:50-63 | an enabled plugin with a valid configuration builds its processor from the options, with `log_level` `WARNING` outside verbose mode |
| Plugin.NonPositiveWidthFailsInitialise | src/mkdocs_mermaid_to_image/plugin.py:87-90 | a width at most zero surfaces as `MermaidConfigError("Plugin configuration error: Width and height must be positive integers")` |
| Plugin.MissingStylesheetFailsInitialise | src/mkdocs_mermaid_to_image/plugin.py:71-78 | a missing stylesheet surfaces as a file error whose message names it |
| Plugin.Escalate | src/mkdocs_mermaid_to_image/plugin.py:161-195 | in strict mode every failure is raised as a plugin error: the plugin's own unchanged, file-system errors as file errors, `ValueError` as a validation error, anything else as `Unexpected error` |
| Plugin.HandlePageFailure | src/mkdocs_mermaid_to_image/plugin.py:161-195 | the page unchanged, or the error `Escalate` gives, by `error_on_fail`; `ProcessDiagramsOutcome` and `PluginErrorsReraised` state it |
| Plugin.ProcessDiagrams | src/mkdocs_mermaid_to_image/plugin.py:127-195 | `_process_mermaid_diagrams`; `ProcessDiagramsOutcome` and `ProcessDiagramsRecords` state its result and the images it records |
| Plugin.ProcessDiagramsOutcome | src/mkdocs_mermaid_to_image/plugin.py:127-195 | success gives the processor's content; on any failure, the page is unchanged when `error_on_fail` is falsy, and a plugin error is raised when it is truthy |
| Plugin.ProcessDiagramsRecords | src/mkdocs_mermaid_to_image/plugin.py:139-149 | the images the processor wrote are recorded, in order, even when their registration raises; nothing is recorded otherwise |
| Plugin.PluginErrorsReraised | src/mkdocs_mermaid_to_image/plugin.py:161-165 | in strict mode a plugin error from the processor is raised as it is |
| Plugin.PageMarkdown | src/mkdocs_mermaid_to_image/plugin.py:197-215 | `on_page_markdown`; `PagesUntouchedWhenSkipped` states that it leaves the page as it is and records no image when the plugin is disabled, in serve mode, or without a processor |
| Plugin.PagesUntouchedWhenSkipped | src/mkdocs_mermaid_to_image/plugin.py:197-209 | a disabled plugin, serve mode or a missing processor leaves the page unchanged and records no image |
| Plugin.AfterImageCleanup | src/mkdocs_mermaid_to_image/plugin.py:227-229 | only listed images are removed, and only when `cleanup_generated_images` is set and some image was generated |
| Plugin.WithoutTree | src/mkdocs_mermaid_to_image/plugin.py:231-234 | removing a tree leaves no path at or below it, and every other path |
| Plugin.PostBuild | src/mkdocs_mermaid_to_image/plugin.py:217-236 | `on_post_build`; `PostBuildKeepsOtherFiles`, `PostBuildRemovesCache` and `PostBuildKeepsCache` state what it removes |
| Plugin.PostBuildKeepsOtherFiles | src/mkdocs_mermaid_to_image/plugin.py:217-236 | the end of the build removes nothing but generated images and the cache tree |
| Plugin.PostBuildRemovesCache | src/mkdocs_mermaid_to_image/plugin.py:231-234 | with caching off, an existing cache directory and everything below it are removed |
| Plugin.PostBuildKeepsCache | src/mkdocs_mermaid_to_image/plugin.py:217-231 | a disabled plugin changes no file; with caching on, only the image cleanup changes files |
| Plugin.WatchedDirectory | src/mkdocs_mermaid_to_image/plugin.py:238-247 | a directory is watched only when the plugin is on, caching is on, and the cache directory exists |
| Plugin.MermaidToImagePlugin.constructor | src/mkdocs_mermaid_to_image/plugin.py:27-34 | no processor, no images, no files; serve and verbose mode read from `argv` |
| Plugin.MermaidToImagePlugin.OnConfig | src/mkdocs_mermaid_to_image/plugin.py:48-92 | raises what `Initialise` raises; the processor changes only when one is built |
| Plugin.MermaidToImagePlugin.OnFiles | src/mkdocs_mermaid_to_image/plugin.py:94-102 | the files are returned as given; they are kept and the image list is reset exactly when the plugin is on and has a processor |
| Plugin.MermaidToImagePlugin.ProcessMermaidDiagrams | src/mkdocs_mermaid_to_image/plugin.py:127-195 | returns what `ProcessDiagrams` says and appends its images to `generated_images` |
| Plugin.MermaidToImagePlugin.OnPageMarkdown | src/mkdocs_mermaid_to_image/plugin.py:197-215 | returns what `PageMarkdown` says and appends its images to `generated_images` |
| Plugin.MermaidToImagePlugin.OnPostBuild | src/mkdocs_mermaid_to_image/plugin.py:217-236 | raises what `PostBuild` says, and leaves the file system as it says |

## Left out

- Logging: the `logging_config` module and every log call. Only three kinds of message are kept, because they are the visible result of the cleanup helpers: the warning of `clean_temp_file`, the per-image warnings of `clean_generated_images` and its summary. The rest do not change what any operation returns. The `extra` context of a log call is not kept.
- `MermaidProcessor`, the fence parser, the cache and the image generator are not part of this model. They are the parameters `process`, `construct` and `generate`.
- `_register_generated_images_to_files`: its effect on `files` (the `File` objects it appends) is left out. Only whether it raises is kept, as `register`.
- `on_serve`: the call to `server.watch` is an effect on MkDocs' server. `WatchedDirectory` states which directory it watches.
- `ensure_directory`, `get_temp_file_path` and `is_command_available`: these are operating-system calls.
- The `os.path.relpath` branch of `get_relative_path` is the parameter `relpath`.
- MD5 itself is the parameter `md5`.
- `int()` accepts digits from other Unicode scripts as well. The model accepts ASCII digits only.
- The digit limit is CPython's default, 4300 (`sys.int_info.default_max_str_digits`). Changing it with `sys.set_int_max_str_digits` or `PYTHONINTMAXSTRDIGITS` is not modelled.
- Text.IntToString: prints every integer. CPython's `str()` raises `ValueError` past 4300 digits. The source prints only block indices and cleanup counts, which never come near that.
- Utils.GenerateImageFilename: a block index of more than 4300 digits would make `str()` raise. The model still builds a name. `DecodeGenerated` and `HashDependsOnCodeOnly` speak only of indices that `str()` can print.
- Config.AtMostZero: `scale` is a `real`, without NaN or the infinities. MkDocs' `Type(float)` admits a YAML `.nan`, and `nan <= 0` is `False`, so Python accepts a NaN scale.
- Config.ValidateConfigSucceedsIff: "all three values positive" is stated over reals. A NaN scale, which is not positive, still passes `validate_config` in Python. The model cannot express it.
- `Path.exists()` can raise. The model's existence checks never do.
- `shutil.rmtree` can raise. `RemoveTree` always succeeds.
- Paths are POSIX paths. A path with a doubled leading slash, which `pathlib` keeps as its root, is not modelled.
- The file system compares paths as the strings given. It does not normalise them.
- Attribute values are strings; the fence parser that produces them is not part of this model.
- `MermaidFileError` and `MermaidValidationError` are not defined in `exceptions.py`. Their keyword arguments (`file_path`, `operation`, `suggestion`, `validation_type`, `invalid_value`) are not kept in their details.
- Plugin.MermaidToImagePlugin.constructor: `self.config` is given to the constructor, where MkDocs sets it after `__init__`. The constructor requires the scheme to admit it, as MkDocs' validation ensures.
