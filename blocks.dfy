/**
 * `MermaidBlock`: one Mermaid diagram found in a page. It merges its own
 * attributes into the render configuration, names its image file, and writes
 * the Markdown that replaces it (an image link, optionally followed by the
 * original fenced block).
 */
module Blocks {
  import opened Wrappers
  import opened Text
  import opened Paths
  import opened Config
  import opened Utils

  /** A block's attributes in the order they were written, as the attribute dictionary keeps them. */
  type Attributes = seq<(string, string)>

  /** No key appears twice, as in a dictionary. */
  predicate UniqueKeys(attrs: Attributes) {
    forall i, j :: 0 <= i < j < |attrs| ==> attrs[i].0 != attrs[j].0
  }

  /** `attrs[key]`, or `None` when `key not in attrs`. */
  function Lookup(attrs: Attributes, key: string): (r: Option<string>)
    ensures r.Some? <==> exists i :: 0 <= i < |attrs| && attrs[i].0 == key
    ensures r.Some? ==> exists i :: 0 <= i < |attrs| && attrs[i] == (key, r.value)
  {
    if attrs == [] then None
    else if attrs[0].0 == key then Some(attrs[0].1)
    else
      var r := Lookup(attrs[1..], key);
      assert r.Some? ==> exists i :: 0 <= i < |attrs[1..]| && attrs[1..][i] == (key, r.value);
      assert (exists i :: 0 <= i < |attrs[1..]| && attrs[1..][i].0 == key) <==> (exists i :: 0 < i < |attrs| && attrs[i].0 == key) by {
        forall i | 0 < i < |attrs| ensures attrs[1..][i - 1] == attrs[i] { }
      }
      r
  }

  datatype MermaidBlock = MermaidBlock(code: string, startPos: int, endPos: int, attributes: Attributes)

  /** `MermaidBlock(code, start_pos, end_pos, attributes)`: the code is stored stripped, missing attributes as none. */
  function NewMermaidBlock(code: string, startPos: int, endPos: int, attributes: Option<Attributes>): (b: MermaidBlock)
    requires attributes.Some? ==> UniqueKeys(attributes.value)
    ensures b.code == Strip(code) && Trimmed(b.code, IsSpace)
    ensures b.startPos == startPos && b.endPos == endPos
    ensures b.attributes == (if attributes.Some? then attributes.value else [])
    ensures UniqueKeys(b.attributes)
  {
    MermaidBlock(Strip(code), startPos, endPos, if attributes.Some? then attributes.value else [])
  }

  /** Building a block from an already stored code keeps it as it is. */
  lemma NewMermaidBlockStable(b: MermaidBlock)
    requires UniqueKeys(b.attributes)
    ensures NewMermaidBlock(b.code, b.startPos, b.endPos, Some(b.attributes)) == b
          <==> Trimmed(b.code, IsSpace)
  {
    if Trimmed(b.code, IsSpace) { StripTrimmed(b.code, IsSpace); }
  }

  // ----- generate_image -----

  /** `m[key] = v` when there is a `v`, else `m`. */
  function Override(m: ConfigDict, key: string, v: Option<Value>): (r: ConfigDict)
    ensures forall k :: k in r <==> k in m || (k == key && v.Some?)
    ensures forall k :: k in r ==> r[k] == if k == key && v.Some? then v.value else m[k]
  {
    if v.Some? then m[key := v.value] else m
  }

  /** The value a text attribute sets: the attribute itself, when present. */
  function TextOverride(attrs: Attributes, attribute: string): (v: Option<Value>)
    ensures v.Some? <==> Lookup(attrs, attribute).Some?
    ensures v.Some? ==> v == Some(VStr(Lookup(attrs, attribute).value))
  {
    match Lookup(attrs, attribute)
    case Some(t) => Some(VStr(t))
    case None => None
  }

  /** The value a size attribute sets: its integer, when present and `int()` accepts it (a `ValueError` is suppressed). */
  function SizeOverride(attrs: Attributes, attribute: string): (v: Option<Value>)
    ensures v.Some? <==> Lookup(attrs, attribute).Some? && ParseInt(Lookup(attrs, attribute).value).Some?
    ensures v.Some? ==> v == Some(VInt(ParseInt(Lookup(attrs, attribute).value).value))
  {
    match Lookup(attrs, attribute)
    case Some(w) => (match ParseInt(w) case Some(n) => Some(VInt(n)) case None => None)
    case None => None
  }

  /** The render configuration `generate_image` hands to the generator: a copy of `config` with the block's overrides, in the source's order. */
  function MergedConfig(config: ConfigDict, attrs: Attributes): ConfigDict {
    var withTheme := Override(config, "theme", TextOverride(attrs, "theme"));
    var withBackground := Override(withTheme, "background_color", TextOverride(attrs, "background"));
    var withWidth := Override(withBackground, "width", SizeOverride(attrs, "width"));
    Override(withWidth, "height", SizeOverride(attrs, "height"))
  }

  /** The keys a block's attributes can override. */
  predicate IsOverridable(key: string) {
    key == "theme" || key == "background_color" || key == "width" || key == "height"
  }

  /** The override the block's attributes make at `key`, if any. */
  function OverrideAt(attrs: Attributes, key: string): Option<Value> {
    if key == "theme" then TextOverride(attrs, "theme")
    else if key == "background_color" then TextOverride(attrs, "background")
    else if key == "width" || key == "height" then SizeOverride(attrs, key)
    else None
  }

  /** What the merged configuration holds at `key`: the override when there is a valid one, otherwise the caller's value. */
  function MergedAt(config: ConfigDict, attrs: Attributes, key: string): Option<Value> {
    if OverrideAt(attrs, key).Some? then OverrideAt(attrs, key)
    else if key in config then Some(config[key])
    else None
  }

  /** The merged configuration is, key by key, what `MergedAt` says. */
  lemma MergedConfigSpec(config: ConfigDict, attrs: Attributes, key: string)
    ensures key in MergedConfig(config, attrs) <==> MergedAt(config, attrs, key).Some?
    ensures key in MergedConfig(config, attrs) ==> MergedConfig(config, attrs)[key] == MergedAt(config, attrs, key).value
  {
    var withTheme := Override(config, "theme", TextOverride(attrs, "theme"));
    var withBackground := Override(withTheme, "background_color", TextOverride(attrs, "background"));
    var withWidth := Override(withBackground, "width", SizeOverride(attrs, "width"));
    assert MergedConfig(config, attrs) == Override(withWidth, "height", SizeOverride(attrs, "height"));
    if key == "height" {
    } else if key == "width" {
      assert key != "height";
    } else if key == "background_color" {
      assert key != "height" && key != "width";
    } else if key == "theme" {
      assert key != "height" && key != "width" && key != "background_color";
    } else {
      assert !IsOverridable(key);
    }
  }

  /** Keys other than the four overridable ones come through unchanged, and nothing is dropped. */
  lemma MergedConfigKeepsOthers(config: ConfigDict, attrs: Attributes, key: string)
    requires !IsOverridable(key)
    ensures key in MergedConfig(config, attrs) <==> key in config
    ensures key in config ==> MergedConfig(config, attrs)[key] == config[key]
  {
    MergedConfigSpec(config, attrs, key);
  }

  /** A `theme` attribute sets `theme`; a `background` attribute sets `background_color`. */
  lemma MergedConfigRenames(config: ConfigDict, attrs: Attributes, t: string)
    ensures Lookup(attrs, "theme") == Some(t) ==> MergedConfig(config, attrs)["theme"] == VStr(t)
    ensures Lookup(attrs, "background") == Some(t) ==> MergedConfig(config, attrs)["background_color"] == VStr(t)
    ensures Lookup(attrs, "background").Some? && "background" !in config ==> "background" !in MergedConfig(config, attrs)
  {
    MergedConfigSpec(config, attrs, "theme");
    MergedConfigSpec(config, attrs, "background_color");
    MergedConfigSpec(config, attrs, "background");
  }

  /** A size attribute that is not an integer is ignored: the caller's value, or its absence, stays. */
  lemma MergedConfigIgnoresBadSize(config: ConfigDict, attrs: Attributes, key: string)
    requires key == "width" || key == "height"
    requires Lookup(attrs, key).Some? && ParseInt(Lookup(attrs, key).value).None?
    ensures key in MergedConfig(config, attrs) <==> key in config
    ensures key in config ==> MergedConfig(config, attrs)[key] == config[key]
  {
    MergedConfigSpec(config, attrs, key);
  }

  /** A size next to an information separator, such as `"\x1c800"`, is no integer to `int()`, so the caller's value stays. */
  lemma MergedConfigIgnoresSeparatedSize(config: ConfigDict, attrs: Attributes, key: string, n: int, c: char)
    requires key == "width" || key == "height"
    requires 0x1C <= c as int <= 0x1F && Lookup(attrs, key) == Some([c] + IntToString(n))
    ensures key in MergedConfig(config, attrs) <==> key in config
    ensures key in config ==> MergedConfig(config, attrs)[key] == config[key]
  {
    ParseIntRejectsSeparator(n, c);
    MergedConfigIgnoresBadSize(config, attrs, key);
  }

  /** A size attribute written as an integer replaces the caller's value with that integer; one of more than `MaxStrDigits` digits is ignored. */
  lemma MergedConfigParsesSize(config: ConfigDict, attrs: Attributes, key: string, n: int)
    requires key == "width" || key == "height"
    requires Lookup(attrs, key) == Some(IntToString(n))
    ensures WithinDigitLimit(IntToString(n)) ==> key in MergedConfig(config, attrs) && MergedConfig(config, attrs)[key] == VInt(n)
    ensures !WithinDigitLimit(IntToString(n)) ==> (key in MergedConfig(config, attrs) <==> key in config)
    ensures !WithinDigitLimit(IntToString(n)) && key in config ==> MergedConfig(config, attrs)[key] == config[key]
  {
    ParseIntToString(n);
    MergedConfigSpec(config, attrs, key);
  }

  /** A size of 4301 digits, `str(10^4300)`, is refused by `int()`, so the caller's value, or its absence, stays. */
  lemma MergedConfigIgnoresLongSize(config: ConfigDict, attrs: Attributes, key: string)
    requires key == "width" || key == "height"
    requires Lookup(attrs, key) == Some(IntToString(Pow10(MaxStrDigits)))
    ensures key in MergedConfig(config, attrs) <==> key in config
    ensures key in config ==> MergedConfig(config, attrs)[key] == config[key]
  {
    ParseIntRejectsLongNumeral();
    MergedConfigIgnoresBadSize(config, attrs, key);
  }

  /** `block.generate_image(output_path, generator, config)`: the generator's verdict on the code and the merged configuration. */
  function GenerateImage(b: MermaidBlock, outputPath: string, generate: (string, string, ConfigDict) -> bool, config: ConfigDict): bool {
    generate(b.code, outputPath, MergedConfig(config, b.attributes))
  }

  /** Only the four recognised attributes reach the generator; any other attribute makes no difference. */
  lemma GenerateImageReadsRecognisedAttributes(b1: MermaidBlock, b2: MermaidBlock, outputPath: string,
                                               generate: (string, string, ConfigDict) -> bool, config: ConfigDict)
    requires b1.code == b2.code
    requires Lookup(b1.attributes, "theme") == Lookup(b2.attributes, "theme")
    requires Lookup(b1.attributes, "background") == Lookup(b2.attributes, "background")
    requires Lookup(b1.attributes, "width") == Lookup(b2.attributes, "width")
    requires Lookup(b1.attributes, "height") == Lookup(b2.attributes, "height")
    ensures GenerateImage(b1, outputPath, generate, config) == GenerateImage(b2, outputPath, generate, config)
  {
    SameMergedConfig(config, b1.attributes, b2.attributes);
  }

  /** Two attribute lists that agree on the four recognised attributes merge into the same configuration. */
  lemma SameMergedConfig(config: ConfigDict, attrs1: Attributes, attrs2: Attributes)
    requires Lookup(attrs1, "theme") == Lookup(attrs2, "theme")
    requires Lookup(attrs1, "background") == Lookup(attrs2, "background")
    requires Lookup(attrs1, "width") == Lookup(attrs2, "width")
    requires Lookup(attrs1, "height") == Lookup(attrs2, "height")
    ensures MergedConfig(config, attrs1) == MergedConfig(config, attrs2)
  {
    SameOverrides(attrs1, attrs2, "theme");
    SameOverrides(attrs1, attrs2, "background");
    SameOverrides(attrs1, attrs2, "width");
    SameOverrides(attrs1, attrs2, "height");
  }

  /** Two attribute lists that agree on `attribute` make the same override from it. */
  lemma SameOverrides(attrs1: Attributes, attrs2: Attributes, attribute: string)
    requires Lookup(attrs1, attribute) == Lookup(attrs2, attribute)
    ensures TextOverride(attrs1, attribute) == TextOverride(attrs2, attribute)
    ensures SizeOverride(attrs1, attribute) == SizeOverride(attrs2, attribute)
  {
  }

  // ----- get_image_markdown -----

  /** The position of the first `x` in `parts` (`parts.index(x)`), or `|parts|`. */
  function PartIndex(parts: seq<string>, x: string): (k: nat)
    ensures k <= |parts|
    ensures k < |parts| ==> parts[k] == x
    ensures forall i :: 0 <= i < k ==> parts[i] != x
  {
    if parts == [] then 0 else if parts[0] == x then 0 else 1 + PartIndex(parts[1..], x)
  }

  const DefaultImageDir := "assets/images/"

  /** Where the image lives in the built site: below the first `docs` part, or in `assets/images/` by its name. */
  function ImageSitePath(imagePath: string): string {
    var parts := Parts(imagePath);
    if "docs" in parts then PathString(parts[PartIndex(parts, "docs") + 1..])
    else DefaultImageDir + Name(imagePath)
  }

  /** How many directories the page sits below the site root: the parts of its parent, none for a top-level page. */
  function PageDepth(pageFile: string): nat {
    var parent := ParentParts(Parts(pageFile));
    if parent != [] then |parent| else 0
  }

  /** The image's path as the page links to it: one `../` per directory of the page, then the site path. */
  function RelativeImagePath(imagePath: string, pageFile: string): string {
    var depth := PageDepth(pageFile);
    if depth > 0 then Repeat("../", depth) + ImageSitePath(imagePath) else ImageSitePath(imagePath)
  }

  function ImageLink(target: string): string {
    "![Mermaid Diagram](" + target + ")"
  }

  /** `", ".join(f"{k}: {v}" for k, v in attributes.items())`. */
  function AttributeText(attrs: Attributes): string {
    JoinWith(seq(|attrs|, i requires 0 <= i < |attrs| => attrs[i].0 + ": " + attrs[i].1), ", ")
  }

  /** The fence line that opens the re-emitted block: the attributes in braces, or none at all. */
  function OpeningFence(attrs: Attributes): string {
    if attrs != [] then "```mermaid {" + AttributeText(attrs) + "}" else "```mermaid"
  }

  const ClosingFence := "```"

  /** The original block as it is written back under the image. */
  function OriginalBlock(b: MermaidBlock): string {
    OpeningFence(b.attributes) + "\n" + b.code + "\n" + ClosingFence
  }

  /** `block.get_image_markdown(image_path, page_file, preserve_original)`. */
  function GetImageMarkdown(b: MermaidBlock, imagePath: string, pageFile: string, preserveOriginal: bool): string {
    var link := ImageLink(RelativeImagePath(imagePath, pageFile));
    if preserveOriginal then link + "\n\n" + OriginalBlock(b) else link
  }

  /** `block.get_filename(page_file, index, image_format)`. */
  function GetFilename(b: MermaidBlock, pageFile: string, index: int, imageFormat: string, md5: string -> Digest): string {
    GenerateImageFilename(pageFile, index, b.code, imageFormat, md5)
  }

  // ----- properties of the Markdown -----

  /** An image stored under a `docs` directory is linked by its path below the first `docs`. */
  lemma SitePathAfterDocs(absolute: bool, before: seq<string>, after: seq<string>)
    requires AreComponents(before) && AreComponents(after) && "docs" !in before
    ensures ImageSitePath(PathString(Anchor(absolute) + before + ["docs"] + after)) == PathString(after)
  {
    var cs := before + ["docs"] + after;
    assert IsComponent("docs");
    ComponentsConcat(before, ["docs"]);
    ComponentsConcat(before + ["docs"], after);
    assert Anchor(absolute) + before + ["docs"] + after == Anchor(absolute) + cs;
    PartsOfPathString(absolute, cs);
    assert "docs" !in Anchor(absolute) + before;
    FirstDocsPart(Anchor(absolute) + before, after);
  }

  /** In `head + ["docs"] + after` with no `docs` in `head`, the first `docs` part is the one after `head`. */
  lemma FirstDocsPart(head: seq<string>, after: seq<string>)
    requires "docs" !in head
    ensures var parts := head + ["docs"] + after;
      "docs" in parts && PartIndex(parts, "docs") == |head| && parts[|head| + 1..] == after
  {
    var parts := head + ["docs"] + after;
    assert parts[|head|] == "docs";
    assert forall i :: 0 <= i < |head| ==> parts[i] == head[i];
    assert parts[|head| + 1..] == after;
  }

  /** An image outside any `docs` directory is linked from `assets/images/` by its name. */
  lemma SitePathWithoutDocs(absolute: bool, cs: seq<string>)
    requires AreComponents(cs) && cs != [] && "docs" !in cs
    ensures ImageSitePath(PathString(Anchor(absolute) + cs)) == DefaultImageDir + cs[|cs| - 1]
  {
    PartsOfPathString(absolute, cs);
    NameOfPathString(absolute, cs);
    assert "docs" !in Anchor(absolute) + cs;
  }

  /** A page `d1/.../dn/page.md` links its images through `n` parent steps; a top-level page through none. */
  lemma RelativePathDepth(imagePath: string, dirs: seq<string>, page: string)
    requires AreComponents(dirs + [page])
    ensures RelativeImagePath(imagePath, PathString(dirs + [page])) == Repeat("../", |dirs|) + ImageSitePath(imagePath)
  {
    PageDepthOf(dirs, page);
    RelativeImagePathSteps(imagePath, PathString(dirs + [page]));
  }

  lemma RelativeImagePathSteps(imagePath: string, pageFile: string)
    ensures RelativeImagePath(imagePath, pageFile) == Repeat("../", PageDepth(pageFile)) + ImageSitePath(imagePath)
  {
    if PageDepth(pageFile) == 0 {
      assert Repeat("../", 0) == "";
    }
  }

  /** A page `d1/.../dn/page.md` sits `n` directories below the site root. */
  lemma PageDepthOf(dirs: seq<string>, page: string)
    requires AreComponents(dirs + [page])
    ensures PageDepth(PathString(dirs + [page])) == |dirs|
  {
    ParentDepth(dirs + [page]);
  }

  /** Without `preserve_original` the Markdown is the image link alone; with it, the link is followed by a blank line and the original block. */
  lemma MarkdownModes(b: MermaidBlock, imagePath: string, pageFile: string)
    ensures GetImageMarkdown(b, imagePath, pageFile, false) == "![Mermaid Diagram](" + RelativeImagePath(imagePath, pageFile) + ")"
    ensures GetImageMarkdown(b, imagePath, pageFile, true) == GetImageMarkdown(b, imagePath, pageFile, false) + "\n\n" + OriginalBlock(b)
  {
  }

  /** No line break inside any attribute. */
  predicate SingleLineAttributes(attrs: Attributes) {
    forall i :: 0 <= i < |attrs| ==> '\n' !in attrs[i].0 && '\n' !in attrs[i].1
  }

  lemma {:induction false} JoinSingleLine(parts: seq<string>, sep: string)
    requires '\n' !in sep && forall i :: 0 <= i < |parts| ==> '\n' !in parts[i]
    ensures '\n' !in JoinWith(parts, sep)
    decreases |parts|
  {
    if |parts| > 1 {
      JoinSingleLine(parts[1..], sep);
    }
  }

  lemma OpeningFenceSingleLine(attrs: Attributes)
    requires SingleLineAttributes(attrs)
    ensures '\n' !in OpeningFence(attrs)
  {
    var items := seq(|attrs|, i requires 0 <= i < |attrs| => attrs[i].0 + ": " + attrs[i].1);
    forall i | 0 <= i < |items| ensures '\n' !in items[i] { assert items[i] == attrs[i].0 + ": " + attrs[i].1; }
    JoinSingleLine(items, ", ");
  }

  /**
   * The re-emitted block gives the diagram back: its first line is the opening fence, with no braces
   * when the block had no attributes, and between that line and the closing fence lies exactly the code.
   */
  lemma OriginalBlockRoundTrip(b: MermaidBlock)
    requires SingleLineAttributes(b.attributes)
    ensures var o := OriginalBlock(b); var nl := IndexOf(o, '\n');
      && nl < |o| && o[..nl] == OpeningFence(b.attributes)
      && nl + 1 <= |o| - 4 && o[nl + 1..|o| - 4] == b.code && o[|o| - 4..] == "\n" + ClosingFence
    ensures b.attributes == [] ==> OpeningFence(b.attributes) == "```mermaid"
  {
    OpeningFenceSingleLine(b.attributes);
    FencedLines(OpeningFence(b.attributes), b.code, ClosingFence);
  }

  /** A first line without a line break, then a line break, the body, a line break and a tail: the lines come apart again. */
  lemma FencedLines(f: string, body: string, tail: string)
    requires '\n' !in f
    ensures var o := f + "\n" + body + "\n" + tail; var nl := IndexOf(o, '\n');
      && nl == |f| && o[..nl] == f
      && o[nl + 1..|o| - |tail| - 1] == body && o[|o| - |tail| - 1..] == "\n" + tail
  {
    var o := f + "\n" + body + "\n" + tail;
    assert o == f + ("\n" + body + "\n" + tail);
    assert o[|f|] == '\n';
    assert IndexOf(o, '\n') == |f| by {
      forall i | 0 <= i < |f| ensures o[i] != '\n' { assert o[i] == f[i]; }
    }
    assert o[..|f|] == f;
    assert o[|f| + 1..|o| - |tail| - 1] == body;
    assert o[|o| - |tail| - 1..] == "\n" + tail;
  }

  /** The image of a block is named from its stripped code, so padding the code with white space does not change the name. */
  lemma FilenameIgnoresPadding(w1: string, t: string, w2: string, startPos: int, endPos: int, attrs: Option<Attributes>,
                               pageFile: string, index: int, imageFormat: string, md5: string -> Digest)
    requires AllSpace(w1, IsSpace) && AllSpace(w2, IsSpace) && Trimmed(t, IsSpace)
    requires attrs.Some? ==> UniqueKeys(attrs.value)
    ensures GetFilename(NewMermaidBlock(w1 + t + w2, startPos, endPos, attrs), pageFile, index, imageFormat, md5)
         == GenerateImageFilename(pageFile, index, t, imageFormat, md5)
  {
    StripPadded(w1, t, w2, IsSpace);
  }
}
