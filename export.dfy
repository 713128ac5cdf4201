/**
 * The string logic of `src/lib/utils/export.ts`: XML escaping, the export
 * file name, and which `<text>` elements `generateSVG` writes and how tall
 * it makes the picture.
 */
module Export {
  import opened Seqs
  import opened Text
  import opened Syllabify

  datatype ExportFormat = Png | Svg | Pdf

  function FormatName(f: ExportFormat): string
  {
    match f
    case Png => "png"
    case Svg => "svg"
    case Pdf => "pdf"
  }

  datatype RenderStyle = ClayTablet | MuseumLabel | ArtisticPrint | SideBySide

  function StyleName(s: RenderStyle): string
  {
    match s
    case ClayTablet => "clay-tablet"
    case MuseumLabel => "museum-label"
    case ArtisticPrint => "artistic-print"
    case SideBySide => "side-by-side"
  }

  /** `RENDER_STYLE_CONFIGS[style].showTransliteration`. */
  predicate ShowsTransliteration(s: RenderStyle)
  {
    s == MuseumLabel || s == SideBySide
  }

  /** A rendered verse; `timestamp` is whatever clock value the caller read. */
  datatype RenderedVerse = RenderedVerse(
    originalText: string, lines: seq<RenderedLine>, style: RenderStyle, timestamp: int)

  // ---------------------------------------------------------------------
  // escapeXML
  // ---------------------------------------------------------------------

  /** `s.replace(/c/g, entity)` for a single character `c`. */
  function ReplaceAll(s: string, c: char, entity: string): (r: string)
  {
    if |s| == 0 then "" else (if s[0] == c then entity else [s[0]]) + ReplaceAll(s[1..], c, entity)
  }

  lemma {:induction false} ReplaceAllAppend(a: string, b: string, c: char, entity: string)
    ensures ReplaceAll(a + b, c, entity) == ReplaceAll(a, c, entity) + ReplaceAll(b, c, entity)
  {
    if |a| > 0 {
      assert (a + b)[1..] == a[1..] + b;
      ReplaceAllAppend(a[1..], b, c, entity);
    } else {
      assert a + b == b;
    }
  }

  lemma {:induction false} ReplaceAllAbsent(s: string, c: char, entity: string)
    requires c !in s
    ensures ReplaceAll(s, c, entity) == s
  {
    if |s| > 0 {
      ReplaceAllAbsent(s[1..], c, entity);
    }
  }

  lemma ReplaceAllSingle(x: char, c: char, entity: string)
    ensures ReplaceAll([x], c, entity) == if x == c then entity else [x]
  {
    assert [x][1..] == "";
  }

  /** `escapeXML`: the five replacements in the source's order, `&` first. */
  function EscapeXml(s: string): string
  {
    ReplaceAll(ReplaceAll(ReplaceAll(ReplaceAll(ReplaceAll(
      s, '&', "&amp;"), '<', "&lt;"), '>', "&gt;"), '"', "&quot;"), '\'', "&apos;")
  }

  /** The entity one character escapes to, or the character itself. */
  function EscapeChar(c: char): string
  {
    if c == '&' then "&amp;"
    else if c == '<' then "&lt;"
    else if c == '>' then "&gt;"
    else if c == '"' then "&quot;"
    else if c == '\'' then "&apos;"
    else [c]
  }

  /** Escaping character by character, in one pass; no raw `<`, `>`, `"` or `'` is left. */
  function EscapeChars(s: string): (r: string)
    ensures '<' !in r && '>' !in r && '"' !in r && '\'' !in r
  {
    if |s| == 0 then "" else EscapeChar(s[0]) + EscapeChars(s[1..])
  }

  lemma EscapeXmlAppend(a: string, b: string)
    ensures EscapeXml(a + b) == EscapeXml(a) + EscapeXml(b)
  {
    var s1a, s1b := ReplaceAll(a, '&', "&amp;"), ReplaceAll(b, '&', "&amp;");
    ReplaceAllAppend(a, b, '&', "&amp;");
    var s2a, s2b := ReplaceAll(s1a, '<', "&lt;"), ReplaceAll(s1b, '<', "&lt;");
    ReplaceAllAppend(s1a, s1b, '<', "&lt;");
    var s3a, s3b := ReplaceAll(s2a, '>', "&gt;"), ReplaceAll(s2b, '>', "&gt;");
    ReplaceAllAppend(s2a, s2b, '>', "&gt;");
    var s4a, s4b := ReplaceAll(s3a, '"', "&quot;"), ReplaceAll(s3b, '"', "&quot;");
    ReplaceAllAppend(s3a, s3b, '"', "&quot;");
    ReplaceAllAppend(s4a, s4b, '\'', "&apos;");
  }

  /** The replacement steps after the one for `c` leave its entity alone. */
  lemma EscapeXmlSingle(c: char)
    ensures EscapeXml([c]) == EscapeChar(c)
  {
    ReplaceAllSingle(c, '&', "&amp;");
    var s1 := ReplaceAll([c], '&', "&amp;");
    if c == '&' {
      KeptAfterAmp(s1);
    } else {
      ReplaceAllSingle(c, '<', "&lt;");
      var s2 := ReplaceAll(s1, '<', "&lt;");
      if c == '<' {
        KeptAfterLt(s2);
      } else {
        ReplaceAllSingle(c, '>', "&gt;");
        var s3 := ReplaceAll(s2, '>', "&gt;");
        if c == '>' {
          KeptAfterGt(s3);
        } else {
          ReplaceAllSingle(c, '"', "&quot;");
          var s4 := ReplaceAll(s3, '"', "&quot;");
          if c == '"' {
            ReplaceAllAbsent(s4, '\'', "&apos;");
          } else {
            ReplaceAllSingle(c, '\'', "&apos;");
          }
        }
      }
    }
  }

  lemma KeptAfterGt(s: string)
    requires '"' !in s && '\'' !in s
    ensures ReplaceAll(ReplaceAll(s, '"', "&quot;"), '\'', "&apos;") == s
  {
    ReplaceAllAbsent(s, '"', "&quot;");
    ReplaceAllAbsent(s, '\'', "&apos;");
  }

  lemma KeptAfterLt(s: string)
    requires '>' !in s && '"' !in s && '\'' !in s
    ensures ReplaceAll(ReplaceAll(ReplaceAll(s, '>', "&gt;"), '"', "&quot;"), '\'', "&apos;") == s
  {
    ReplaceAllAbsent(s, '>', "&gt;");
    KeptAfterGt(s);
  }

  lemma KeptAfterAmp(s: string)
    requires '<' !in s && '>' !in s && '"' !in s && '\'' !in s
    ensures ReplaceAll(ReplaceAll(ReplaceAll(ReplaceAll(s, '<', "&lt;"), '>', "&gt;"), '"', "&quot;"), '\'', "&apos;") == s
  {
    ReplaceAllAbsent(s, '<', "&lt;");
    KeptAfterLt(s);
  }

  /**
   * Because `&` is replaced first, the chain of replacements escapes each
   * character once: no entity it produces is escaped again.
   */
  lemma {:induction false} EscapeXmlPerChar(s: string)
    ensures EscapeXml(s) == EscapeChars(s)
  {
    if |s| > 0 {
      assert s == [s[0]] + s[1..];
      EscapeXmlAppend([s[0]], s[1..]);
      EscapeXmlSingle(s[0]);
      EscapeXmlPerChar(s[1..]);
    }
  }

  /** The escaped text holds no raw `<`, `>`, `"` or `'`. */
  lemma EscapeXmlNoSpecials(s: string)
    ensures var r := EscapeXml(s); '<' !in r && '>' !in r && '"' !in r && '\'' !in r
  {
    EscapeXmlPerChar(s);
  }

  /** Text with none of the five special characters is left as it is. */
  lemma EscapeXmlPlain(s: string)
    requires '&' !in s && '<' !in s && '>' !in s && '"' !in s && '\'' !in s
    ensures EscapeXml(s) == s
  {
    ReplaceAllAbsent(s, '&', "&amp;");
    ReplaceAllAbsent(s, '<', "&lt;");
    ReplaceAllAbsent(s, '>', "&gt;");
    ReplaceAllAbsent(s, '"', "&quot;");
    ReplaceAllAbsent(s, '\'', "&apos;");
  }

  /** What an XML reader makes of the five predefined entities (a reference decoder). */
  function UnescapeXml(s: string): string
    decreases |s|
  {
    if |s| == 0 then ""
    else if s[0] != '&' then [s[0]] + UnescapeXml(s[1..])
    else if "&amp;" <= s then "&" + UnescapeXml(s[5..])
    else if "&lt;" <= s then "<" + UnescapeXml(s[4..])
    else if "&gt;" <= s then ">" + UnescapeXml(s[4..])
    else if "&quot;" <= s then "\"" + UnescapeXml(s[6..])
    else if "&apos;" <= s then "'" + UnescapeXml(s[6..])
    else "&" + UnescapeXml(s[1..])
  }

  lemma UnescapeEscapedChar(c: char, rest: string)
    ensures UnescapeXml(EscapeChar(c) + rest) == [c] + UnescapeXml(rest)
  {
    var t := EscapeChar(c) + rest;
    assert t[|EscapeChar(c)|..] == rest;
    assert EscapeChar(c) <= t;
  }

  lemma {:induction false} UnescapeEscapeChars(s: string)
    ensures UnescapeXml(EscapeChars(s)) == s
  {
    if |s| > 0 {
      UnescapeEscapeChars(s[1..]);
      UnescapeEscapedChar(s[0], EscapeChars(s[1..]));
    }
  }

  /** Escaping loses nothing: reading the entities back gives the text. */
  lemma EscapeXmlRoundTrip(s: string)
    ensures UnescapeXml(EscapeXml(s)) == s
  {
    EscapeXmlPerChar(s);
    UnescapeEscapeChars(s);
  }

  // ---------------------------------------------------------------------
  // generateFilename
  // ---------------------------------------------------------------------

  predicate IsSlugChar(c: char)
  {
    IsLowerLetter(c) || IsDigit(c)
  }

  /**
   * `.replace(/[^a-z0-9]+/g, '-')`: each maximal run of other characters
   * becomes one `-`; `inRun` says a run has already begun before `s`.
   */
  function Dasherize(s: string, inRun: bool): (r: string)
    ensures forall i :: 0 <= i < |r| ==> IsSlugChar(r[i]) || r[i] == '-'
    ensures inRun && |r| > 0 ==> r[0] != '-'
    ensures forall i :: 0 <= i < |r| - 1 ==> r[i] != '-' || r[i + 1] != '-'
  {
    if |s| == 0 then ""
    else if IsSlugChar(s[0]) then [s[0]] + Dasherize(s[1..], false)
    else if inRun then Dasherize(s[1..], true)
    else "-" + Dasherize(s[1..], true)
  }

  /** Dasherizing keeps every letter and digit, in order. */
  lemma {:induction false} DasherizeKeepsSlugChars(s: string, inRun: bool)
    ensures Filter(Dasherize(s, inRun), IsSlugChar) == Filter(s, IsSlugChar)
  {
    if |s| > 0 {
      DasherizeKeepsSlugChars(s[1..], !IsSlugChar(s[0]));
      var rest := Dasherize(s[1..], !IsSlugChar(s[0]));
      if IsSlugChar(s[0]) {
        FilterAppend([s[0]], rest, IsSlugChar);
      } else if !inRun {
        FilterAppend("-", rest, IsSlugChar);
      }
    }
  }

  /** A string of letters and digits alone dasherizes to itself. */
  lemma {:induction false} DasherizeSlug(s: string, inRun: bool)
    requires forall i :: 0 <= i < |s| ==> IsSlugChar(s[i])
    ensures Dasherize(s, inRun) == s
  {
    if |s| > 0 {
      DasherizeSlug(s[1..], false);
    }
  }

  /**
   * The base-name part of `generateFilename`: lower-cased, runs of other
   * characters turned into single dashes, cut to 30 characters.
   */
  function SanitizeBaseName(baseName: string): (r: string)
    ensures |r| <= 30
    ensures forall i :: 0 <= i < |r| ==> IsSlugChar(r[i]) || r[i] == '-'
    ensures forall i :: 0 <= i < |r| - 1 ==> r[i] != '-' || r[i + 1] != '-'
  {
    var d := Dasherize(ToLower(baseName), false);
    var r := Take(d, 30);
    assert forall i :: 0 <= i < |r| ==> r[i] == d[i];
    r
  }

  /** A short name already made of lower-case letters and digits is kept as it is. */
  lemma SanitizeSlug(baseName: string)
    requires |baseName| <= 30
    requires forall i :: 0 <= i < |baseName| ==> IsSlugChar(baseName[i])
    ensures SanitizeBaseName(baseName) == baseName
  {
    assert ToLower(baseName) == baseName;
    DasherizeSlug(baseName, false);
  }

  /** Sanitizing a name that needs no cutting keeps all its (lower-cased) letters and digits. */
  lemma SanitizeKeepsSlugChars(baseName: string)
    requires |Dasherize(ToLower(baseName), false)| <= 30
    ensures Filter(SanitizeBaseName(baseName), IsSlugChar) == Filter(ToLower(baseName), IsSlugChar)
  {
    DasherizeKeepsSlugChars(ToLower(baseName), false);
  }

  /**
   * `generateFilename`, with `isoNow` the `toISOString()` of the current
   * time: `cuneiform-<name>-<style>-<date>.<format>`.
   */
  function GenerateFilename(baseName: string, format: ExportFormat, style: RenderStyle, isoNow: string): string
  {
    var stem := "cuneiform-" + SanitizeBaseName(baseName) + "-" + StyleName(style) + "-" + Take(isoNow, 10);
    stem + "." + FormatName(format)
  }

  /** The file name starts with `cuneiform-`, then the sanitized name and a dash. */
  lemma FilenamePrefix(baseName: string, format: ExportFormat, style: RenderStyle, isoNow: string)
    ensures "cuneiform-" + SanitizeBaseName(baseName) + "-" <= GenerateFilename(baseName, format, style, isoNow)
  {
    var p := "cuneiform-" + SanitizeBaseName(baseName) + "-";
    var stem := p + StyleName(style) + "-" + Take(isoNow, 10);
    PrefixOfAppend(p, StyleName(style));
    PrefixOfAppend(p + StyleName(style), "-");
    PrefixOfAppend(p + StyleName(style) + "-", Take(isoNow, 10));
    PrefixOfAppend(stem, ".");
    PrefixOfAppend(stem + ".", FormatName(format));
  }

  lemma PrefixOfAppend(a: string, b: string)
    ensures a <= a + b
  {
  }

  /** When the date holds no dot, the format is the file name's only extension. */
  lemma FilenameExtension(baseName: string, format: ExportFormat, style: RenderStyle, isoNow: string)
    requires '.' !in Take(isoNow, 10)
    ensures var r := GenerateFilename(baseName, format, style, isoNow);
      var ext := FormatName(format);
      |r| > |ext| && r[|r| - |ext|..] == ext && r[|r| - |ext| - 1] == '.'
      && forall i :: 0 <= i < |r| - |ext| - 1 ==> r[i] != '.'
  {
    var name := SanitizeBaseName(baseName);
    var stem := "cuneiform-" + name + "-" + StyleName(style) + "-" + Take(isoNow, 10);
    var ext := FormatName(format);
    var r := GenerateFilename(baseName, format, style, isoNow);
    assert r == stem + "." + ext;
    assert '.' !in StyleName(style);
    assert '.' !in name by {
      forall i | 0 <= i < |name| ensures name[i] != '.' {
      }
    }
    assert '.' !in stem;
    forall i | 0 <= i < |r| - |ext| - 1
      ensures r[i] != '.'
    {
      assert r[i] == stem[i];
    }
  }

  // ---------------------------------------------------------------------
  // generateSVG: the text elements and the height
  // ---------------------------------------------------------------------

  /** The export options `generateSVG` reads for its text and height. */
  datatype SvgOptions = SvgOptions(style: RenderStyle, includeAttribution: bool, includeTransliteration: bool)

  /** Those fields of `DEFAULT_EXPORT_OPTIONS`. */
  const DEFAULT_SVG_OPTIONS := SvgOptions(ClayTablet, true, true)

  /** Those fields of a `Partial<ExportOptions>`; `None` is a field the caller left out. */
  datatype PartialSvgOptions = PartialSvgOptions(
    style: Option<RenderStyle>, includeAttribution: Option<bool>, includeTransliteration: Option<bool>)

  /** `{ ...DEFAULT_EXPORT_OPTIONS, ...options }`, on those fields. */
  function WithSvgDefaults(p: PartialSvgOptions): (o: SvgOptions)
    ensures p.style.Some? ==> o.style == p.style.value
    ensures p.style.None? ==> o.style == DEFAULT_SVG_OPTIONS.style
    ensures p.includeAttribution.Some? ==> o.includeAttribution == p.includeAttribution.value
    ensures p.includeAttribution.None? ==> o.includeAttribution == DEFAULT_SVG_OPTIONS.includeAttribution
    ensures p.includeTransliteration.Some? ==> o.includeTransliteration == p.includeTransliteration.value
    ensures p.includeTransliteration.None? ==> o.includeTransliteration == DEFAULT_SVG_OPTIONS.includeTransliteration
  {
    SvgOptions(
      if p.style.Some? then p.style.value else DEFAULT_SVG_OPTIONS.style,
      if p.includeAttribution.Some? then p.includeAttribution.value else DEFAULT_SVG_OPTIONS.includeAttribution,
      if p.includeTransliteration.Some? then p.includeTransliteration.value else DEFAULT_SVG_OPTIONS.includeTransliteration)
  }

  /** Completing a full set of options changes nothing, and passing none gives the defaults. */
  lemma WithSvgDefaultsSpec(o: SvgOptions)
    ensures WithSvgDefaults(PartialSvgOptions(Some(o.style), Some(o.includeAttribution), Some(o.includeTransliteration))) == o
    ensures WithSvgDefaults(PartialSvgOptions(None, None, None)) == DEFAULT_SVG_OPTIONS
  {
  }

  const LINE_HEIGHT := 60
  const PADDING := 40
  const TRANSLITERATION_HEIGHT := 24
  const ATTRIBUTION_HEIGHT := 80

  const ATTRIBUTION_TEXT := "This rendering uses phonetic syllabic approximation to map modern language sounds to ancient cuneiform sign values. It is not an authentic Sumerian or Akkadian translation. Sign data sourced from the ORACC Sign List (OSL, CC0 Public Domain) maintained by Steve Tinney & Niek Veldhuis, University of Pennsylvania. For scholarly cuneiform work, consult oracc.org."

  /** The `height` of the picture for `lineCount` lines. */
  function SvgHeight(lineCount: nat, opts: SvgOptions): nat
  {
    lineCount * LINE_HEIGHT + PADDING * 2
      + (if opts.includeAttribution then ATTRIBUTION_HEIGHT else 0)
      + (if opts.includeTransliteration then lineCount * TRANSLITERATION_HEIGHT else 0)
  }

  /** The content of one `<text>` element, by its class. */
  datatype SvgText = CuneiformText(content: string) | TransliterationText(content: string) | AttributionText(content: string)

  predicate IsCuneiformText(t: SvgText) { t.CuneiformText? }

  predicate IsTransliterationText(t: SvgText) { t.TransliterationText? }

  predicate IsAttributionText(t: SvgText) { t.AttributionText? }

  /** Whether a transliteration row is drawn under each line. */
  predicate DrawsTransliteration(opts: SvgOptions)
  {
    opts.includeTransliteration && ShowsTransliteration(opts.style)
  }

  /** A line's cuneiform element: its escaped signs. */
  function CuneiformLine(l: RenderedLine): SvgText
  {
    CuneiformText(EscapeXml(LineSigns(l)))
  }

  /** A line's transliteration element: its escaped original text. */
  function TransliterationLine(l: RenderedLine): SvgText
  {
    TransliterationText(EscapeXml(l.original))
  }

  /** The elements one pass of the loop writes for a line. */
  function LineElements(l: RenderedLine, opts: SvgOptions): seq<SvgText>
  {
    [CuneiformLine(l)] + (if DrawsTransliteration(opts) then [TransliterationLine(l)] else [])
  }

  /** The elements the loop has written after the given lines. */
  function BodyElements(lines: seq<RenderedLine>, opts: SvgOptions): seq<SvgText>
  {
    if |lines| == 0 then []
    else BodyElements(lines[..|lines| - 1], opts) + LineElements(lines[|lines| - 1], opts)
  }

  /** The closing attribution element: the first 120 characters, escaped, then `...`. */
  function AttributionElement(): SvgText
  {
    AttributionText(EscapeXml(Take(ATTRIBUTION_TEXT, 120)) + "...")
  }

  /** Every `<text>` element of the picture, in document order. */
  function SvgElements(lines: seq<RenderedLine>, opts: SvgOptions): seq<SvgText>
  {
    BodyElements(lines, opts) + (if opts.includeAttribution then [AttributionElement()] else [])
  }

  /** The text-writing loop of `generateSVG`. */
  method GenerateSvgTexts(verse: RenderedVerse, opts: SvgOptions) returns (texts: seq<SvgText>)
    ensures texts == SvgElements(verse.lines, opts)
  {
    var lines := verse.lines;
    texts := [];
    var i := 0;
    while i < |lines|
      invariant 0 <= i <= |lines|
      invariant texts == BodyElements(lines[..i], opts)
    {
      var line := lines[i];
      var cuneiformText := Join(Map(WordSigns, line.words), " ");
      var elems := [CuneiformText(EscapeXml(cuneiformText))];
      if opts.includeTransliteration && ShowsTransliteration(opts.style) {
        elems := elems + [TransliterationText(EscapeXml(line.original))];
      }
      assert elems == LineElements(line, opts);
      texts := texts + elems;
      BodyElementsSnoc(lines[..i + 1], opts);
      assert lines[..i + 1][..i] == lines[..i];
      i := i + 1;
    }
    assert lines[..i] == lines;
    if opts.includeAttribution {
      texts := texts + [AttributionElement()];
    }
  }

  /** The elements written for the given lines and then one more line. */
  lemma BodyElementsSnoc(lines: seq<RenderedLine>, opts: SvgOptions)
    requires |lines| > 0
    ensures BodyElements(lines, opts) == BodyElements(lines[..|lines| - 1], opts) + LineElements(lines[|lines| - 1], opts)
  {
  }

  /** What one line contributes to each kind of element. */
  lemma LineElementsSpec(l: RenderedLine, opts: SvgOptions)
    ensures Filter(LineElements(l, opts), IsCuneiformText) == [CuneiformLine(l)]
    ensures Filter(LineElements(l, opts), IsTransliterationText)
      == if DrawsTransliteration(opts) then [TransliterationLine(l)] else []
    ensures Filter(LineElements(l, opts), IsAttributionText) == []
  {
    var t := if DrawsTransliteration(opts) then [TransliterationLine(l)] else [];
    FilterAppend([CuneiformLine(l)], t, IsCuneiformText);
    FilterAppend([CuneiformLine(l)], t, IsTransliterationText);
    FilterAppend([CuneiformLine(l)], t, IsAttributionText);
  }

  lemma {:induction false} BodyCuneiform(lines: seq<RenderedLine>, opts: SvgOptions)
    ensures Filter(BodyElements(lines, opts), IsCuneiformText) == Map(CuneiformLine, lines)
  {
    if |lines| > 0 {
      var init, last := lines[..|lines| - 1], lines[|lines| - 1];
      BodyCuneiform(init, opts);
      FilterAppend(BodyElements(init, opts), LineElements(last, opts), IsCuneiformText);
      LineElementsSpec(last, opts);
      MapSnoc(CuneiformLine, lines);
    }
  }

  lemma {:induction false} BodyTransliteration(lines: seq<RenderedLine>, opts: SvgOptions)
    ensures Filter(BodyElements(lines, opts), IsTransliterationText)
      == if DrawsTransliteration(opts) then Map(TransliterationLine, lines) else []
  {
    if |lines| > 0 {
      var init, last := lines[..|lines| - 1], lines[|lines| - 1];
      BodyTransliteration(init, opts);
      FilterAppend(BodyElements(init, opts), LineElements(last, opts), IsTransliterationText);
      LineElementsSpec(last, opts);
      MapSnoc(TransliterationLine, lines);
    }
  }

  lemma {:induction false} BodyNoAttribution(lines: seq<RenderedLine>, opts: SvgOptions)
    ensures Filter(BodyElements(lines, opts), IsAttributionText) == []
  {
    if |lines| > 0 {
      var init, last := lines[..|lines| - 1], lines[|lines| - 1];
      BodyNoAttribution(init, opts);
      FilterAppend(BodyElements(init, opts), LineElements(last, opts), IsAttributionText);
      LineElementsSpec(last, opts);
    }
  }

  /**
   * The picture has one cuneiform element per line, in order, holding the
   * line's escaped signs; a transliteration element per line exactly when
   * transliteration is asked for and the style shows it; and one
   * attribution element when asked for.
   */
  lemma SvgElementsSpec(lines: seq<RenderedLine>, opts: SvgOptions)
    ensures Filter(SvgElements(lines, opts), IsCuneiformText) == Map(CuneiformLine, lines)
    ensures Filter(SvgElements(lines, opts), IsTransliterationText)
      == if DrawsTransliteration(opts) then Map(TransliterationLine, lines) else []
    ensures |Filter(SvgElements(lines, opts), IsAttributionText)| == if opts.includeAttribution then 1 else 0
  {
    BodyCuneiform(lines, opts);
    BodyTransliteration(lines, opts);
    BodyNoAttribution(lines, opts);
    var tail := if opts.includeAttribution then [AttributionElement()] else [];
    FilterAppend(BodyElements(lines, opts), tail, IsCuneiformText);
    FilterAppend(BodyElements(lines, opts), tail, IsTransliterationText);
    FilterAppend(BodyElements(lines, opts), tail, IsAttributionText);
  }

  /**
   * The height is the padding plus a band for every element drawn, except
   * that asking for transliteration reserves its band under every line
   * even in a style that draws none.
   */
  lemma SvgHeightSpec(lines: seq<RenderedLine>, opts: SvgOptions)
    ensures var e := SvgElements(lines, opts);
      var drawn := 2 * PADDING + LINE_HEIGHT * Count(e, IsCuneiformText)
        + TRANSLITERATION_HEIGHT * Count(e, IsTransliterationText)
        + ATTRIBUTION_HEIGHT * Count(e, IsAttributionText);
      SvgHeight(|lines|, opts) == drawn
        + (if opts.includeTransliteration && !ShowsTransliteration(opts.style) then TRANSLITERATION_HEIGHT * |lines| else 0)
  {
    var e := SvgElements(lines, opts);
    SvgElementsSpec(lines, opts);
    FilterCount(e, IsCuneiformText);
    FilterCount(e, IsTransliterationText);
    FilterCount(e, IsAttributionText);
  }
}
