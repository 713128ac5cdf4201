/**
 * The option-driven rendering path: syllables become signs (or a chosen
 * unknown character), joined per word, per line and per text according to
 * the render options; plus the breakdown of a text into words and
 * syllables, an HTML wrapper, and helpers for the two Unicode cuneiform
 * blocks (Cuneiform U+12000-U+123FF and Cuneiform Numbers and Punctuation
 * U+12400-U+1247F).
 */
module CuneiformRender {
  import opened Seqs
  import opened Text
  import opened SyllableMap
  import opened Syllabify

  // ---------------------------------------------------------------------
  // Options
  // ---------------------------------------------------------------------

  datatype RenderOptions = RenderOptions(
    addSpacing: bool, unknownChar: string, wordSeparator: string, preserveLineBreaks: bool)

  const DEFAULT_RENDER_OPTIONS := RenderOptions(false, "?", " ", true)

  /** The `Partial<RenderOptions>` a caller passes: an absent field takes its default. */
  datatype PartialRenderOptions = PartialRenderOptions(
    addSpacing: Option<bool>, unknownChar: Option<string>,
    wordSeparator: Option<string>, preserveLineBreaks: Option<bool>)

  const NO_OPTIONS := PartialRenderOptions(None, None, None, None)

  function Or<T>(o: Option<T>, d: T): T
  {
    match o
    case Some(v) => v
    case None => d
  }

  /** `{ ...DEFAULT_RENDER_OPTIONS, ...options }`. */
  function WithDefaults(p: PartialRenderOptions): (o: RenderOptions)
    ensures p.addSpacing.Some? ==> o.addSpacing == p.addSpacing.value
    ensures p.addSpacing.None? ==> o.addSpacing == DEFAULT_RENDER_OPTIONS.addSpacing
    ensures p.unknownChar.Some? ==> o.unknownChar == p.unknownChar.value
    ensures p.unknownChar.None? ==> o.unknownChar == DEFAULT_RENDER_OPTIONS.unknownChar
    ensures p.wordSeparator.Some? ==> o.wordSeparator == p.wordSeparator.value
    ensures p.wordSeparator.None? ==> o.wordSeparator == DEFAULT_RENDER_OPTIONS.wordSeparator
    ensures p.preserveLineBreaks.Some? ==> o.preserveLineBreaks == p.preserveLineBreaks.value
    ensures p.preserveLineBreaks.None? ==> o.preserveLineBreaks == DEFAULT_RENDER_OPTIONS.preserveLineBreaks
  {
    RenderOptions(
      Or(p.addSpacing, DEFAULT_RENDER_OPTIONS.addSpacing),
      Or(p.unknownChar, DEFAULT_RENDER_OPTIONS.unknownChar),
      Or(p.wordSeparator, DEFAULT_RENDER_OPTIONS.wordSeparator),
      Or(p.preserveLineBreaks, DEFAULT_RENDER_OPTIONS.preserveLineBreaks))
  }

  /** Completing a full set of options changes nothing, and passing none gives the defaults. */
  lemma WithDefaultsSpec(o: RenderOptions)
    ensures WithDefaults(PartialRenderOptions(
              Some(o.addSpacing), Some(o.unknownChar), Some(o.wordSeparator), Some(o.preserveLineBreaks))) == o
    ensures WithDefaults(NO_OPTIONS) == DEFAULT_RENDER_OPTIONS
  {
  }

  // ---------------------------------------------------------------------
  // Rendering
  // ---------------------------------------------------------------------

  /** `renderSyllable`: the primary sign of the syllable's row, or `unknownChar`. */
  function RenderSyllable(syllable: string, unknownChar: string): (r: string)
    ensures HasSyllableMapping(syllable) ==> r == GetSignForSyllable(syllable).value.primarySign
    ensures !HasSyllableMapping(syllable) ==> r == unknownChar
  {
    HasMappingIffFound(syllable);
    match GetSignForSyllable(syllable)
    case Some(m) => m.primarySign
    case None => unknownChar
  }

  /** With the default unknown character, both rendering paths give the same sign. */
  lemma RenderSyllableAgrees(syllable: string)
    ensures RenderSyllable(syllable, "?") == SyllableToSign(syllable).sign
  {
  }

  function RenderSyllables(syllables: seq<string>, unknownChar: string): (r: seq<string>)
    ensures |r| == |syllables|
    ensures forall k :: 0 <= k < |r| ==> r[k] == RenderSyllable(syllables[k], unknownChar)
  {
    seq(|syllables|, k requires 0 <= k < |syllables| => RenderSyllable(syllables[k], unknownChar))
  }

  /** `renderWordToCuneiform` with the options already completed. */
  function RenderWordToCuneiform(word: string, opts: RenderOptions): string
  {
    Join(RenderSyllables(Syllables(word), opts.unknownChar), if opts.addSpacing then " " else "")
  }

  function RenderWords(words: seq<string>, opts: RenderOptions): (r: seq<string>)
    ensures |r| == |words|
    ensures forall k :: 0 <= k < |r| ==> r[k] == RenderWordToCuneiform(words[k], opts)
  {
    seq(|words|, k requires 0 <= k < |words| => RenderWordToCuneiform(words[k], opts))
  }

  /** One line: its whitespace-separated words, rendered and joined by the word separator. */
  function RenderLineWith(line: string, opts: RenderOptions): string
  {
    Join(RenderWords(Words(line), opts), opts.wordSeparator)
  }

  function RenderLines(lines: seq<string>, opts: RenderOptions): (r: seq<string>)
    ensures |r| == |lines|
    ensures forall k :: 0 <= k < |r| ==> r[k] == RenderLineWith(lines[k], opts)
  {
    seq(|lines|, k requires 0 <= k < |lines| => RenderLineWith(lines[k], opts))
  }

  /** `renderTextToCuneiform` with the options already completed. */
  function RenderTextToCuneiform(text: string, opts: RenderOptions): string
  {
    var lines := if opts.preserveLineBreaks then Split(text, '\n') else [ReplaceChar(text, '\n', ' ')];
    Join(RenderLines(lines, opts), if opts.preserveLineBreaks then "\n" else " ")
  }

  /**
   * The two line-break modes: kept, the lines are rendered one by one and
   * rejoined with '\n'; folded, the output is the single line that
   * replaces every '\n' by ' ', whose words are exactly the text's words.
   */
  lemma RenderTextModes(text: string, opts: RenderOptions)
    ensures opts.preserveLineBreaks ==>
      RenderTextToCuneiform(text, opts) == Join(RenderLines(Split(text, '\n'), opts), "\n")
    ensures !opts.preserveLineBreaks ==>
      RenderTextToCuneiform(text, opts) == RenderLineWith(ReplaceChar(text, '\n', ' '), opts)
    ensures !opts.preserveLineBreaks ==>
      RenderTextToCuneiform(text, opts) == Join(RenderWords(Words(text), opts), opts.wordSeparator)
  {
    NewlinesToSpacesKeepWords(text);
  }

  /** Under the defaults the two rendering paths agree word by word. */
  lemma DefaultWordAgrees(word: string)
    ensures RenderWordToCuneiform(word, DEFAULT_RENDER_OPTIONS) == WordToCuneiform(word)
  {
    var syls := Syllables(word);
    forall k | 0 <= k < |syls| ensures RenderSyllable(syls[k], "?") == SignOf(SyllableToSign(syls[k])) {
      RenderSyllableAgrees(syls[k]);
    }
    assert RenderSyllables(syls, "?") == Map(SignOf, Map(SyllableToSign, syls));
  }

  /**
   * With the default options `renderTextToCuneiform(t)` is
   * `textToCuneiform(t)`: the two rendering paths do not drift.
   */
  lemma DefaultsMatchTextToCuneiform(text: string)
    ensures RenderTextToCuneiform(text, DEFAULT_RENDER_OPTIONS) == TextToCuneiform(text)
  {
    var opts := DEFAULT_RENDER_OPTIONS;
    var lines := Split(text, '\n');
    TextToCuneiformSpec(text);
    forall k | 0 <= k < |lines| ensures RenderLineWith(lines[k], opts) == LineToCuneiform(lines[k]) {
      var ws := Words(lines[k]);
      forall j | 0 <= j < |ws| ensures RenderWordToCuneiform(ws[j], opts) == WordToCuneiform(ws[j]) {
        DefaultWordAgrees(ws[j]);
      }
      assert RenderWords(ws, opts) == Map(WordToCuneiform, ws);
    }
    assert RenderLines(lines, opts) == Map(LineToCuneiform, lines);
  }

  // ---------------------------------------------------------------------
  // getTextBreakdown
  // ---------------------------------------------------------------------

  /** A row's confidence, or 'none' for a syllable without a row. */
  datatype BreakdownConfidence = Rated(level: Confidence) | Unrated

  datatype BreakdownSyllable = BreakdownSyllable(
    syllable: string, sign: string, mapped: bool, confidence: BreakdownConfidence)

  datatype SyllableBreakdown = SyllableBreakdown(word: string, syllables: seq<BreakdownSyllable>)

  /** One syllable of the breakdown: the sign, whether a row exists, and its confidence. */
  function BreakdownOf(syllable: string): (r: BreakdownSyllable)
    ensures r.syllable == syllable
    ensures r.mapped <==> HasSyllableMapping(syllable)
    ensures r.confidence == Unrated <==> !r.mapped
    ensures !r.mapped ==> r.sign == "?"
    ensures r.mapped ==>
      var m := GetSignForSyllable(syllable).value;
      r.sign == m.primarySign && r.confidence == Rated(m.confidence)
  {
    HasMappingIffFound(syllable);
    match GetSignForSyllable(syllable)
    case Some(m) => BreakdownSyllable(syllable, m.primarySign, true, Rated(m.confidence))
    case None => BreakdownSyllable(syllable, "?", false, Unrated)
  }

  function BreakdownWord(word: string): SyllableBreakdown
  {
    SyllableBreakdown(word, Map(BreakdownOf, Syllables(word)))
  }

  /** `getTextBreakdown`: every whitespace-separated word of the whole text. */
  function GetTextBreakdown(text: string): seq<SyllableBreakdown>
  {
    Map(BreakdownWord, Words(text))
  }

  function BreakdownWordOf(b: SyllableBreakdown): string { b.word }

  /**
   * The breakdown lists the text's words in order, across line breaks (the
   * words of all lines one after another), each with one entry per
   * syllable of `syllabify`; its sign agrees with `syllableToSign`.
   */
  lemma GetTextBreakdownSpec(text: string)
    ensures Map(BreakdownWordOf, GetTextBreakdown(text)) == Words(text)
    ensures Map(BreakdownWordOf, GetTextBreakdown(text)) == Flatten(Map(Words, Split(text, '\n')))
    ensures forall k :: 0 <= k < |GetTextBreakdown(text)| ==>
              |GetTextBreakdown(text)[k].syllables| == |Syllables(Words(text)[k])|
    ensures forall k, j :: 0 <= k < |GetTextBreakdown(text)| && 0 <= j < |GetTextBreakdown(text)[k].syllables| ==>
              GetTextBreakdown(text)[k].syllables[j].sign == SyllableToSign(Syllables(Words(text)[k])[j]).sign
  {
    WordsOfLines(text);
    assert Map(BreakdownWordOf, GetTextBreakdown(text)) == Words(text);
  }

  // ---------------------------------------------------------------------
  // formatCuneiformHTML
  // ---------------------------------------------------------------------

  /** One character of the HTML: ' ' and '\n' as they are, anything else in its own span. */
  function WrapChar(c: char, className: string): string
  {
    if c == ' ' || c == '\n' then [c]
    else "<span class=\"" + className + "-char\" aria-label=\"" + [c] + "\">" + [c] + "</span>"
  }

  function WrapChars(s: string, className: string): string
  {
    if |s| == 0 then "" else WrapChar(s[0], className) + WrapChars(s[1..], className)
  }

  /** `formatCuneiformHTML`. */
  function FormatCuneiformHTML(text: string, className: string): string
  {
    "<span class=\"" + className + "\">"
    + WrapChars(RenderTextToCuneiform(text, DEFAULT_RENDER_OPTIONS), className)
    + "</span>"
  }

  /** Wrapping works character by character, so it distributes over concatenation. */
  lemma {:induction false} WrapCharsAppend(a: string, b: string, className: string)
    ensures WrapChars(a + b, className) == WrapChars(a, className) + WrapChars(b, className)
  {
    if |a| > 0 {
      assert (a + b)[1..] == a[1..] + b;
      WrapCharsAppend(a[1..], b, className);
    } else {
      assert a + b == b;
    }
  }

  /** Spaces and line feeds pass through unwrapped. */
  lemma {:induction false} WrapCharsSpacing(s: string, className: string)
    requires forall k :: 0 <= k < |s| ==> s[k] == ' ' || s[k] == '\n'
    ensures WrapChars(s, className) == s
  {
    if |s| > 0 {
      WrapCharsSpacing(s[1..], className);
      assert s == [s[0]] + s[1..];
    }
  }

  /**
   * The HTML body is one piece per character of the rendered text: the
   * character itself for ' ' and '\n', its span otherwise.
   */
  lemma {:induction false} WrapCharsPieces(s: string, className: string)
    ensures WrapChars(s, className) == Flatten(Map(c => WrapChar(c, className), s))
  {
    if |s| > 0 {
      WrapCharsPieces(s[1..], className);
      assert Map(c => WrapChar(c, className), s)[1..] == Map(c => WrapChar(c, className), s[1..]);
    }
  }

  // ---------------------------------------------------------------------
  // Cuneiform code points
  // ---------------------------------------------------------------------

  /** A code point of the Cuneiform or the Cuneiform Numbers and Punctuation block. */
  predicate IsCuneiform(c: char)
  {
    (0x12000 <= c as int <= 0x123FF) || (0x12400 <= c as int <= 0x1247F)
  }

  /** `containsCuneiform`. */
  predicate ContainsCuneiform(text: string)
  {
    exists k :: 0 <= k < |text| && IsCuneiform(text[k])
  }

  /** `extractCuneiform`: the cuneiform code points of the text, in order. */
  function ExtractCuneiform(text: string): string
  {
    Filter(text, IsCuneiform)
  }

  /** `countCuneiformChars`: the JavaScript length of the extracted string. */
  function CountCuneiformChars(text: string): nat
  {
    Utf16Length(ExtractCuneiform(text))
  }

  /**
   * Extraction keeps exactly the cuneiform code points, in order (it
   * distributes over concatenation), and the text contains cuneiform
   * exactly when something is extracted.
   */
  lemma ExtractCuneiformSpec(text: string, c: char, more: string)
    ensures c in ExtractCuneiform(text) <==> c in text && IsCuneiform(c)
    ensures ExtractCuneiform(text + more) == ExtractCuneiform(text) + ExtractCuneiform(more)
    ensures ContainsCuneiform(text) <==> ExtractCuneiform(text) != ""
    ensures ExtractCuneiform(ExtractCuneiform(text)) == ExtractCuneiform(text)
  {
    FilterMembers(text, IsCuneiform, c);
    FilterAppend(text, more, IsCuneiform);
    FilterAll(ExtractCuneiform(text), IsCuneiform);
    if ContainsCuneiform(text) {
      var k :| 0 <= k < |text| && IsCuneiform(text[k]);
      FilterMembers(text, IsCuneiform, text[k]);
    } else {
      FilterNone(text, IsCuneiform);
    }
  }

  /** Every cuneiform code point lies above U+FFFF, so each counts twice in UTF-16. */
  lemma {:induction false} Utf16OfCuneiform(s: string)
    requires forall k :: 0 <= k < |s| ==> IsCuneiform(s[k])
    ensures Utf16Length(s) == 2 * |s|
  {
    if |s| > 0 {
      Utf16OfCuneiform(s[1..]);
    }
  }

  lemma CountCuneiformCharsSpec(text: string)
    ensures CountCuneiformChars(text) == 2 * |ExtractCuneiform(text)|
    ensures CountCuneiformChars(text) == 0 <==> !ContainsCuneiform(text)
  {
    Utf16OfCuneiform(ExtractCuneiform(text));
    ExtractCuneiformSpec(text, ' ', "");
  }
}
