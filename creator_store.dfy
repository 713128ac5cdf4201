/**
 * The create-mode state, `src/lib/stores/creator.svelte.ts`: the verse
 * being typed, the chosen render style and display flags, and a map of
 * syllable overrides. Everything shown is derived from the text alone;
 * the overrides are stored but no derived value reads them.
 */
module CreatorState {
  import opened Seqs
  import opened Text
  import opened Collections
  import opened Syllabify
  import opened CuneiformRender
  import opened Export

  /** `!text.trim()`: the text is empty once trimmed. */
  predicate Blank(text: string)
  {
    Trim(text) == ""
  }

  /** The all-zero statistics shown for a blank text. */
  const ZERO_STATS := SyllabificationStats(0, 0, 0, 0, 0.0, 0.0)

  /**
   * The guard in `stats` changes nothing: a blank text has no syllables,
   * so its statistics are all zero anyway.
   */
  lemma BlankStatsAreZero(text: string)
    requires Blank(text)
    ensures SyllabificationStatsOf(text) == ZERO_STATS
  {
    TrimEmptyIffNoWords(text);
    WordsEmptyIffBlank(text);
    BlankTextHasNoSyllables(text);
  }

  class CreatorStore {
    var inputText: string
    var renderStyle: RenderStyle
    var showTransliteration: bool
    var showOriginal: bool
    var syllableOverrides: seq<(string, string)>

    /** The overrides are a map: no syllable appears twice. */
    predicate Valid()
      reads this
    {
      DistinctKeys(syllableOverrides)
    }

    constructor()
      ensures Valid()
      ensures inputText == "" && renderStyle == ClayTablet
      ensures showTransliteration && showOriginal && syllableOverrides == []
    {
      inputText := "";
      renderStyle := ClayTablet;
      showTransliteration := true;
      showOriginal := true;
      syllableOverrides := [];
    }

    /**
     * `renderedLines`: nothing for a blank text; otherwise one rendered
     * line per line of the untrimmed text, which they give back when
     * joined with line feeds.
     */
    function RenderedLines(): (r: seq<RenderedLine>)
      reads this
      ensures r == [] <==> Blank(inputText)
      ensures r != [] ==> Join(Map(LineOriginal, r), "\n") == inputText
    {
      if Trim(inputText) == "" then []
      else
        RenderTextSpec(inputText);
        RenderText(inputText)
    }

    /**
     * `renderedVerse`, with `now` standing for `Date.now()`: absent exactly
     * when the text is blank; otherwise the text, its lines and the style.
     */
    function RenderedVerse(now: int): (r: Option<Export.RenderedVerse>)
      reads this
      ensures r.None? <==> Blank(inputText)
      ensures r.Some? ==> r.value.originalText == inputText && r.value.lines == RenderedLines()
      ensures r.Some? ==> r.value.style == renderStyle && r.value.timestamp == now
    {
      if Trim(inputText) == "" then None
      else Some(Export.RenderedVerse(inputText, RenderedLines(), renderStyle, now))
    }

    /**
     * `cuneiformOutput`: empty for a blank text; otherwise the renderer's
     * output with its default options, which is `textToCuneiform` of the text.
     */
    function CuneiformOutput(): (r: string)
      reads this
      ensures Blank(inputText) ==> r == ""
      ensures !Blank(inputText) ==> r == TextToCuneiform(inputText)
    {
      if Trim(inputText) == "" then ""
      else
        DefaultsMatchTextToCuneiform(inputText);
        RenderTextToCuneiform(inputText, DEFAULT_RENDER_OPTIONS)
    }

    /**
     * `stats`: the syllabification statistics of the text, whose counts add
     * up and whose rates lie in [0, 1], the mapping rate below the
     * confidence rate; all zero for a blank text.
     */
    function Stats(): (r: SyllabificationStats)
      reads this
      ensures r == SyllabificationStatsOf(inputText)
      ensures Blank(inputText) ==> r == ZERO_STATS
      ensures r.totalSyllables == r.mappedSyllables + r.approximatedSyllables + r.unmappedSyllables
      ensures r.totalSyllables > 0 ==> 0.0 <= r.mappingRate <= r.confidenceRate <= 1.0
    {
      StatsSpec(inputText);
      if Trim(inputText) == "" then
        BlankStatsAreZero(inputText);
        ZERO_STATS
      else SyllabificationStatsOf(inputText)
    }

    /** `wordCount`: the number of words of the text, trimmed or not; 0 exactly when blank. */
    function WordCount(): (r: nat)
      reads this
      ensures r == |Words(inputText)|
      ensures r == 0 <==> Blank(inputText)
    {
      WordsOfTrim(inputText);
      TrimEmptyIffNoWords(inputText);
      |Words(Trim(inputText))|
    }

    /** `charCount`: the UTF-16 length, 0 exactly for the empty text. */
    function CharCount(): (r: nat)
      reads this
      ensures |inputText| <= r <= 2 * |inputText|
      ensures r == 0 <==> inputText == ""
    {
      Utf16Length(inputText)
    }

    /** `setText`. */
    method SetText(text: string)
      modifies this
      ensures inputText == text
      ensures renderStyle == old(renderStyle) && showTransliteration == old(showTransliteration)
      ensures showOriginal == old(showOriginal) && syllableOverrides == old(syllableOverrides)
    {
      inputText := text;
    }

    /** `appendText`: the text grows by `text`, and so does the character count. */
    method AppendText(text: string)
      modifies this
      ensures inputText == old(inputText) + text
      ensures CharCount() == old(CharCount()) + Utf16Length(text)
      ensures renderStyle == old(renderStyle) && showTransliteration == old(showTransliteration)
      ensures showOriginal == old(showOriginal) && syllableOverrides == old(syllableOverrides)
    {
      Utf16LengthAppend(inputText, text);
      inputText := inputText + text;
    }

    /** `clearText`: no text, so nothing rendered and no words, and no overrides. */
    method ClearText()
      modifies this
      ensures Valid()
      ensures inputText == "" && syllableOverrides == []
      ensures RenderedLines() == [] && CuneiformOutput() == "" && WordCount() == 0
      ensures renderStyle == old(renderStyle) && showTransliteration == old(showTransliteration)
      ensures showOriginal == old(showOriginal)
    {
      inputText := "";
      syllableOverrides := [];
    }

    /** `setStyle`. */
    method SetStyle(style: RenderStyle)
      modifies this
      ensures renderStyle == style
      ensures inputText == old(inputText) && showTransliteration == old(showTransliteration)
      ensures showOriginal == old(showOriginal) && syllableOverrides == old(syllableOverrides)
    {
      renderStyle := style;
    }

    /** `toggleTransliteration`. */
    method ToggleTransliteration()
      modifies this
      ensures showTransliteration == !old(showTransliteration)
      ensures inputText == old(inputText) && renderStyle == old(renderStyle)
      ensures showOriginal == old(showOriginal) && syllableOverrides == old(syllableOverrides)
    {
      showTransliteration := !showTransliteration;
    }

    /** `toggleOriginal`. */
    method ToggleOriginal()
      modifies this
      ensures showOriginal == !old(showOriginal)
      ensures inputText == old(inputText) && renderStyle == old(renderStyle)
      ensures showTransliteration == old(showTransliteration) && syllableOverrides == old(syllableOverrides)
    {
      showOriginal := !showOriginal;
    }

    /**
     * `overrideSyllable`: a copy of the map with `syllable` set to `sign`;
     * every other syllable keeps its override, and nothing rendered changes.
     */
    method OverrideSyllable(syllable: string, sign: string)
      requires Valid()
      modifies this
      ensures Valid()
      ensures syllableOverrides == Set(old(syllableOverrides), syllable, sign)
      ensures forall k :: Get(syllableOverrides, k) == if k == syllable then Some(sign) else Get(old(syllableOverrides), k)
      ensures RenderedLines() == old(RenderedLines()) && CuneiformOutput() == old(CuneiformOutput())
      ensures Stats() == old(Stats())
      ensures inputText == old(inputText) && renderStyle == old(renderStyle)
      ensures showTransliteration == old(showTransliteration) && showOriginal == old(showOriginal)
    {
      var newOverrides := MapFrom(syllableOverrides);
      MapFromDistinct(syllableOverrides);
      forall k
        ensures Get(Set(newOverrides, syllable, sign), k) == if k == syllable then Some(sign) else Get(newOverrides, k)
      {
        GetSet(newOverrides, syllable, sign, k);
      }
      GetSet(newOverrides, syllable, sign, syllable);
      newOverrides := Set(newOverrides, syllable, sign);
      syllableOverrides := newOverrides;
    }

    /**
     * `removeOverride`: a copy of the map without `syllable`; every other
     * syllable keeps its override, and nothing rendered changes.
     */
    method RemoveOverride(syllable: string)
      requires Valid()
      modifies this
      ensures Valid()
      ensures syllableOverrides == Delete(old(syllableOverrides), syllable)
      ensures forall k :: Get(syllableOverrides, k) == if k == syllable then None else Get(old(syllableOverrides), k)
      ensures RenderedLines() == old(RenderedLines()) && CuneiformOutput() == old(CuneiformOutput())
      ensures Stats() == old(Stats())
      ensures inputText == old(inputText) && renderStyle == old(renderStyle)
      ensures showTransliteration == old(showTransliteration) && showOriginal == old(showOriginal)
    {
      var newOverrides := MapFrom(syllableOverrides);
      MapFromDistinct(syllableOverrides);
      forall k
        ensures Get(Delete(newOverrides, syllable), k) == if k == syllable then None else Get(newOverrides, k)
      {
        GetDelete(newOverrides, syllable, k);
      }
      DeleteDistinct(newOverrides, syllable);
      newOverrides := Delete(newOverrides, syllable);
      syllableOverrides := newOverrides;
    }

    /** `clearOverrides`. */
    method ClearOverrides()
      modifies this
      ensures Valid()
      ensures syllableOverrides == []
      ensures inputText == old(inputText) && renderStyle == old(renderStyle)
      ensures showTransliteration == old(showTransliteration) && showOriginal == old(showOriginal)
    {
      syllableOverrides := [];
    }

    /** `getExportVerse`: the rendered verse, absent for a blank text. */
    method GetExportVerse(now: int) returns (verse: Option<Export.RenderedVerse>)
      ensures verse == RenderedVerse(now)
      ensures verse.None? <==> Blank(inputText)
    {
      if Trim(inputText) == "" {
        return None;
      }
      var lines := RenderText(inputText);
      verse := Some(Export.RenderedVerse(inputText, lines, renderStyle, now));
    }

    /** `loadExample`: the example's text, with no overrides. */
    method LoadExample(text: string)
      modifies this
      ensures Valid()
      ensures inputText == text && syllableOverrides == []
      ensures renderStyle == old(renderStyle) && showTransliteration == old(showTransliteration)
      ensures showOriginal == old(showOriginal)
    {
      inputText := text;
      syllableOverrides := [];
    }

    /** `reset`: every field back to its initial value. */
    method Reset()
      modifies this
      ensures Valid()
      ensures inputText == "" && renderStyle == ClayTablet
      ensures showTransliteration && showOriginal && syllableOverrides == []
    {
      inputText := "";
      renderStyle := ClayTablet;
      showTransliteration := true;
      showOriginal := true;
      syllableOverrides := [];
    }
  }

  /** Toggling the transliteration twice leaves every field as it was. */
  method ToggleTransliterationTwice(store: CreatorStore)
    modifies store
    ensures store.showTransliteration == old(store.showTransliteration)
    ensures store.inputText == old(store.inputText) && store.renderStyle == old(store.renderStyle)
    ensures store.showOriginal == old(store.showOriginal) && store.syllableOverrides == old(store.syllableOverrides)
  {
    store.ToggleTransliteration();
    store.ToggleTransliteration();
  }

  /** Removing an override just set leaves the other overrides as they were. */
  method OverrideThenRemove(store: CreatorStore, syllable: string, sign: string)
    requires store.Valid()
    modifies store
    ensures store.Valid()
    ensures forall k :: Get(store.syllableOverrides, k) == if k == syllable then None else Get(old(store.syllableOverrides), k)
  {
    store.OverrideSyllable(syllable, sign);
    store.RemoveOverride(syllable);
  }
}
