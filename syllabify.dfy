/**
 * The syllabification engine: a word is cleaned to its letters a-z and cut
 * greedily into the longest chunks (at most four letters) that the
 * syllable table maps, falling back to a single letter; each chunk is then
 * rendered as a sign, and words, lines and texts are rendered from those.
 */
module Syllabify {
  import opened Seqs
  import opened Text
  import opened SyllableMap

  // ---------------------------------------------------------------------
  // Rendered structures
  // ---------------------------------------------------------------------

  /** One syllable and the sign standing for it. */
  datatype RenderedSyllable = RenderedSyllable(
    syllable: string, sign: string, codepoint: string, isApproximation: bool, unmapped: bool)

  datatype RenderedWord = RenderedWord(original: string, syllables: seq<RenderedSyllable>)

  datatype RenderedLine = RenderedLine(original: string, words: seq<RenderedWord>)

  // ---------------------------------------------------------------------
  // syllabify
  // ---------------------------------------------------------------------

  /** `word.toLowerCase().replace(/[^a-z]/g, '')`. */
  function Clean(word: string): (r: string)
  {
    Filter(ToLower(word), IsLowerLetter)
  }

  /**
   * The key test `syllabify` makes on a chunk of a cleaned word, against a
   * table given explicitly. The chunk is already lower case, so the
   * lower-casing inside `hasSyllableMapping` leaves it unchanged
   * (`KnownIsHasMapping`); the site's table is `SYLLABLE_MAP`.
   */
  predicate Known(table: map<string, SyllableMapping>, s: string)
  {
    s in table
  }

  /** On lower-case letters, `Known` against the site's table is `hasSyllableMapping`. */
  lemma KnownIsHasMapping(s: string)
    requires forall k :: 0 <= k < |s| ==> IsLowerLetter(s[k])
    ensures Known(SYLLABLE_MAP, s) <==> HasSyllableMapping(s)
  {
    assert ToLower(s) == s;
  }

  /** The chunk of length `m` at position `i` of `s` exists and is mapped. */
  predicate MappedChunk(table: map<string, SyllableMapping>, s: string, i: nat, m: nat)
  {
    i + m <= |s| && Known(table, s[i..i + m])
  }

  /**
   * The length of the chunk taken at position `i`: the longest mapped
   * chunk among lengths `len`, `len - 1`, ..., 1, or 1 when none is mapped
   * (the single-character fallback).
   */
  function LongestMapped(table: map<string, SyllableMapping>, s: string, i: nat, len: nat): (n: nat)
    requires 1 <= len && i + len <= |s|
    ensures 1 <= n <= len
    ensures MappedChunk(table, s, i, n) || n == 1
  {
    if Known(table, s[i..i + len]) || len == 1 then len else LongestMapped(table, s, i, len - 1)
  }

  function ChunkLength(table: map<string, SyllableMapping>, s: string, i: nat): (n: nat)
    requires i < |s|
    ensures 1 <= n <= Min(4, |s| - i)
    ensures MappedChunk(table, s, i, n) || n == 1
  {
    LongestMapped(table, s, i, Min(4, |s| - i))
  }

  /**
   * The greedy rule: `n` is the length taken at position `i` when the
   * chunk of length `n` is mapped (or `n` is the one-character fallback)
   * and no longer chunk, up to 4 characters, is mapped.
   */
  predicate IsGreedyChunk(table: map<string, SyllableMapping>, s: string, i: nat, n: nat)
  {
    i < |s| && 1 <= n <= Min(4, |s| - i)
    && (MappedChunk(table, s, i, n) || n == 1)
    && forall m :: n < m <= Min(4, |s| - i) ==> !MappedChunk(table, s, i, m)
  }

  lemma {:induction false} LongestMappedIsGreedy(table: map<string, SyllableMapping>, s: string, i: nat, len: nat)
    requires i < |s| && 1 <= len <= Min(4, |s| - i)
    requires forall m :: len < m <= Min(4, |s| - i) ==> !MappedChunk(table, s, i, m)
    ensures IsGreedyChunk(table, s, i, LongestMapped(table, s, i, len))
    decreases len
  {
    if !(Known(table, s[i..i + len]) || len == 1) {
      LongestMappedIsGreedy(table, s, i, len - 1);
    }
  }

  /** The chunk length satisfies the greedy rule, and it is the only length that does. */
  lemma ChunkLengthIsGreedy(table: map<string, SyllableMapping>, s: string, i: nat, n: nat)
    requires i < |s|
    ensures IsGreedyChunk(table, s, i, ChunkLength(table, s, i))
    ensures IsGreedyChunk(table, s, i, n) ==> n == ChunkLength(table, s, i)
  {
    LongestMappedIsGreedy(table, s, i, Min(4, |s| - i));
  }

  /** The chunks `syllabify` cuts from the cleaned string `s`, from position `i` on. */
  function TokensFrom(table: map<string, SyllableMapping>, s: string, i: nat): (r: seq<string>)
    decreases |s| - i
  {
    if i >= |s| then []
    else
      var n := ChunkLength(table, s, i);
      [s[i..i + n]] + TokensFrom(table, s, i + n)
  }

  function Tokens(table: map<string, SyllableMapping>, s: string): seq<string>
  {
    TokensFrom(table, s, 0)
  }

  /** `syllabify(word)` as a value: the tokens of the cleaned word under the site's table. */
  function Syllables(word: string): seq<string>
  {
    Tokens(SYLLABLE_MAP, Clean(word))
  }

  /**
   * One step of the loop: pushing the greedy chunk at `i` onto the
   * syllables found so far keeps them a prefix of the word's tokens.
   */
  lemma PushChunk(table: map<string, SyllableMapping>, s: string, done: seq<string>, i: nat, n: nat)
    requires IsGreedyChunk(table, s, i, n)
    ensures done + TokensFrom(table, s, i) == (done + [s[i..i + n]]) + TokensFrom(table, s, i + n)
  {
    ChunkLengthIsGreedy(table, s, i, n);
    assert TokensFrom(table, s, i) == [s[i..i + n]] + TokensFrom(table, s, i + n);
  }

  /**
   * The body of the loop in `syllabify`: try the chunks at `i` from the
   * longest (at most 4 characters) down to length 1 and take the first
   * that is mapped; when none is, fall back to the single character.
   */
  method NextChunk(table: map<string, SyllableMapping>, cleaned: string, i: nat) returns (chunk: string)
    requires i < |cleaned|
    ensures IsGreedyChunk(table, cleaned, i, |chunk|) && chunk == cleaned[i..i + |chunk|]
  {
    var len := Min(4, |cleaned| - i);
    while len >= 1
      invariant 0 <= len <= Min(4, |cleaned| - i)
      invariant forall m :: len < m <= Min(4, |cleaned| - i) ==> !MappedChunk(table, cleaned, i, m)
      decreases len
    {
      chunk := cleaned[i..i + len];
      if Known(table, chunk) {
        return chunk;
      }
      len := len - 1;
    }
    chunk := [cleaned[i]];
    assert chunk == cleaned[i..i + 1];
  }

  /** `syllabify`: the greedy longest-match loop over the cleaned word. */
  method Syllabify(table: map<string, SyllableMapping>, word: string) returns (syllables: seq<string>)
    ensures syllables == Tokens(table, Clean(word))
  {
    var cleaned := Clean(word);
    if |cleaned| == 0 {
      return [];
    }
    syllables := [];
    var i := 0;
    while i < |cleaned|
      invariant 0 <= i <= |cleaned|
      invariant syllables + TokensFrom(table, cleaned, i) == Tokens(table, cleaned)
      decreases |cleaned| - i
    {
      var chunk := NextChunk(table, cleaned, i);
      PushChunk(table, cleaned, syllables, i, |chunk|);
      syllables := syllables + [chunk];
      i := i + |chunk|;
    }
  }

  /**
   * Greedy segmentation, stated independently of `TokensFrom`: consecutive
   * chunks of `s` from position `i` to the end, each satisfying the greedy
   * rule where it starts.
   */
  predicate GreedySegmentation(table: map<string, SyllableMapping>, s: string, i: nat, toks: seq<string>)
    decreases |toks|
  {
    if |toks| == 0 then i >= |s|
    else
      var n := |toks[0]|;
      i + n <= |s| && toks[0] == s[i..i + n] && IsGreedyChunk(table, s, i, n)
      && GreedySegmentation(table, s, i + n, toks[1..])
  }

  /** The tokens are the unique greedy segmentation of their input. */
  lemma TokensAreGreedy(table: map<string, SyllableMapping>, s: string, i: nat, toks: seq<string>)
    ensures GreedySegmentation(table, s, i, TokensFrom(table, s, i))
    ensures GreedySegmentation(table, s, i, toks) ==> toks == TokensFrom(table, s, i)
  {
    TokensSegmentGreedily(table, s, i);
    if GreedySegmentation(table, s, i, toks) {
      GreedySegmentationUnique(table, s, i, toks);
    }
  }

  /** The tokens from `i` on form a greedy segmentation. */
  lemma {:induction false} TokensSegmentGreedily(table: map<string, SyllableMapping>, s: string, i: nat)
    ensures GreedySegmentation(table, s, i, TokensFrom(table, s, i))
    decreases |s| - i
  {
    if i < |s| {
      var n := ChunkLength(table, s, i);
      ChunkLengthIsGreedy(table, s, i, n);
      var r := TokensFrom(table, s, i);
      assert r[1..] == TokensFrom(table, s, i + n);
      TokensSegmentGreedily(table, s, i + n);
    }
  }

  /** No other segmentation is greedy. */
  lemma {:induction false} GreedySegmentationUnique(table: map<string, SyllableMapping>, s: string, i: nat, toks: seq<string>)
    requires GreedySegmentation(table, s, i, toks)
    ensures toks == TokensFrom(table, s, i)
    decreases |s| - i
  {
    if i < |s| {
      var n := ChunkLength(table, s, i);
      ChunkLengthIsGreedy(table, s, i, |toks[0]|);
      var r := TokensFrom(table, s, i);
      assert r[1..] == TokensFrom(table, s, i + n);
      GreedySegmentationUnique(table, s, i + n, toks[1..]);
      assert toks == [toks[0]] + toks[1..];
    } else {
      assert |toks| == 0;
    }
  }

  /** The tokens from `i` on concatenate back to `s[i..]`. */
  lemma {:induction false} TokensConcat(table: map<string, SyllableMapping>, s: string, i: nat)
    requires i <= |s|
    ensures Flatten(TokensFrom(table, s, i)) == s[i..]
    decreases |s| - i
  {
    if i < |s| {
      var n := ChunkLength(table, s, i);
      TokensConcat(table, s, i + n);
      assert s[i..] == s[i..i + n] + s[i + n..];
      assert TokensFrom(table, s, i)[1..] == TokensFrom(table, s, i + n);
    }
  }

  /**
   * Every token from `i` on has 1 to 4 characters, and one of 2 or more
   * characters is a key of the table.
   */
  lemma {:induction false} TokensShape(table: map<string, SyllableMapping>, s: string, i: nat)
    ensures forall k :: 0 <= k < |TokensFrom(table, s, i)| ==>
              1 <= |TokensFrom(table, s, i)[k]| <= 4
              && (|TokensFrom(table, s, i)[k]| >= 2 ==> Known(table, TokensFrom(table, s, i)[k]))
    decreases |s| - i
  {
    if i < |s| {
      var n := ChunkLength(table, s, i);
      TokensShape(table, s, i + n);
      var r := TokensFrom(table, s, i);
      assert r[1..] == TokensFrom(table, s, i + n);
      forall k | 0 <= k < |r| ensures 1 <= |r[k]| <= 4 && (|r[k]| >= 2 ==> Known(table, r[k])) {
        if k > 0 {
          assert r[k] == r[1..][k - 1];
        }
      }
    }
  }

  /** Tokens of lower-case letters are lower-case letters. */
  lemma {:induction false} TokensLower(table: map<string, SyllableMapping>, s: string, i: nat)
    requires forall j :: 0 <= j < |s| ==> IsLowerLetter(s[j])
    ensures forall k, j :: 0 <= k < |TokensFrom(table, s, i)| && 0 <= j < |TokensFrom(table, s, i)[k]| ==>
              IsLowerLetter(TokensFrom(table, s, i)[k][j])
    decreases |s| - i
  {
    if i < |s| {
      var n := ChunkLength(table, s, i);
      TokensLower(table, s, i + n);
      var r := TokensFrom(table, s, i);
      assert r[1..] == TokensFrom(table, s, i + n);
      forall k, j | 0 <= k < |r| && 0 <= j < |r[k]| ensures IsLowerLetter(r[k][j]) {
        if k == 0 {
          assert r[0][j] == s[i + j];
        } else {
          assert r[k] == r[1..][k - 1];
        }
      }
    }
  }

  /**
   * `syllabify` in terms of its input: the syllables rebuild the cleaned
   * word; a word with no letter a-z gives no syllable; every syllable has 1
   * to 4 letters, and one that is not a key of the table is the
   * single-letter fallback.
   */
  lemma SyllablesSpec(word: string)
    ensures Flatten(Syllables(word)) == Clean(word)
    ensures Clean(word) == "" <==> Syllables(word) == []
    ensures forall k :: 0 <= k < |Syllables(word)| ==> 1 <= |Syllables(word)[k]| <= 4
    ensures forall k :: 0 <= k < |Syllables(word)| && !HasSyllableMapping(Syllables(word)[k]) ==>
              |Syllables(word)[k]| == 1
  {
    var cleaned := Clean(word);
    TokensConcat(SYLLABLE_MAP, cleaned, 0);
    assert cleaned[0..] == cleaned;
    TokensShape(SYLLABLE_MAP, cleaned, 0);
    TokensLower(SYLLABLE_MAP, cleaned, 0);
    var toks := Syllables(word);
    forall k | 0 <= k < |toks| && |toks[k]| >= 2 ensures HasSyllableMapping(toks[k]) {
      KnownIsHasMapping(toks[k]);
    }
  }

  /** A word already in lower-case letters a-z is its own cleaned form. */
  lemma CleanOfLetters(word: string)
    requires forall k :: 0 <= k < |word| ==> IsLowerLetter(word[k])
    ensures Clean(word) == word
  {
    assert ToLower(word) == word;
    FilterAll(word, IsLowerLetter);
  }

  lemma AnnaFirstChunk()
    ensures ChunkLength(SYLLABLE_MAP, "anna", 0) == 2
  {
    NoKeyO();
    AnAndNa();
    KnownIsHasMapping("anna");
    KnownIsHasMapping("ann");
    KnownIsHasMapping("an");
    var s := "anna";
    assert s[0..4] == "anna" && s[0..3] == "ann" && s[0..2] == "an";
    assert LongestMapped(SYLLABLE_MAP, s, 0, 2) == 2;
    assert LongestMapped(SYLLABLE_MAP, s, 0, 3) == 2;
  }

  lemma NaChunk()
    ensures ChunkLength(SYLLABLE_MAP, "anna", 2) == 2
  {
    AnAndNa();
    KnownIsHasMapping("na");
    assert "anna"[2..4] == "na";
  }

  /** The site's example: "anna" is cut as "an" + "na", not as "ann" + "a". */
  lemma AnnaExample()
    ensures Syllables("anna") == ["an", "na"]
  {
    CleanOfLetters("anna");
    AnnaFirstChunk();
    NaChunk();
    var s := "anna";
    assert s[0..2] == "an" && s[2..4] == "na";
    assert TokensFrom(SYLLABLE_MAP, s, 4) == [];
  }

  /** "o" has no key, so it becomes a single unmapped syllable. */
  lemma OExample()
    ensures Syllables("o") == ["o"]
    ensures SyllableToSign("o").unmapped && SyllableToSign("o").sign == "?"
  {
    NoKeyO();
    HasMappingIffFound("o");
    var s := "o";
    CleanOfLetters(s);
    assert ChunkLength(SYLLABLE_MAP, s, 0) == 1;
    assert s[0..1] == s;
    assert TokensFrom(SYLLABLE_MAP, s, 1) == [];
  }

  // ---------------------------------------------------------------------
  // syllableToSign and the rendering functions
  // ---------------------------------------------------------------------

  /** `syllableToSign`: the sign of the table row for the syllable, or '?' when there is none. */
  function SyllableToSign(syllable: string): (r: RenderedSyllable)
    ensures r.syllable == syllable && r.codepoint == ""
    ensures !(r.isApproximation && r.unmapped)
    ensures r.unmapped <==> !HasSyllableMapping(syllable)
    ensures r.unmapped ==> r.sign == "?" && !r.isApproximation
    ensures !r.unmapped ==>
      var m := GetSignForSyllable(syllable).value;
      r.sign == m.primarySign && (r.isApproximation <==> m.confidence != High)
  {
    HasMappingIffFound(syllable);
    match GetSignForSyllable(syllable)
    case Some(m) => RenderedSyllable(syllable, m.primarySign, "", m.confidence != High, false)
    case None => RenderedSyllable(syllable, "?", "", false, true)
  }

  /** `renderWord`. */
  function RenderWord(word: string): RenderedWord
  {
    RenderedWord(word, Map(SyllableToSign, Syllables(word)))
  }

  /** `renderLine`: the words of the line are its whitespace-separated pieces. */
  function RenderLine(line: string): RenderedLine
  {
    RenderedLine(line, Map(RenderWord, Words(line)))
  }

  /** `renderText`: one rendered line per '\n'-separated piece. */
  function RenderText(text: string): seq<RenderedLine>
  {
    Map(RenderLine, Split(text, '\n'))
  }

  function LineOriginal(l: RenderedLine): string { l.original }

  function WordOriginal(w: RenderedWord): string { w.original }

  /**
   * The rendered text has one line per line feed plus one (so "" renders
   * as one empty line), the lines keep their original text (joined by
   * line feeds they give back the input), and each line's words are its
   * non-empty whitespace-separated pieces.
   */
  lemma RenderTextSpec(text: string)
    ensures |RenderText(text)| == Occurrences(text, '\n') + 1
    ensures Join(Map(LineOriginal, RenderText(text)), "\n") == text
    ensures forall k :: 0 <= k < |RenderText(text)| ==>
              Map(WordOriginal, RenderText(text)[k].words) == Words(RenderText(text)[k].original)
  {
    SplitPieces(text, '\n');
    SplitJoin(text, '\n');
    assert Map(LineOriginal, RenderText(text)) == Split(text, '\n');
  }

  function SignOf(s: RenderedSyllable): string { s.sign }

  /** Signs of a rendered word, joined with ''. */
  function WordSigns(w: RenderedWord): string
  {
    Join(Map(SignOf, w.syllables), "")
  }

  /** Signs of a rendered line: each word's signs, words joined with ' '. */
  function LineSigns(l: RenderedLine): string
  {
    Join(Map(WordSigns, l.words), " ")
  }

  /** `wordToCuneiform`. */
  function WordToCuneiform(word: string): string
  {
    WordSigns(RenderWord(word))
  }

  /** `textToCuneiform`. */
  function TextToCuneiform(text: string): string
  {
    Join(Map(LineSigns, RenderText(text)), "\n")
  }

  /** One line of `textToCuneiform`, computed from the raw line. */
  function LineToCuneiform(line: string): string
  {
    Join(Map(WordToCuneiform, Words(line)), " ")
  }

  /**
   * `textToCuneiform(t)` is `wordToCuneiform` of each word joined by ' '
   * within a line, and the lines joined by '\n'.
   */
  lemma TextToCuneiformSpec(text: string)
    ensures TextToCuneiform(text) == Join(Map(LineToCuneiform, Split(text, '\n')), "\n")
  {
    var lines := Split(text, '\n');
    forall k | 0 <= k < |lines| ensures LineSigns(RenderLine(lines[k])) == LineToCuneiform(lines[k]) {
      assert Map(WordSigns, Map(RenderWord, Words(lines[k]))) == Map(WordToCuneiform, Words(lines[k]));
    }
    assert Map(LineSigns, RenderText(text)) == Map(LineToCuneiform, lines);
  }

  // ---------------------------------------------------------------------
  // getSyllabificationStats
  // ---------------------------------------------------------------------

  datatype Counts = Counts(total: nat, mapped: nat, approximated: nat, unmapped: nat)

  /** One step of the counting loop: unmapped first, then approximated, else mapped. */
  function Tick(c: Counts, s: RenderedSyllable): Counts
  {
    if s.unmapped then c.(total := c.total + 1, unmapped := c.unmapped + 1)
    else if s.isApproximation then c.(total := c.total + 1, approximated := c.approximated + 1)
    else c.(total := c.total + 1, mapped := c.mapped + 1)
  }

  /** The counters after visiting `syls` in order. */
  function Tally(syls: seq<RenderedSyllable>): Counts
  {
    if |syls| == 0 then Counts(0, 0, 0, 0)
    else Tick(Tally(syls[..|syls| - 1]), syls[|syls| - 1])
  }

  function WordSyllables(w: RenderedWord): seq<RenderedSyllable> { w.syllables }

  function LineSyllables(l: RenderedLine): seq<RenderedSyllable>
  {
    Flatten(Map(WordSyllables, l.words))
  }

  /** Every syllable of the rendered lines, in reading order. */
  function TextSyllables(lines: seq<RenderedLine>): seq<RenderedSyllable>
  {
    Flatten(Map(LineSyllables, lines))
  }

  /** Lines without words hold no syllables. */
  lemma {:induction false} NoWordsNoSyllables(lines: seq<RenderedLine>)
    requires forall k :: 0 <= k < |lines| ==> lines[k].words == []
    ensures TextSyllables(lines) == []
  {
    if |lines| > 0 {
      NoWordsNoSyllables(lines[1..]);
      assert Map(LineSyllables, lines)[1..] == Map(LineSyllables, lines[1..]);
      assert LineSyllables(lines[0]) == Flatten([]);
    }
  }

  /** A text of whitespace alone renders to lines without a single syllable. */
  lemma BlankTextHasNoSyllables(text: string)
    requires AllSpace(text)
    ensures TextSyllables(RenderText(text)) == []
  {
    var lines := Split(text, '\n');
    SplitAllSpace(text, '\n');
    forall k | 0 <= k < |lines|
      ensures RenderText(text)[k].words == []
    {
      WordsEmptyIffBlank(lines[k]);
    }
    NoWordsNoSyllables(RenderText(text));
  }

  datatype SyllabificationStats = SyllabificationStats(
    totalSyllables: nat, mappedSyllables: nat, approximatedSyllables: nat, unmappedSyllables: nat,
    mappingRate: real, confidenceRate: real)

  function StatsOf(c: Counts): SyllabificationStats
  {
    SyllabificationStats(
      c.total, c.mapped, c.approximated, c.unmapped,
      if c.total > 0 then c.mapped as real / c.total as real else 0.0,
      if c.total > 0 then (c.mapped + c.approximated) as real / c.total as real else 0.0)
  }

  /** `getSyllabificationStats(text)` as a value. */
  function SyllabificationStatsOf(text: string): SyllabificationStats
  {
    StatsOf(Tally(TextSyllables(RenderText(text))))
  }

  /** The three kinds of rendered syllable the counting loop tells apart, in its order of tests. */
  predicate IsUnmapped(s: RenderedSyllable) { s.unmapped }

  predicate IsApproximated(s: RenderedSyllable) { !s.unmapped && s.isApproximation }

  predicate IsMapped(s: RenderedSyllable) { !s.unmapped && !s.isApproximation }

  /**
   * Each counter counts exactly the syllables of its kind, and the three
   * kinds share out the total.
   */
  lemma {:induction false} TallySums(syls: seq<RenderedSyllable>)
    ensures Tally(syls).total == |syls|
    ensures Tally(syls).unmapped == |Filter(syls, IsUnmapped)|
    ensures Tally(syls).approximated == |Filter(syls, IsApproximated)|
    ensures Tally(syls).mapped == |Filter(syls, IsMapped)|
    ensures Tally(syls).total == Tally(syls).mapped + Tally(syls).approximated + Tally(syls).unmapped
    decreases |syls|
  {
    if |syls| > 0 {
      var init, last := syls[..|syls| - 1], syls[|syls| - 1];
      TallySums(init);
      assert syls == init + [last];
      FilterAppend(init, [last], IsUnmapped);
      FilterAppend(init, [last], IsApproximated);
      FilterAppend(init, [last], IsMapped);
    }
  }

  /**
   * The statistics of a syllable list: each count is the number of
   * syllables of its kind, and every syllable is counted once as mapped,
   * approximated or unmapped; both rates are 0 for a list without
   * syllables and otherwise are the mapped share and the
   * mapped-or-approximated share of the total, which lie in [0, 1] with the
   * mapping rate at most the confidence rate.
   */
  predicate StatsDescribe(s: SyllabificationStats, syls: seq<RenderedSyllable>)
  {
    s.totalSyllables == |syls|
    && s.unmappedSyllables == |Filter(syls, IsUnmapped)|
    && s.approximatedSyllables == |Filter(syls, IsApproximated)|
    && s.mappedSyllables == |Filter(syls, IsMapped)|
    && s.totalSyllables == s.mappedSyllables + s.approximatedSyllables + s.unmappedSyllables
    && (s.totalSyllables == 0 ==> s.mappingRate == 0.0 && s.confidenceRate == 0.0)
    && (s.totalSyllables > 0 ==>
          s.mappingRate == s.mappedSyllables as real / s.totalSyllables as real
          && s.confidenceRate == (s.mappedSyllables + s.approximatedSyllables) as real / s.totalSyllables as real
          && 0.0 <= s.mappingRate <= s.confidenceRate <= 1.0)
  }

  lemma StatsOfTally(syls: seq<RenderedSyllable>)
    ensures StatsDescribe(StatsOf(Tally(syls)), syls)
  {
    var c := Tally(syls);
    TallySums(syls);
    if c.total > 0 {
      RatioBounds(c.mapped, c.mapped + c.approximated, c.total);
    }
  }

  /** `getSyllabificationStats(text)` describes the syllables the text renders to. */
  lemma StatsSpec(text: string)
    ensures StatsDescribe(SyllabificationStatsOf(text), TextSyllables(RenderText(text)))
  {
    StatsOfTally(TextSyllables(RenderText(text)));
  }

  lemma RatioBounds(a: nat, b: nat, t: nat)
    requires a <= b <= t && t > 0
    ensures 0.0 <= a as real / t as real <= b as real / t as real <= 1.0
  {
    var tr := t as real;
    var x, y := a as real / tr, b as real / tr;
    assert x * tr == a as real && y * tr == b as real;
    assert (y - x) * tr == b as real - a as real;
    assert (1.0 - y) * tr == tr - b as real;
  }

  /** Counting one more syllable of the current word. */
  lemma TallyNext(prefix: seq<RenderedSyllable>, syls: seq<RenderedSyllable>, k: nat)
    requires k < |syls|
    ensures Tally(prefix + syls[..k + 1]) == Tick(Tally(prefix + syls[..k]), syls[k])
  {
    assert prefix + syls[..k + 1] == (prefix + syls[..k]) + [syls[k]];
  }

  /** Finishing the `j`-th word of a line extends the counted prefix by that word. */
  lemma WordDone(before: seq<RenderedSyllable>, words: seq<RenderedWord>, j: nat)
    requires j < |words|
    ensures before + Flatten(Map(WordSyllables, words[..j])) + words[j].syllables[..|words[j].syllables|]
            == before + Flatten(Map(WordSyllables, words[..j + 1]))
  {
    FlattenMapSnoc(WordSyllables, words, j);
    assert words[j].syllables[..|words[j].syllables|] == WordSyllables(words[j]);
  }

  /** Finishing the `i`-th line extends the counted prefix by that line. */
  lemma LineDone(lines: seq<RenderedLine>, i: nat)
    requires i < |lines|
    ensures TextSyllables(lines[..i]) + Flatten(Map(WordSyllables, lines[i].words[..|lines[i].words|]))
            == TextSyllables(lines[..i + 1])
  {
    FlattenMapSnoc(LineSyllables, lines, i);
    assert lines[i].words[..|lines[i].words|] == lines[i].words;
  }

  /** The counting loop of `getSyllabificationStats`, over lines, words and syllables. */
  method CountSyllables(lines: seq<RenderedLine>) returns (c: Counts)
    ensures c == Tally(TextSyllables(lines))
  {
    var total, mapped, approximated, unmapped := 0, 0, 0, 0;
    var i := 0;
    while i < |lines|
      invariant 0 <= i <= |lines|
      invariant Counts(total, mapped, approximated, unmapped) == Tally(TextSyllables(lines[..i]))
    {
      var line := lines[i];
      ghost var before := TextSyllables(lines[..i]);
      assert before + Flatten(Map(WordSyllables, line.words[..0])) == before;
      var j := 0;
      while j < |line.words|
        invariant 0 <= j <= |line.words|
        invariant Counts(total, mapped, approximated, unmapped)
                  == Tally(before + Flatten(Map(WordSyllables, line.words[..j])))
      {
        var word := line.words[j];
        ghost var prefix := before + Flatten(Map(WordSyllables, line.words[..j]));
        assert prefix + word.syllables[..0] == prefix;
        var k := 0;
        while k < |word.syllables|
          invariant 0 <= k <= |word.syllables|
          invariant Counts(total, mapped, approximated, unmapped) == Tally(prefix + word.syllables[..k])
        {
          var syl := word.syllables[k];
          TallyNext(prefix, word.syllables, k);
          total := total + 1;
          if syl.unmapped {
            unmapped := unmapped + 1;
          } else if syl.isApproximation {
            approximated := approximated + 1;
          } else {
            mapped := mapped + 1;
          }
          k := k + 1;
        }
        WordDone(before, line.words, j);
        j := j + 1;
      }
      LineDone(lines, i);
      i := i + 1;
    }
    assert lines[..i] == lines;
    c := Counts(total, mapped, approximated, unmapped);
  }

  /** `getSyllabificationStats`: render the text, count, and derive the two rates. */
  method GetSyllabificationStats(text: string) returns (stats: SyllabificationStats)
    ensures stats == SyllabificationStatsOf(text)
  {
    var lines := RenderText(text);
    var c := CountSyllables(lines);
    stats := SyllabificationStats(
      c.total, c.mapped, c.approximated, c.unmapped,
      if c.total > 0 then c.mapped as real / c.total as real else 0.0,
      if c.total > 0 then (c.mapped + c.approximated) as real / c.total as real else 0.0);
  }
}
