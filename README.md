# Discover Cuneiform, modelled in Dafny

Discover Cuneiform is a teaching site for cuneiform. It has three modes:

- **Create** turns English text into cuneiform signs by phonetic approximation.
- **Read** lets a learner identify a sign on a tablet photograph by counting its wedges.
- **Learn** (the Scribe School) leads a learner through drawing lessons.

This project models the logic behind those modes and proves what it promises:

- **The syllable table and greedy syllabifier.** A word is cleaned to its letters a-z, then cut into chunks of at most four letters. At each position the longest chunk the table knows is taken; a letter nothing matches stands alone.
- **The renderers built on the syllabifier.** Signs per syllable, per word, per line and per text. Also the rendering options, the syllable breakdown, the HTML wrapping, the extraction of cuneiform characters and the syllabification statistics.
- **The sign catalogue and its lookups.** The 68 signs with their wedge compositions, readings and meanings.
- **The wedge matcher.** Tolerance matching, similarity scores, a stable ranking by score, and grouping by wedge count.
- **The stroke analyser.** It classifies a drawn stroke by its angle, counts strokes per direction, and compares them to a target with feedback messages.
- **The twelve-lesson curriculum** and its lookups.
- **The four Svelte stores.** Each is a class whose methods update its fields: the reader, the creator, the scribe and the sign browser.
- **Part of the SVG and PNG/PDF export.** XML escaping, the download file name, and the text elements and height of the SVG picture.

How the model represents JavaScript values:

- **Strings** are `seq<char>` of Unicode code points. `Text.Utf16Length` gives the JavaScript `length`, which counts UTF-16 code units.
- **Built-in string operations** are modelled explicitly in module `Text`: `toLowerCase`/`toUpperCase` (ASCII only), `split`, `split(/\s+/)` with the empty pieces removed, `trim`, `includes` and number-to-text conversion.
- **JavaScript `Set` and `Map`** keep insertion order. They are modelled in `Collections` as sequences without repeated elements or keys.
- **Svelte `$state` fields** are class fields. **`$derived` values** are functions that read them.
- **`Date.now()` and `new Date().toISOString()`** become parameters (`now`, `isoNow`).

Modules, one file each:

| module | source |
|---|---|
| `Seqs`, `Text`, `Collections` | the built-in array, string, `Set` and `Map` operations |
| `SyllableMap` | `src/lib/data/syllable-map.ts` |
| `SyllableKeys` | the uniqueness of the keys of `src/lib/data/syllable-map.ts` |
| `Syllabify` | `src/lib/utils/syllabify.ts` |
| `CuneiformRender` | `src/lib/utils/cuneiform-render.ts` |
| `Signs` | `src/lib/data/signs.ts` |
| `WedgeMatch` | `src/lib/utils/wedge-match.ts` |
| `StrokeAnalysis` | `src/lib/utils/strokeAnalysis.ts` |
| `Lessons` | `src/lib/data/lessons.ts` |
| `ReaderState`, `CreatorState`, `ScribeState`, `SignsState` | the stores under `src/lib/stores/` |
| `Export` | `src/lib/utils/export.ts` |

In the sign catalogue, each sign's character is the code point its `codepoint` field names. The names, readings, meanings, wedge counts and categories are copied as written. In the syllable table, a row's glyph is a placeholder string: the syllable in upper case. No syllabification or rendering property looks inside a glyph.

## Model

| member | source | states |
|---|---|---|
| Text.ToLower | src/lib/utils/syllabify.ts:14 | `toLowerCase` keeps the length and folds each character on its own |
| Text.ToLowerIdempotent | src/lib/data/syllable-map.ts:423-425 | folding to lower case twice is folding once |
| Text.CaseFoldsAgree | src/lib/data/signs.ts:1005-1008 | upper-casing after lower-casing is upper-casing, and the other way round, so either fold compares names alike |
| Text.SplitJoin | src/lib/utils/syllabify.ts:94-97 | the pieces of `split(sep)` joined with `sep` give the text back |
| Text.SplitPieces | src/lib/utils/syllabify.ts:94-97 | `split(sep)` gives one piece more than there are separators, and no piece contains one |
| Text.WordsAreRuns | src/lib/utils/syllabify.ts:83-84 | every word of `split(/\s+/)` with empty pieces removed is non-empty and free of whitespace |
| Text.WordsCoverText | src/lib/utils/syllabify.ts:83-84 | the words, concatenated, are the text with its whitespace removed |
| Text.WordsEmptyIffBlank | src/lib/utils/syllabify.ts:83-84 | a text has no words exactly when it is all whitespace |
| Text.WordsAroundSpace | src/lib/utils/syllabify.ts:83-84 | a whitespace character splits the words into the words before it and the words after it |
| Text.WordsOfLines | src/lib/utils/cuneiform-render.ts:50-65 | splitting on line feeds and then on whitespace finds the same words as splitting the whole text on whitespace |
| Text.NewlinesToSpacesKeepWords | src/lib/utils/cuneiform-render.ts:56 | replacing every line feed with a space changes no word |
| Text.WordsOfTrim | src/lib/stores/creator.svelte.ts:64-66 | trimming a text first changes none of its words |
| Text.TrimEmptyIffNoWords | src/lib/stores/creator.svelte.ts:26-29 | a text trims to "" exactly when it has no words |
| Text.NatToStringRoundTrip | src/lib/utils/strokeAnalysis.ts:138-158 | the decimal text of a count reads back as that count |
| Text.IntToString | src/lib/utils/strokeAnalysis.ts:188-201 | an integer's text starts with '-' exactly when it is negative, and with a digit otherwise |
| Text.Utf16Length | src/lib/stores/creator.svelte.ts:69-71 | the UTF-16 length lies between the number of code points and twice that number |
| Text.Utf16LengthAppend | src/lib/stores/creator.svelte.ts:79-81 | the UTF-16 length of a concatenation is the sum of the lengths |
| Collections.SetAdd | src/lib/stores/scribe.svelte.ts:133 | `set.add(x)` keeps the elements distinct, adds exactly `x`, and changes nothing when `x` is present |
| Collections.SetFromDistinct | src/lib/stores/scribe.svelte.ts:241-244 | `new Set(xs)` keeps a sequence without repeats unchanged, order included |
| Collections.SetFromElements | src/lib/stores/scribe.svelte.ts:241-244 | `new Set(xs)` holds exactly the elements of `xs` |
| Collections.Get | src/lib/stores/scribe.svelte.ts:63-67 | `map.get(k)` is defined exactly when `map.has(k)`, and then returns the value of an entry for `k` |
| Collections.GetSet | src/lib/stores/creator.svelte.ts:105-109 | after `map.set(k, v)`, `k` maps to `v`, every other key keeps its value, and the keys stay distinct |
| Collections.SetKeys | src/lib/stores/scribe.svelte.ts:88-96 | `map.set` keeps the key order and appends a new key at the end |
| Collections.GetDelete | src/lib/stores/creator.svelte.ts:112-116 | after `map.delete(k)`, `k` is absent and every other key keeps its value |
| Collections.DeleteDistinct | src/lib/stores/creator.svelte.ts:112-116 | deleting keeps the keys distinct |
| Collections.MapFromDistinct | src/lib/stores/scribe.svelte.ts:241-244 | `new Map(entries)` keeps entries with distinct keys unchanged, order included |
| Collections.MapFromIsDistinct | src/lib/stores/scribe.svelte.ts:241-244 | `new Map(entries)` never repeats a key, whatever the entries |
| SyllableMap.BuildMapSpec | src/lib/data/syllable-map.ts:416-418 | the map built from the rows has exactly their keys, and each key maps to the LAST row with that key |
| SyllableMap.GetSignForSyllableSpec | src/lib/data/syllable-map.ts:423-425 | the lookup lower-cases its argument, is undefined exactly when no row has that key, and otherwise returns the last such row |
| SyllableMap.HasMappingIffFound | src/lib/data/syllable-map.ts:437-439 | `hasSyllableMapping` holds exactly when `getSignForSyllable` finds a row |
| SyllableMap.InsertSorted | src/lib/data/syllable-map.ts:430-432 | inserting into an ascending list keeps it ascending and adds exactly the new key |
| SyllableMap.SortStrings | src/lib/data/syllable-map.ts:430-432 | the sort of `getAllSyllables` is ascending and a permutation of its input |
| SyllableMap.StringLeTotal | src/lib/data/syllable-map.ts:431 | the default string order compares any two strings |
| SyllableMap.GetAllSyllablesSpec | src/lib/data/syllable-map.ts:430-432 | `getAllSyllables` is the table's keys in ascending order, one per row |
| SyllableKeys.KeysDistinct | src/lib/data/syllable-map.ts:15-411 | no two rows of the table have the same key |
| SyllableKeys.KeyListDistinct | src/lib/data/syllable-map.ts:15-411 | the table's list of keys has no repetitions |
| SyllableKeys.MapKeepsEveryRow | src/lib/data/syllable-map.ts:416-418 | building the `Map` loses no row: each row is the value stored under its own key |
| SyllableKeys.LookupFindsTheRow | src/lib/data/syllable-map.ts:423-425 | a lookup returns THE row keyed by the lower-cased syllable |
| SyllableKeys.GetAllSyllablesDistinct | src/lib/data/syllable-map.ts:430-432 | `getAllSyllables` lists each syllable once, so it ascends strictly |
| SyllableMap.ConfidencePartition | src/lib/data/syllable-map.ts:444-446 | the three confidence filters together keep as many rows as there are |
| SyllableMap.ByConfidence | src/lib/data/syllable-map.ts:444-446 | the rows of one confidence are exactly the rows with that confidence |
| SyllableMap.GetSyllablesByConfidencePartition | src/lib/data/syllable-map.ts:444-446 | the high, medium and low rows together account for every row |
| SyllableMap.TableFacts | src/lib/data/syllable-map.ts:15-411 | every key is one to four lower-case letters, none is "o", "ann" or "anna", and the "an" row is the high-confidence AN sign |
| SyllableMap.KeysWellFormed | src/lib/data/syllable-map.ts:15-411 | every key is one to four lower-case letters |
| SyllableMap.SectionFacts | src/lib/data/syllable-map.ts:15-411 | each of the nineteen commented sections satisfies the row facts |
| SyllableMap.FourLetterKeys | src/lib/data/syllable-map.ts:394-410 | four-letter keys exist ("kesh", "tion"), so the syllabifier's longest try can succeed |
| SyllableMap.NoKeyO | src/lib/data/syllable-map.ts:279-295 | "o", "O", "ann" and "anna" have no mapping |
| SyllableMap.SingleLettersMapped | src/lib/data/syllable-map.ts:332-352 | every letter a-z other than "o" is a key, so only "o" can fall through as unmapped |
| SyllableMap.AnAndNa | src/lib/data/syllable-map.ts:47-74 | "an" resolves to the high-confidence AN sign, and "na" is a key |
| Syllabify.KnownIsHasMapping | src/lib/utils/syllabify.ts:26 | on lower-case letters, the table lookup used by the loop is `hasSyllableMapping` |
| Syllabify.ChunkLength | src/lib/utils/syllabify.ts:24-38 | the chunk taken at a position is 1 to min(4, remaining) letters long, and is mapped unless it is a single letter |
| Syllabify.ChunkLengthIsGreedy | src/lib/utils/syllabify.ts:24-38 | the chunk taken is the longest mapped one, or one letter when none is; no other length qualifies |
| Syllabify.Syllabify | src/lib/utils/syllabify.ts:13-42 | the loop's output is the greedy tokenisation of the cleaned word |
| Syllabify.NextChunk | src/lib/utils/syllabify.ts:24-38 | the inner `for` loop finds the greedy chunk at the current position |
| Syllabify.TokensAreGreedy | src/lib/utils/syllabify.ts:11-42 | the tokens are a greedy segmentation of the input, and the only one |
| Syllabify.TokensConcat | src/lib/utils/syllabify.ts:13-42 | the syllables concatenate back to the cleaned word |
| Syllabify.TokensShape | src/lib/utils/syllabify.ts:24-38 | every syllable has one to four letters, and one of two or more letters is a table key |
| Syllabify.TokensLower | src/lib/utils/syllabify.ts:14 | the syllables of lower-case letters consist of lower-case letters |
| Syllabify.SyllablesSpec | src/lib/utils/syllabify.ts:13-42 | `syllabify` concatenates back to the cleaned word; it is empty exactly when nothing is left after cleaning; syllables are 1-4 letters; an unmapped syllable is a single letter |
| Syllabify.CleanOfLetters | src/lib/utils/syllabify.ts:14 | cleaning leaves a word of lower-case letters unchanged |
| Syllabify.AnnaExample | src/lib/utils/syllabify.ts:13-42 | "anna" is cut as "an" + "na" |
| Syllabify.OExample | src/lib/utils/syllabify.ts:34-38 | "o" becomes one syllable, rendered as the unmapped "?" |
| Syllabify.SyllableToSign | src/lib/utils/syllabify.ts:47-67 | unmapped exactly when the syllable has no mapping, then the sign is "?"; otherwise the row's primary sign, an approximation exactly when the confidence is not high; never both |
| Syllabify.RenderTextSpec | src/lib/utils/syllabify.ts:72-97 | one rendered line per line-feed-separated piece, whose originals joined with line feeds give the text; each line's words are its whitespace-separated words |
| Syllabify.TextToCuneiformSpec | src/lib/utils/syllabify.ts:110-117 | `textToCuneiform` is, line by line, the words' signs joined with spaces, the lines joined with line feeds |
| Syllabify.TallySums | src/lib/utils/syllabify.ts:128-145 | the total is the number of syllables; `unmapped` counts the unmapped syllables, `approximated` the mapped approximations, `mapped` the mapped exact ones; so every syllable is counted once |
| Syllabify.StatsOfTally | src/lib/utils/syllabify.ts:128-151 | the statistics of a syllable list: each count is the number of syllables of its kind, the three add up to the total; with no syllables both rates are 0, otherwise mappingRate = mapped / total and confidenceRate = (mapped + approximated) / total, with 0 <= mappingRate <= confidenceRate <= 1 |
| Syllabify.StatsSpec | src/lib/utils/syllabify.ts:122-152 | `getSyllabificationStats(text)` gives those statistics for the syllables the text renders to |
| Syllabify.NoWordsNoSyllables | src/lib/utils/syllabify.ts:128-131 | lines without words contribute no syllables |
| Syllabify.BlankTextHasNoSyllables | src/lib/utils/syllabify.ts:122-131 | an all-whitespace text has no syllables |
| Syllabify.CountSyllables | src/lib/utils/syllabify.ts:128-145 | the nested counting loops compute the tally of every syllable of every word of every line |
| Syllabify.GetSyllabificationStats | src/lib/utils/syllabify.ts:122-152 | the method returns the statistics of the text |
| CuneiformRender.WithDefaults | src/lib/utils/cuneiform-render.ts:19-24 | each option given is kept, each option missing takes its default |
| CuneiformRender.WithDefaultsSpec | src/lib/utils/cuneiform-render.ts:19-24 | full options come back unchanged, and no options give the defaults |
| CuneiformRender.RenderSyllable | src/lib/utils/cuneiform-render.ts:29-32 | the row's primary sign when the syllable has a mapping, otherwise the unknown character |
| CuneiformRender.RenderSyllableAgrees | src/lib/utils/cuneiform-render.ts:29-32 | with the default '?' it gives the sign `syllableToSign` gives |
| CuneiformRender.RenderTextModes | src/lib/utils/cuneiform-render.ts:50-65 | keeping line breaks renders each line and joins them with line feeds; otherwise it renders the text's words joined with the word separator |
| CuneiformRender.DefaultWordAgrees | src/lib/utils/cuneiform-render.ts:37-45 | with default options a word renders as `wordToCuneiform` renders it |
| CuneiformRender.DefaultsMatchTextToCuneiform | src/lib/utils/cuneiform-render.ts:50-65 | with default options the renderer gives exactly `textToCuneiform` |
| CuneiformRender.BreakdownOf | src/lib/utils/cuneiform-render.ts:86-94 | a syllable's entry is mapped exactly when it has a mapping; then it has the row's sign and confidence; otherwise '?' and 'none' |
| CuneiformRender.GetTextBreakdownSpec | src/lib/utils/cuneiform-render.ts:80-98 | one entry per whitespace-separated word, in order; each syllable's sign is the sign `syllableToSign` gives |
| CuneiformRender.WrapCharsAppend | src/lib/utils/cuneiform-render.ts:103-115 | wrapping characters distributes over concatenation |
| CuneiformRender.WrapCharsSpacing | src/lib/utils/cuneiform-render.ts:108-111 | spaces and line feeds pass through unwrapped |
| CuneiformRender.WrapCharsPieces | src/lib/utils/cuneiform-render.ts:106-114 | the wrapping works character by character: the result is each character's wrapping, in order |
| CuneiformRender.ExtractCuneiformSpec | src/lib/utils/cuneiform-render.ts:120-133 | the cuneiform characters are kept in order and nothing else; extraction distributes over concatenation and is idempotent; the text contains cuneiform exactly when something is extracted |
| CuneiformRender.CountCuneiformCharsSpec | src/lib/utils/cuneiform-render.ts:138-140 | the count is the UTF-16 length, two units per cuneiform character, and 0 exactly when there is none |
| Signs.CategoryNameInjective | src/lib/types/sign.ts:46-61 | distinct categories have distinct names |
| Signs.WithCount | src/lib/types/sign.ts:35-40 | setting one wedge count changes that count and no other |
| Signs.GetSignByCodepoint | src/lib/data/signs.ts:991-993 | the first sign with the code point, undefined exactly when there is none |
| Signs.GetSignByCharacter | src/lib/data/signs.ts:998-1000 | the first sign with the character, undefined exactly when there is none |
| Signs.GetSignByName | src/lib/data/signs.ts:1005-1008 | the first sign whose upper-cased name equals the upper-cased argument, undefined exactly when there is none |
| Signs.GetSignByNameIgnoresCase | src/lib/data/signs.ts:1005-1008 | the name lookup gives the same answer for any case of the argument |
| Signs.GetSignsByCategory | src/lib/data/signs.ts:1013-1015 | every sign returned has the category |
| Signs.GetSignsByReading | src/lib/data/signs.ts:1020-1025 | every sign returned has the lower-cased reading |
| Signs.SearchSignsByMeaning | src/lib/data/signs.ts:1030-1035 | every sign returned has a meaning containing the lower-cased query |
| Signs.GetSignsByCategorySpec | src/lib/data/signs.ts:1013-1015 | exactly the signs of the category, in catalogue order; an unknown category name gives none |
| Signs.GetSignsByReadingSpec | src/lib/data/signs.ts:1020-1025 | exactly the signs with a reading equal to the argument ignoring case; case does not matter |
| Signs.SearchSignsByMeaningSpec | src/lib/data/signs.ts:1030-1035 | exactly the signs with a meaning containing the query ignoring case; the empty query finds every sign with a meaning |
| Signs.SignsWellFormed | src/lib/data/signs.ts:20-986 | the catalogue has 68 signs, each with a non-negative wedge composition, a reading and a meaning |
| Signs.SharedCodepoint | src/lib/data/signs.ts:725-805 | TUM and DUB share U+12308; lookups by code point and by character find TUM, so DUB is never found by them |
| Signs.BeforeTum | src/lib/data/signs.ts:21-724 | no sign before TUM has code point U+12308 |
| SignsState.FilterSignsSpec | src/lib/stores/signs.svelte.ts:19-49 | the filtered signs are, in order, those in the category (if one is set) that match the trimmed lower-cased query by name, reading, meaning or character |
| SignsState.NoFilterShowsAll | src/lib/stores/signs.svelte.ts:23-29 | with no category and a blank query every sign is shown |
| SignsState.SearchIgnoresCase | src/lib/stores/signs.svelte.ts:28-29 | the query's case does not change the result |
| SignsState.SignsStore.constructor | src/lib/stores/signs.svelte.ts:10-16 | the full catalogue, no category, no query; everything is shown |
| SignsState.SignsStore.FilteredSigns | src/lib/stores/signs.svelte.ts:19-49 | every sign shown is in the catalogue and visible under the filters |
| SignsState.SignsStore.TotalCount | src/lib/stores/signs.svelte.ts:52 | the size of the catalogue |
| SignsState.SignsStore.FilteredCount | src/lib/stores/signs.svelte.ts:55 | never more signs shown than the total |
| SignsState.SignsStore.SetCategory | src/lib/stores/signs.svelte.ts:58-61 | sets the category, nothing else changes |
| SignsState.SignsStore.SetSearch | src/lib/stores/signs.svelte.ts:63-66 | sets the query, nothing else changes |
| SignsState.SignsStore.ClearFilters | src/lib/stores/signs.svelte.ts:68-71 | clears both filters, after which every sign is shown |
| SignsState.SignsStore.GetByCategory | src/lib/stores/signs.svelte.ts:74-76 | returns the catalogue's signs of that category |
| SignsState.SignsStore.GetByReading | src/lib/stores/signs.svelte.ts:79-81 | returns the catalogue's signs with that reading |
| SignsState.SignsStore.SearchByMeaning | src/lib/stores/signs.svelte.ts:84-86 | returns the catalogue's signs whose meanings contain the query |
| WedgeMatch.GetTotalWedges | src/lib/utils/wedge-match.ts:117-124 | the total of a non-negative composition is 0 exactly for the empty filter |
| WedgeMatch.CreateEmptyFilter | src/lib/utils/wedge-match.ts:159-161 | the empty filter has no wedges |
| WedgeMatch.MatchProperties | src/lib/utils/wedge-match.ts:13-24 | matching is symmetric and monotone in the tolerance; tolerance 0 means equality; a negative tolerance matches nothing |
| WedgeMatch.WedgeSimilarity | src/lib/utils/wedge-match.ts:29-45 | the score is at least 0, and at most 1 when either composition has no negative count; two empty compositions score 1, and an empty against a non-empty one scores 0 |
| WedgeMatch.SimilarityProperties | src/lib/utils/wedge-match.ts:29-45 | similarity is symmetric, 1 against itself, and 1 only for equal compositions |
| WedgeMatch.MatchByWedges | src/lib/utils/wedge-match.ts:50-66 | every sign returned has a wedge composition |
| WedgeMatch.FindExactWedgeMatch | src/lib/utils/wedge-match.ts:102-112 | every sign returned has exactly the filter's composition |
| WedgeMatch.MatchByWedgesSpec | src/lib/utils/wedge-match.ts:50-66 | exactly the signs with a composition matching the filter within the tolerance, in catalogue order |
| WedgeMatch.ExactIsZeroTolerance | src/lib/utils/wedge-match.ts:102-112 | the exact match is matching with tolerance 0 |
| WedgeMatch.FindSignsByWedgeCount | src/lib/utils/wedge-match.ts:129-135 | every sign returned has a composition whose total lies in [min, max] |
| WedgeMatch.FindSignsByWedgeCountSpec | src/lib/utils/wedge-match.ts:129-135 | exactly the signs whose total lies in [min, max]; none when min > max |
| WedgeMatch.GroupSignsByWedgeCount | src/lib/utils/wedge-match.ts:140-154 | the loop builds groups in which each total holds exactly the signs with that total, in catalogue order; the map's key order is the totals in the order they are first met, each once |
| WedgeMatch.OrderStep | src/lib/utils/wedge-match.ts:144-151 | one more sign appends its total to the key order exactly when no group has that total yet |
| WedgeMatch.KeyOrderFirstSeen | src/lib/utils/wedge-match.ts:140-154 | the totals met in the first n signs, in first-seen order, are the first keys of the map |
| WedgeMatch.GroupsPartition | src/lib/utils/wedge-match.ts:140-154 | a sign is in a group exactly when it has a composition and that total |
| WedgeMatch.CandidatesSpec | src/lib/utils/wedge-match.ts:78-93 | the scored results are the matching signs in order, each scored by its similarity to the filter |
| WedgeMatch.SortByScoreSpec | src/lib/utils/wedge-match.ts:95 | the sort is non-increasing by score, a permutation, and stable: results of equal score keep their order |
| WedgeMatch.InsertByScoreSorted | src/lib/utils/wedge-match.ts:95 | insertion keeps the results ordered by score |
| WedgeMatch.InsertByScoreStable | src/lib/utils/wedge-match.ts:95 | insertion puts a result after every result of its score |
| WedgeMatch.FindSignsByWedges | src/lib/utils/wedge-match.ts:71-97 | the loop and the sort return the stably sorted scored matches |
| WedgeMatch.FindSignsByWedgesSpec | src/lib/utils/wedge-match.ts:71-97 | the ranked results are sorted by score and are a permutation of the scored matches |
| StrokeAnalysis.ClassifyAngle | src/lib/utils/strokeAnalysis.ts:57-73 | an angle is horizontal, vertical or oblique, never a winkelhaken or unknown |
| StrokeAnalysis.ClassifyAngleBands | src/lib/utils/strokeAnalysis.ts:57-73 | horizontal within 25 degrees of 0/180/360, vertical within 25 of 90/270, oblique otherwise |
| StrokeAnalysis.ClassifyAngleOrientation | src/lib/utils/strokeAnalysis.ts:58-59 | a stroke drawn in the opposite direction gets the same class |
| StrokeAnalysis.ClassifyStroke | src/lib/utils/strokeAnalysis.ts:27-55 | unknown exactly for fewer than two points; a winkelhaken exactly when shorter than 10; otherwise classified by its angle |
| StrokeAnalysis.CountsOfSpec | src/lib/utils/strokeAnalysis.ts:78-93 | each direction's count is the number of strokes classified so, and the counts sum to the number of strokes |
| StrokeAnalysis.AnalyzeStrokes | src/lib/utils/strokeAnalysis.ts:78-93 | the counting loop computes the per-direction counts |
| StrokeAnalysis.AxisFeedback | src/lib/utils/strokeAnalysis.ts:137-159 | no message when a kind matches; "Add ..." when wedges are missing; "You have ..." when there are extra ones |
| StrokeAnalysis.CompareToTarget | src/lib/utils/strokeAnalysis.ts:98-177 | the method's comparison has the drawn counts, the differences and the feedback for the strokes |
| StrokeAnalysis.ComparisonSpec | src/lib/utils/strokeAnalysis.ts:98-177 | one message per kind that differs; complete exactly when there is no message; complete implies equal totals; unknown strokes are not counted as drawn |
| StrokeAnalysis.GetProgressMessage | src/lib/utils/strokeAnalysis.ts:182-202 | the "Perfect" message is given exactly for a complete comparison |
| Lessons.GetLessonById | src/lib/data/lessons.ts:332-334 | undefined exactly when no lesson has the id, otherwise a lesson with that id |
| Lessons.GetLessonsByDifficulty | src/lib/data/lessons.ts:339-341 | every lesson returned has the difficulty |
| Lessons.DifficultiesPartition | src/lib/data/lessons.test.ts:63-68 | the three difficulties together hold as many lessons as there are |
| Lessons.GetLessonsByDifficultySpec | src/lib/data/lessons.ts:339-341 | exactly the lessons of the difficulty; the three difficulties account for every lesson |
| Lessons.GetNextLesson | src/lib/data/lessons.ts:346-350 | the lesson after the first one with the id; undefined for an unknown id or the last lesson |
| Lessons.CanStartLesson | src/lib/data/lessons.ts:355-360 | a lesson can start exactly when it exists and its prerequisite, if any, is completed |
| Lessons.CanStartLessonMonotone | src/lib/data/lessons.ts:355-360 | completing more lessons never locks a lesson that was open |
| Lessons.GetTotalLessonCount | src/lib/data/lessons.ts:365-367 | the number of lessons |
| Lessons.LessonsWellFormed | src/lib/data/lessons.test.ts:5-53 | twelve lessons with distinct non-empty ids and steps, each requiring the lesson before it |
| Lessons.ChainedLookups | src/lib/data/lessons.ts:332-360 | in a chained curriculum, lesson i is found by its id, opens exactly when lesson i-1 is done, and is followed by lesson i+1 |
| Lessons.LessonLookups | src/lib/data/lessons.test.ts:35-61 | "wedge-horizontal" is found with its title, "non-existent" is not, and the last lesson has no next one |
| ScribeState.Recorded | src/lib/stores/scribe.svelte.ts:195-197 | at most ten attempts are kept, the new one last, after the most recent earlier ones |
| ScribeState.RecordAllKeepsLatest | src/lib/stores/scribe.svelte.ts:195-197 | whatever the history, the store keeps exactly the ten most recent attempts in order |
| ScribeState.UnlockInOrder | src/lib/stores/scribe.svelte.ts:50-55 | with the first k lessons done, exactly the first k+1 lessons are available |
| ScribeState.UnlockedAt | src/lib/data/lessons.ts:355-360 | with the first k lessons done, lesson i can start exactly when i <= k |
| ScribeState.ScribeStore.constructor | src/lib/stores/scribe.svelte.ts:13-40 | all lessons, nothing completed, no lesson open, an empty canvas and no attempts |
| ScribeState.ScribeStore.AvailableLessons | src/lib/stores/scribe.svelte.ts:50-55 | every available lesson can be started |
| ScribeState.ScribeStore.CurrentStep | src/lib/stores/scribe.svelte.ts:57-61 | null with no lesson, otherwise the current step |
| ScribeState.ScribeStore.CurrentLessonProgress | src/lib/stores/scribe.svelte.ts:63-67 | a percentage in [0, 100), 0 with no lesson or on the first step |
| ScribeState.ScribeStore.OverallProgress | src/lib/stores/scribe.svelte.ts:69-72 | 0 with nothing completed, 100 when every lesson is |
| ScribeState.ScribeStore.StartLesson | src/lib/stores/scribe.svelte.ts:75-99 | succeeds exactly when the lesson can start; then opens it at step 0 on a clear canvas and creates its progress entry if missing; otherwise changes nothing |
| ScribeState.ScribeStore.OpenLesson | src/lib/stores/scribe.svelte.ts:82-98 | opens a startable lesson at step 0 on a clear canvas, and creates its progress entry only if it is missing |
| ScribeState.ScribeStore.NextStep | src/lib/stores/scribe.svelte.ts:102-119 | advances one step on a clear canvas and records it, or completes the lesson on the last step; no lesson, no change |
| ScribeState.ScribeStore.PreviousStep | src/lib/stores/scribe.svelte.ts:122-127 | goes back one step on a clear canvas, never before the first |
| ScribeState.ScribeStore.CompleteLesson | src/lib/stores/scribe.svelte.ts:130-144 | adds the lesson to the completed set and marks its progress complete |
| ScribeState.ScribeStore.ExitLesson | src/lib/stores/scribe.svelte.ts:147-151 | no lesson open, step 0, a clear canvas |
| ScribeState.ScribeStore.GetNextLesson | src/lib/stores/scribe.svelte.ts:154-157 | the lesson after the current one, undefined with none open |
| ScribeState.ScribeStore.AddStroke | src/lib/stores/scribe.svelte.ts:160-169 | appends the stroke, cuts the redo history, saves the canvas and points at it |
| ScribeState.ScribeStore.ClearCanvas | src/lib/stores/scribe.svelte.ts:172-176 | no strokes, no history, index 0 |
| ScribeState.ScribeStore.Undo | src/lib/stores/scribe.svelte.ts:179-184 | puts back the saved canvas at the index and steps back, not below 0 |
| ScribeState.ScribeStore.Redo | src/lib/stores/scribe.svelte.ts:187-192 | steps the history index forward by one unless it is already at the last saved canvas; the strokes on the canvas are left as they were, as in the source |
| ScribeState.ScribeStore.RecordAttempt | src/lib/stores/scribe.svelte.ts:195-197 | the attempts become the recorded list with the new one |
| ScribeState.ScribeStore.ResetProgress | src/lib/stores/scribe.svelte.ts:200-213 | nothing completed, no progress, no lesson open, a clear canvas |
| ScribeState.ScribeStore.LoadProgress | src/lib/stores/scribe.svelte.ts:241-244 | the completed set and progress map are rebuilt from the data |
| ScribeState.ScribeStore.ExportProgress | src/lib/stores/scribe.svelte.ts:247-252 | the completed ids and progress entries, without repeats |
| ScribeState.ProgressRoundTrip | src/lib/stores/scribe.svelte.ts:241-252 | loading exported progress gives the same completed set and progress map back |
| ScribeState.UndoAfterAddStroke | src/lib/stores/scribe.svelte.ts:160-184 | undoing a stroke just added restores the canvas's strokes |
| ReaderState.Merge | src/lib/stores/reader.svelte.ts:116-118 | each count given overwrites, each count missing is kept |
| ReaderState.CountsDetermine | src/lib/types/sign.ts:35-40 | two compositions with the same count of every kind are equal |
| ReaderState.Incremented | src/lib/stores/reader.svelte.ts:121-126 | one more wedge of the kind, the other counts unchanged |
| ReaderState.Decremented | src/lib/stores/reader.svelte.ts:129-134 | one fewer wedge of the kind, never below 0, the other counts unchanged |
| ReaderState.IncrementDecrement | src/lib/stores/reader.svelte.ts:121-134 | decrementing undoes an increment, and a zero count stays 0 |
| ReaderState.ClampTolerance | src/lib/stores/reader.svelte.ts:142-144 | the tolerance is clamped to [0, 3] |
| ReaderState.ReaderStore.constructor | src/lib/stores/reader.svelte.ts:19-49 | no image, no selection, an empty filter, tolerance 1 |
| ReaderState.ReaderStore.CandidateSigns | src/lib/stores/reader.svelte.ts:43 | none while the filter counts no wedges; otherwise the scored matches, sorted by score |
| ReaderState.ReaderStore.FilterByWedges | src/lib/stores/reader.svelte.ts:51-62 | the method computes the candidate signs |
| ReaderState.ReaderStore.UploadImage | src/lib/stores/reader.svelte.ts:66-70 | shows the new image with the selection cleared |
| ReaderState.ReaderStore.ResetView | src/lib/stores/reader.svelte.ts:73-78 | clears the selected region and sign |
| ReaderState.ReaderStore.SetSelection | src/lib/stores/reader.svelte.ts:101-103 | sets the selected region |
| ReaderState.ReaderStore.SetWedgeFilter | src/lib/stores/reader.svelte.ts:116-118 | merges the given counts into the filter |
| ReaderState.ReaderStore.IncrementWedge | src/lib/stores/reader.svelte.ts:121-126 | increments the count of the kind |
| ReaderState.ReaderStore.DecrementWedge | src/lib/stores/reader.svelte.ts:129-134 | decrements the count of the kind, not below 0 |
| ReaderState.ReaderStore.ResetWedgeFilter | src/lib/stores/reader.svelte.ts:137-139 | an empty filter, and so no candidates |
| ReaderState.ReaderStore.SetTolerance | src/lib/stores/reader.svelte.ts:142-144 | the clamped tolerance, so the store's invariant (tolerance in [0, 3]) holds, which every other method keeps |
| ReaderState.ReaderStore.SelectSign | src/lib/stores/reader.svelte.ts:147-149 | sets the selected sign |
| ReaderState.ReaderStore.Reset | src/lib/stores/reader.svelte.ts:152-158 | no image, no selection, an empty filter and no candidates; the tolerance is kept |
| CreatorState.BlankStatsAreZero | src/lib/stores/creator.svelte.ts:49-61 | the blank-text guard of `stats` gives what the statistics would give anyway |
| CreatorState.CreatorStore.constructor | src/lib/stores/creator.svelte.ts:11-23 | empty text, the clay-tablet style, both displays on, no overrides |
| CreatorState.CreatorStore.RenderedLines | src/lib/stores/creator.svelte.ts:26-29 | empty exactly for a blank text; otherwise lines whose originals, joined with line feeds, give the text |
| CreatorState.CreatorStore.RenderedVerse | src/lib/stores/creator.svelte.ts:32-40 | null exactly for a blank text; otherwise the text, its lines, the style and the time |
| CreatorState.CreatorStore.CuneiformOutput | src/lib/stores/creator.svelte.ts:43-46 | "" for a blank text; otherwise `textToCuneiform` of the text |
| CreatorState.CreatorStore.Stats | src/lib/stores/creator.svelte.ts:49-61 | the statistics of the text: counts that add up, rates in [0, 1], all zero for a blank text |
| CreatorState.CreatorStore.WordCount | src/lib/stores/creator.svelte.ts:64-66 | the number of words of the text, 0 exactly when it is blank |
| CreatorState.CreatorStore.CharCount | src/lib/stores/creator.svelte.ts:69-71 | the UTF-16 length, 0 exactly for the empty text |
| CreatorState.CreatorStore.SetText | src/lib/stores/creator.svelte.ts:74-76 | sets the text, nothing else changes |
| CreatorState.CreatorStore.AppendText | src/lib/stores/creator.svelte.ts:79-81 | appends to the text; the character count grows by the appended length |
| CreatorState.CreatorStore.ClearText | src/lib/stores/creator.svelte.ts:84-87 | no text and no overrides, so nothing rendered and no words |
| CreatorState.CreatorStore.SetStyle | src/lib/stores/creator.svelte.ts:90-92 | sets the style |
| CreatorState.CreatorStore.ToggleTransliteration | src/lib/stores/creator.svelte.ts:95-97 | flips the transliteration display |
| CreatorState.CreatorStore.ToggleOriginal | src/lib/stores/creator.svelte.ts:100-102 | flips the original-text display |
| CreatorState.CreatorStore.OverrideSyllable | src/lib/stores/creator.svelte.ts:105-109 | the syllable now maps to the sign, the other overrides are kept, and nothing rendered changes |
| CreatorState.CreatorStore.RemoveOverride | src/lib/stores/creator.svelte.ts:112-116 | the syllable has no override, the others are kept, and nothing rendered changes |
| CreatorState.CreatorStore.ClearOverrides | src/lib/stores/creator.svelte.ts:119-121 | no overrides |
| CreatorState.CreatorStore.GetExportVerse | src/lib/stores/creator.svelte.ts:124-126 | the rendered verse, null for a blank text |
| CreatorState.CreatorStore.LoadExample | src/lib/stores/creator.svelte.ts:129-132 | the example's text and no overrides |
| CreatorState.CreatorStore.Reset | src/lib/stores/creator.svelte.ts:135-141 | every field back to its initial value |
| CreatorState.ToggleTransliterationTwice | src/lib/stores/creator.svelte.ts:95-97 | toggling twice leaves every field as it was |
| CreatorState.OverrideThenRemove | src/lib/stores/creator.svelte.ts:105-116 | removing an override just set leaves the other overrides as they were |
| Export.EscapeXmlPerChar | src/lib/utils/export.ts:213-220 | the five chained replacements escape each character on its own, '&' first so no entity is escaped twice |
| Export.EscapeXmlNoSpecials | src/lib/utils/export.ts:213-220 | the escaped text contains no '<', '>', '"' or '\'' |
| Export.EscapeXmlPlain | src/lib/utils/export.ts:213-220 | a text without the five special characters is unchanged |
| Export.EscapeXmlAppend | src/lib/utils/export.ts:213-220 | escaping distributes over concatenation |
| Export.EscapeXmlRoundTrip | src/lib/utils/export.ts:213-220 | decoding the five entities gives the original text back |
| Export.Dasherize | src/lib/utils/export.ts:24 | each run of characters other than a-z and 0-9 becomes one '-', so there is never "--" |
| Export.DasherizeKeepsSlugChars | src/lib/utils/export.ts:24 | the letters and digits are kept, in order |
| Export.SanitizeBaseName | src/lib/utils/export.ts:22-25 | at most 30 characters, only a-z, 0-9 and '-', never "--" |
| Export.SanitizeSlug | src/lib/utils/export.ts:22-25 | a short name of lower-case letters and digits is kept as it is |
| Export.SanitizeKeepsSlugChars | src/lib/utils/export.ts:22-25 | without truncation the letters and digits of the lower-cased name are kept, in order |
| Export.FilenamePrefix | src/lib/utils/export.ts:16-27 | the name starts with "cuneiform-", the sanitised name and '-' |
| Export.FilenameExtension | src/lib/utils/export.ts:16-27 | the name ends with '.' and the format, its only '.' when the date has none |
| Export.GenerateSvgTexts | src/lib/utils/export.ts:93-111 | the loop and the attribution write exactly the text elements of the picture |
| Export.LineElementsSpec | src/lib/utils/export.ts:93-106 | each line writes one cuneiform element and a transliteration element exactly when the style draws one, and no attribution |
| Export.SvgElementsSpec | src/lib/utils/export.ts:93-111 | one cuneiform element per line, in order; one transliteration element per line exactly when the style shows transliteration and it is included; one attribution element exactly when included |
| Export.WithSvgDefaults | src/lib/utils/export.ts:62-66 | each option given is kept, each option missing takes the value of `DEFAULT_EXPORT_OPTIONS` |
| Export.WithSvgDefaultsSpec | src/lib/utils/export.ts:62-66 | full options come back unchanged, and no options give the defaults |
| Export.SvgHeightSpec | src/lib/utils/export.ts:74-76 | the height is the padding plus 60 per cuneiform, 24 per transliteration and 80 per attribution element drawn, plus 24 per line when transliteration is included but the style draws none |

## Left out

- Zoom, pan and image enhancement in the reader store (`setZoom`, `zoomIn`, `zoomOut`, `setPan`, `setEnhancements`, `resetEnhancements`) are not modelled. They are display settings that no other state depends on. `ReaderStore.ResetView` and `ReaderStore.Reset` are modelled for their other effects.
- Saving to and loading from `localStorage`, and the JSON encoding, are not modelled. Loading goes through `ScribeStore.LoadProgress` and saving through `ScribeStore.ExportProgress`.
- The `browser` checks are not modelled.
- `Date.now()` and `new Date().toISOString()` are parameters.
- The lessons' prose and drawings are left out: descriptions, historical context, step instructions, hints and stroke targets. A lesson keeps its id, title, prerequisite, signs and difficulty, and each step keeps its kind and target sign.
- `ScribeStore.CurrentLessonProgress`: the source divides by the step count. A lesson with no steps would give NaN. The model requires every lesson to have steps, which the curriculum does.
- The similarity score and the stroke angles are real numbers. `Math.atan2` is a parameter of the stroke analysis. Floating-point rounding is not modelled.
- `ReaderState.PartialComposition` models `Partial<WedgeComposition>`. An explicitly `undefined` count is the same as a missing one.
- `CuneiformRender.WithDefaults`, `Export.WithSvgDefaults`: an option passed explicitly as `undefined` is treated as missing and takes the default. In JavaScript the spread keeps the `undefined`: a `wordSeparator` of `undefined` joins with ',', a `preserveLineBreaks`, `includeTransliteration` or `includeAttribution` of `undefined` acts as false, and a `style` of `undefined` throws when its configuration is read.
- Aliasing is not modelled. The stores share lesson, progress and sign objects by reference, and the model copies values.
- `isDrawing` is carried in the scribe store but no modelled method changes it.
- `exportToPNG`, `exportToPDF`, `exportToSVG`, `downloadBlob`, `copyToClipboard` and `createShareableURL` are not modelled. They drive the browser, canvas libraries or the clipboard.
- `Export.GenerateSvgTexts`: the rest of the SVG markup is not modelled. This covers the header, the styles, the background, and the x/y coordinates and font sizes of the text elements.
- The width, DPI and format of the export options are not modelled, because the modelled logic does not read them.
- `Text.ToLower`, `Text.ToUpper`: case folding covers ASCII only. Characters such as U+0130 or U+212A, which JavaScript folds into ASCII letters, are left as they are.
- `CreatorState.CreatorStore.OverrideSyllable`: the overrides are stored, but no rendering reads them. That is also true of the source, so the model proves that rendering ignores them.
- The glyph strings of the syllable table are placeholders. So the model cannot state that the output of `textToCuneiform` consists of cuneiform characters. `extractCuneiform` and `countCuneiformChars` are stated for any text.
- `formatCuneiformHTML`'s outer `<span>`: only the per-character wrapping is stated.
- `StrokeAnalysis.ClassifyStroke`: the stroke's length is kept squared, without `Math.sqrt`. The winkelhaken test compares the square with 100, which is the same test as comparing the length with 10.
- `StrokeAnalysis.GetProgressMessage`: the contract states only when the praise message is given. The four other prompts are written out in the function, but no property about them is proved.
