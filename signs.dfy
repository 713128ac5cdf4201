/**
 * The cuneiform sign catalog (src/lib/data/signs.ts) and its lookup
 * helpers. The lookups take the catalog as a parameter, as `find` and
 * `filter` callbacks over an immutable array; `SIGNS` is the catalog the
 * site passes.
 *
 * Each sign's `character` is written as the code point its `codepoint`
 * field names. The provenance record (`source`) is the same constant for
 * every entry and is not modelled.
 */
module Signs {
  import opened Seqs
  import opened Text

  datatype Category =
    | Nature | Body | People | Actions | Objects | Numbers | Animals | Food
    | Buildings | Divine | Cosmos | Abstract | Containers | Textile | Tools

  /** The string a `SignCategory` is in the source. */
  function CategoryName(c: Category): (r: string)
    ensures |r| > 0 && forall i :: 0 <= i < |r| ==> IsLowerLetter(r[i])
  {
    match c
    case Nature => "nature"
    case Body => "body"
    case People => "people"
    case Actions => "actions"
    case Objects => "objects"
    case Numbers => "numbers"
    case Animals => "animals"
    case Food => "food"
    case Buildings => "buildings"
    case Divine => "divine"
    case Cosmos => "cosmos"
    case Abstract => "abstract"
    case Containers => "containers"
    case Textile => "textile"
    case Tools => "tools"
  }

  /** Distinct categories have distinct names, so a name selects one category. */
  lemma CategoryNameInjective(c: Category, d: Category)
    ensures CategoryName(c) == CategoryName(d) <==> c == d
  {
    if c != d {
      var x, y := CategoryName(c), CategoryName(d);
      assert |x| != |y| || exists i :: 0 <= i < |x| && x[i] != y[i] by {
        match c
        case Nature => assert x[0] == 'n';
        case Body => assert x[0] == 'b';
        case People => assert x[0] == 'p';
        case Actions => assert x[1] == 'c';
        case Objects => assert x[0] == 'o';
        case Numbers => assert x[1] == 'u';
        case Animals => assert x[1] == 'n';
        case Food => assert x[0] == 'f';
        case Buildings => assert x[1] == 'u';
        case Divine => assert x[1] == 'i';
        case Cosmos => assert x[0] == 'c';
        case Abstract => assert x[1] == 'b';
        case Containers => assert x[1] == 'o';
        case Textile => assert x[0] == 't';
        case Tools => assert x[1] == 'o';
      }
    }
  }

  datatype ReadingType = Syllabic | Logographic

  datatype Language = Sumerian | Akkadian

  /** One attested reading of a sign. */
  datatype SignReading = SignReading(value: string, kind: ReadingType, language: Option<Language>)

  /** Numbers of horizontal, vertical and oblique wedges and of winkelhaken. */
  datatype WedgeComposition = WedgeComposition(horizontal: int, vertical: int, oblique: int, winkelhaken: int)

  /** The four kinds of wedge: `WedgeType`, and the keys of a `WedgeComposition`. */
  datatype WedgeType = HorizontalWedge | VerticalWedge | ObliqueWedge | WinkelhakenWedge

  /** `c[type]`. */
  function CountOf(c: WedgeComposition, t: WedgeType): int
  {
    match t
    case HorizontalWedge => c.horizontal
    case VerticalWedge => c.vertical
    case ObliqueWedge => c.oblique
    case WinkelhakenWedge => c.winkelhaken
  }

  /** `{ ...c, [type]: n }`: the composition with one count replaced. */
  function WithCount(c: WedgeComposition, t: WedgeType, n: int): (r: WedgeComposition)
    ensures CountOf(r, t) == n
    ensures forall u :: u != t ==> CountOf(r, u) == CountOf(c, u)
  {
    match t
    case HorizontalWedge => c.(horizontal := n)
    case VerticalWedge => c.(vertical := n)
    case ObliqueWedge => c.(oblique := n)
    case WinkelhakenWedge => c.(winkelhaken := n)
  }

  predicate NonNegative(w: WedgeComposition)
  {
    w.horizontal >= 0 && w.vertical >= 0 && w.oblique >= 0 && w.winkelhaken >= 0
  }

  datatype CuneiformSign = CuneiformSign(
    codepoint: string,
    character: string,
    name: string,
    readings: seq<SignReading>,
    meanings: seq<string>,
    category: Category,
    wedgeComposition: Option<WedgeComposition>,
    mzlNumber: Option<nat>)

  /** The basic syllabic signs A to MA, in catalog order (src/lib/data/signs.ts lines 21-357). */
  const SYLLABIC_A_TO_MA: seq<CuneiformSign> := [
    // lines 22-36
    CuneiformSign("U+12000", "\U{12000}", "A",
      [SignReading("a", Syllabic, None), SignReading("dur5", Logographic, Some(Sumerian)), SignReading("e4", Syllabic, None)],
      ["water", "seed", "father", "offspring"],
      Nature, Some(WedgeComposition(4, 0, 0, 1)), Some(839)),
    // lines 37-51
    CuneiformSign("U+1202D", "\U{1202D}", "AN",
      [SignReading("an", Syllabic, None), SignReading("dingir", Logographic, Some(Sumerian)), SignReading("ilu", Logographic, Some(Akkadian))],
      ["sky", "heaven", "god", "divine determinative"],
      Divine, Some(WedgeComposition(1, 1, 2, 1)), Some(13)),
    // lines 52-65
    CuneiformSign("U+12040", "\U{12040}", "BA",
      [SignReading("ba", Syllabic, None), SignReading("pa4", Syllabic, None)],
      ["to give", "to allot", "portion"],
      Actions, Some(WedgeComposition(2, 1, 0, 0)), Some(14)),
    // lines 66-81
    CuneiformSign("U+12042", "\U{12042}", "BAD",
      [SignReading("bad", Syllabic, None), SignReading("bat", Syllabic, None), SignReading("be", Syllabic, None), SignReading("til", Logographic, Some(Sumerian))],
      ["to open", "distant", "to die"],
      Actions, Some(WedgeComposition(1, 0, 0, 0)), Some(113)),
    // lines 82-97
    CuneiformSign("U+12049", "\U{12049}", "BI",
      [SignReading("bi", Syllabic, None), SignReading("pi", Syllabic, None), SignReading("pe", Syllabic, None), SignReading("kas", Logographic, Some(Sumerian))],
      ["beer", "wine", "to speak"],
      Food, Some(WedgeComposition(3, 2, 0, 0)), Some(358)),
    // lines 98-112
    CuneiformSign("U+12051", "\U{12051}", "BU",
      [SignReading("bu", Syllabic, None), SignReading("pu", Syllabic, None), SignReading("gid2", Logographic, Some(Sumerian))],
      ["long", "to pull", "to tear out"],
      Actions, Some(WedgeComposition(2, 1, 1, 0)), Some(580)),
    // lines 113-128
    CuneiformSign("U+1207A", "\U{1207A}", "DU",
      [SignReading("du", Syllabic, None), SignReading("tu", Syllabic, None), SignReading("gin", Logographic, Some(Sumerian)), SignReading("gub", Logographic, Some(Sumerian))],
      ["to go", "to walk", "to stand", "to bring"],
      Actions, Some(WedgeComposition(2, 2, 1, 0)), Some(350)),
    // lines 129-142
    CuneiformSign("U+1208A", "\U{1208A}", "E",
      [SignReading("e", Syllabic, None), SignReading("i", Syllabic, None)],
      ["house", "temple", "to speak"],
      Buildings, Some(WedgeComposition(3, 0, 0, 0)), Some(308)),
    // lines 143-156
    CuneiformSign("U+1208D", "\U{1208D}", "E2",
      [SignReading("e2", Syllabic, None), SignReading("bitu", Logographic, Some(Akkadian))],
      ["house", "temple", "household"],
      Buildings, Some(WedgeComposition(4, 3, 2, 0)), Some(324)),
    // lines 157-171
    CuneiformSign("U+12095", "\U{12095}", "EN",
      [SignReading("en", Syllabic, None), SignReading("in", Syllabic, None), SignReading("bel", Logographic, Some(Akkadian))],
      ["lord", "master", "high priest"],
      People, Some(WedgeComposition(3, 2, 0, 1)), Some(164)),
    // lines 172-185
    CuneiformSign("U+120A0", "\U{120A0}", "ESH",
      [SignReading("esh", Syllabic, None), SignReading("es", Syllabic, None)],
      ["three", "shrine"],
      Numbers, Some(WedgeComposition(0, 3, 0, 0)), Some(1)),
    // lines 186-200
    CuneiformSign("U+120B7", "\U{120B7}", "GA",
      [SignReading("ga", Syllabic, None), SignReading("qa", Syllabic, None), SignReading("ka", Syllabic, None)],
      ["milk", "to bring"],
      Food, Some(WedgeComposition(3, 1, 0, 1)), Some(491)),
    // lines 201-215
    CuneiformSign("U+120D5", "\U{120D5}", "GI",
      [SignReading("gi", Syllabic, None), SignReading("ge", Syllabic, None), SignReading("ke", Syllabic, None)],
      ["reed", "to return", "faithful"],
      Nature, Some(WedgeComposition(2, 2, 0, 0)), Some(85)),
    // lines 216-229
    CuneiformSign("U+12100", "\U{12100}", "GU",
      [SignReading("gu", Syllabic, None), SignReading("qu", Syllabic, None)],
      ["cord", "string", "thread"],
      Objects, Some(WedgeComposition(3, 0, 0, 0)), Some(891)),
    // lines 230-243
    CuneiformSign("U+1212C", "\U{1212C}", "HA",
      [SignReading("ha", Syllabic, None), SignReading("ku6", Logographic, Some(Sumerian))],
      ["fish", "may (optative)"],
      Animals, Some(WedgeComposition(4, 1, 0, 0)), Some(589)),
    // lines 244-256
    CuneiformSign("U+12148", "\U{12148}", "I",
      [SignReading("i", Syllabic, None)],
      ["oil", "fat", "five"],
      Food, Some(WedgeComposition(0, 5, 0, 0)), Some(252)),
    // lines 257-272
    CuneiformSign("U+12157", "\U{12157}", "KA",
      [SignReading("ka", Syllabic, None), SignReading("ga", Syllabic, None), SignReading("zu2", Logographic, Some(Sumerian)), SignReading("dug4", Logographic, Some(Sumerian))],
      ["mouth", "word", "to speak", "tooth"],
      Body, Some(WedgeComposition(5, 3, 0, 1)), Some(24)),
    // lines 273-287
    CuneiformSign("U+12197", "\U{12197}", "KI",
      [SignReading("ki", Syllabic, None), SignReading("ke4", Syllabic, None), SignReading("gi7", Syllabic, None)],
      ["earth", "place", "land", "ground"],
      Nature, Some(WedgeComposition(3, 1, 0, 1)), Some(737)),
    // lines 288-302
    CuneiformSign("U+121A0", "\U{121A0}", "KU",
      [SignReading("ku", Syllabic, None), SignReading("qu", Syllabic, None), SignReading("tush", Logographic, Some(Sumerian))],
      ["to eat", "to place", "to lie down"],
      Actions, Some(WedgeComposition(4, 2, 0, 0)), Some(808)),
    // lines 303-316
    CuneiformSign("U+121BE", "\U{121BE}", "LA",
      [SignReading("la", Syllabic, None), SignReading("la2", Syllabic, None)],
      ["to hang", "to weigh", "to stretch", "plenty"],
      Actions, Some(WedgeComposition(2, 2, 1, 0)), Some(89)),
    // lines 317-330
    CuneiformSign("U+121F4", "\U{121F4}", "LI",
      [SignReading("li", Syllabic, None), SignReading("le", Syllabic, None)],
      ["oil", "juniper"],
      Nature, Some(WedgeComposition(3, 2, 0, 0)), Some(59)),
    // lines 331-344
    CuneiformSign("U+12217", "\U{12217}", "LUGAL",
      [SignReading("lugal", Logographic, Some(Sumerian)), SignReading("sharru", Logographic, Some(Akkadian))],
      ["king", "ruler"],
      People, Some(WedgeComposition(4, 3, 1, 0)), Some(266)),
    // lines 345-357
    CuneiformSign("U+12222", "\U{12222}", "MA",
      [SignReading("ma", Syllabic, None)],
      ["ship", "to go"],
      Objects, Some(WedgeComposition(2, 2, 0, 0)), Some(342))
  ]

  /** The basic syllabic signs ME to ZU (src/lib/data/signs.ts lines 358-678). */
  const SYLLABIC_ME_TO_ZU: seq<CuneiformSign> := [
    // lines 358-371
    CuneiformSign("U+1222B", "\U{1222B}", "ME",
      [SignReading("me", Syllabic, None), SignReading("mi", Syllabic, None)],
      ["divine powers", "being", "I (pronoun)"],
      Abstract, Some(WedgeComposition(3, 1, 0, 0)), Some(532)),
    // lines 372-384
    CuneiformSign("U+1222C", "\U{1222C}", "MIN",
      [SignReading("min", Syllabic, None)],
      ["two"],
      Numbers, Some(WedgeComposition(0, 2, 0, 0)), Some(826)),
    // lines 385-398
    CuneiformSign("U+1222F", "\U{1222F}", "MU",
      [SignReading("mu", Syllabic, None), SignReading("shu", Logographic, Some(Sumerian))],
      ["year", "name", "to grow"],
      Abstract, Some(WedgeComposition(2, 4, 0, 0)), Some(98)),
    // lines 399-411
    CuneiformSign("U+12240", "\U{12240}", "NA",
      [SignReading("na", Syllabic, None)],
      ["person", "stone", "man"],
      People, Some(WedgeComposition(3, 1, 0, 0)), Some(70)),
    // lines 412-426
    CuneiformSign("U+12248", "\U{12248}", "NE",
      [SignReading("ne", Syllabic, None), SignReading("ni", Syllabic, None), SignReading("izi", Logographic, Some(Sumerian))],
      ["fire", "this", "self"],
      Nature, Some(WedgeComposition(4, 2, 2, 0)), Some(313)),
    // lines 427-439
    CuneiformSign("U+12261", "\U{12261}", "NU",
      [SignReading("nu", Syllabic, None)],
      ["not", "image", "likeness"],
      Abstract, Some(WedgeComposition(2, 1, 0, 0)), Some(75)),
    // lines 440-452
    CuneiformSign("U+1228F", "\U{1228F}", "RA",
      [SignReading("ra", Syllabic, None)],
      ["to strike", "to go"],
      Actions, Some(WedgeComposition(2, 1, 0, 1)), Some(511)),
    // lines 453-466
    CuneiformSign("U+12292", "\U{12292}", "RI",
      [SignReading("ri", Syllabic, None), SignReading("re", Syllabic, None)],
      ["to impose", "to direct"],
      Actions, Some(WedgeComposition(2, 1, 1, 0)), Some(142)),
    // lines 467-480
    CuneiformSign("U+122A0", "\U{122A0}", "SA",
      [SignReading("sa", Syllabic, None), SignReading("za", Syllabic, None)],
      ["sinew", "net", "to roast"],
      Body, Some(WedgeComposition(4, 1, 0, 0)), Some(172)),
    // lines 481-494
    CuneiformSign("U+122AB", "\U{122AB}", "SHA",
      [SignReading("sha", Syllabic, None), SignReading("sa4", Syllabic, None)],
      ["heart", "middle", "half"],
      Body, Some(WedgeComposition(3, 3, 0, 1)), Some(566)),
    // lines 495-508
    CuneiformSign("U+122AC", "\U{122AC}", "SHAR2",
      [SignReading("shar", Syllabic, None), SignReading("sar", Syllabic, None)],
      ["garden", "to write", "3600"],
      Buildings, Some(WedgeComposition(5, 4, 0, 1)), Some(630)),
    // lines 509-522
    CuneiformSign("U+122C0", "\U{122C0}", "SHU",
      [SignReading("shu", Syllabic, None), SignReading("su", Syllabic, None)],
      ["hand", "to pour", "portion"],
      Body, Some(WedgeComposition(2, 2, 0, 1)), Some(354)),
    // lines 523-536
    CuneiformSign("U+122D9", "\U{122D9}", "TA",
      [SignReading("ta", Syllabic, None), SignReading("da", Syllabic, None)],
      ["from", "with", "side"],
      Abstract, Some(WedgeComposition(3, 1, 0, 0)), Some(248)),
    // lines 537-551
    CuneiformSign("U+122EB", "\U{122EB}", "TI",
      [SignReading("ti", Syllabic, None), SignReading("te", Syllabic, None), SignReading("til", Logographic, Some(Sumerian))],
      ["arrow", "rib", "life", "to live"],
      Objects, Some(WedgeComposition(2, 2, 1, 0)), Some(73)),
    // lines 552-566
    CuneiformSign("U+12306", "\U{12306}", "TU",
      [SignReading("tu", Syllabic, None), SignReading("du", Syllabic, None), SignReading("tur", Logographic, Some(Sumerian))],
      ["small", "child", "young"],
      People, Some(WedgeComposition(2, 3, 0, 0)), Some(58)),
    // lines 567-580
    CuneiformSign("U+1230B", "\U{1230B}", "U",
      [SignReading("u", Syllabic, None), SignReading("u2", Syllabic, None)],
      ["ten", "plant", "and"],
      Numbers, Some(WedgeComposition(1, 0, 0, 1)), Some(411)),
    // lines 581-593
    CuneiformSign("U+1230D", "\U{1230D}", "U2",
      [SignReading("u2", Syllabic, None)],
      ["grass", "plant", "herb"],
      Nature, Some(WedgeComposition(2, 1, 0, 0)), Some(490)),
    // lines 594-606
    CuneiformSign("U+12326", "\U{12326}", "UM",
      [SignReading("um", Syllabic, None)],
      ["reed rope", "old woman"],
      Objects, Some(WedgeComposition(3, 2, 0, 0)), Some(238)),
    // lines 607-620
    CuneiformSign("U+12328", "\U{12328}", "UR",
      [SignReading("ur", Syllabic, None), SignReading("lik", Syllabic, None)],
      ["dog", "lion", "servant"],
      Animals, Some(WedgeComposition(4, 1, 0, 0)), Some(575)),
    // lines 621-634
    CuneiformSign("U+12351", "\U{12351}", "USH",
      [SignReading("ush", Syllabic, None), SignReading("us", Syllabic, None)],
      ["blood", "to die", "foundation"],
      Body, Some(WedgeComposition(3, 1, 1, 0)), Some(381)),
    // lines 635-648
    CuneiformSign("U+12360", "\U{12360}", "ZA",
      [SignReading("za", Syllabic, None), SignReading("sa", Syllabic, None)],
      ["stone", "you"],
      Objects, Some(WedgeComposition(3, 3, 0, 0)), Some(851)),
    // lines 649-663
    CuneiformSign("U+12365", "\U{12365}", "ZI",
      [SignReading("zi", Syllabic, None), SignReading("ze", Syllabic, None), SignReading("si", Syllabic, None)],
      ["life", "breath", "soul", "throat"],
      Body, Some(WedgeComposition(2, 2, 1, 0)), Some(140)),
    // lines 664-677
    CuneiformSign("U+1236A", "\U{1236A}", "ZU",
      [SignReading("zu", Syllabic, None), SignReading("su", Syllabic, None)],
      ["to know", "tooth", "your"],
      Abstract, Some(WedgeComposition(2, 2, 0, 1)), Some(15))
  ]

  /** The basic syllabic section, held as two halves so that indexing stays shallow for the verifier. */
  const SYLLABIC_SIGNS: seq<CuneiformSign> := SYLLABIC_A_TO_MA + SYLLABIC_ME_TO_ZU

  /** The numerals (src/lib/data/signs.ts lines 679-708). */
  const NUMERAL_SIGNS: seq<CuneiformSign> := [
    // lines 680-693
    CuneiformSign("U+12415", "\U{12415}", "DISH",
      [SignReading("dish", Syllabic, None), SignReading("1", Logographic, None)],
      ["one", "1"],
      Numbers, Some(WedgeComposition(0, 1, 0, 0)), Some(748)),
    // lines 694-707
    CuneiformSign("U+1241E", "\U{1241E}", "ASH",
      [SignReading("ash", Syllabic, None), SignReading("1", Logographic, None)],
      ["one", "single"],
      Numbers, Some(WedgeComposition(0, 1, 0, 0)), Some(1))
  ]

  /** The common logograms (src/lib/data/signs.ts lines 709-985). */
  const LOGOGRAM_SIGNS: seq<CuneiformSign> := [
    // lines 710-724
    CuneiformSign("U+1214E", "\U{1214E}", "IM",
      [SignReading("im", Syllabic, None), SignReading("em", Syllabic, None), SignReading("tum", Syllabic, None)],
      ["wind", "clay", "tablet", "storm"],
      Nature, Some(WedgeComposition(4, 2, 1, 0)), Some(641)),
    // lines 725-738
    CuneiformSign("U+12308", "\U{12308}", "TUM",
      [SignReading("tum", Syllabic, None), SignReading("dum", Syllabic, None)],
      ["to bring", "to carry"],
      Actions, Some(WedgeComposition(3, 2, 1, 0)), Some(350)),
    // lines 739-752
    CuneiformSign("U+12229", "\U{12229}", "MASH",
      [SignReading("mash", Syllabic, None), SignReading("mas", Syllabic, None)],
      ["twin", "goat", "interest"],
      Animals, Some(WedgeComposition(2, 2, 0, 1)), Some(120)),
    // lines 753-765
    CuneiformSign("U+1202B", "\U{1202B}", "AL",
      [SignReading("al", Syllabic, None)],
      ["hoe", "desire"],
      Tools, Some(WedgeComposition(3, 2, 0, 0)), Some(474)),
    // lines 766-778
    CuneiformSign("U+12034", "\U{12034}", "AR",
      [SignReading("ar", Syllabic, None)],
      ["praise", "glory"],
      Abstract, Some(WedgeComposition(4, 2, 0, 1)), Some(851)),
    // lines 779-791
    CuneiformSign("U+12038", "\U{12038}", "ASH2",
      [SignReading("ash2", Syllabic, None)],
      ["one"],
      Numbers, Some(WedgeComposition(1, 0, 0, 0)), Some(1)),
    // lines 792-805
    CuneiformSign("U+12308", "\U{12308}", "DUB",
      [SignReading("dub", Syllabic, None), SignReading("tup", Syllabic, None)],
      ["tablet", "to heap up"],
      Objects, Some(WedgeComposition(4, 3, 0, 0)), Some(138)),
    // lines 806-819
    CuneiformSign("U+1210C", "\U{1210C}", "GUR",
      [SignReading("gur", Syllabic, None), SignReading("kur", Syllabic, None)],
      ["basket", "to turn"],
      Containers, Some(WedgeComposition(5, 2, 0, 0)), Some(111)),
    // lines 820-834
    CuneiformSign("U+121AD", "\U{121AD}", "KUR",
      [SignReading("kur", Syllabic, None), SignReading("gur", Syllabic, None), SignReading("mat", Logographic, Some(Akkadian))],
      ["mountain", "land", "underworld", "foreign land"],
      Nature, Some(WedgeComposition(3, 0, 3, 0)), Some(578)),
    // lines 835-850
    CuneiformSign("U+12312", "\U{12312}", "UD",
      [SignReading("ud", Syllabic, None), SignReading("ut", Syllabic, None), SignReading("tam", Syllabic, None), SignReading("par", Syllabic, None)],
      ["sun", "day", "light", "time", "storm"],
      Cosmos, Some(WedgeComposition(4, 0, 4, 1)), Some(596)),
    // lines 851-864
    CuneiformSign("U+12311", "\U{12311}", "UDU",
      [SignReading("udu", Syllabic, None), SignReading("lu", Syllabic, None)],
      ["sheep"],
      Animals, Some(WedgeComposition(3, 2, 1, 0)), Some(537)),
    // lines 865-878
    CuneiformSign("U+120FB", "\U{120FB}", "GU4",
      [SignReading("gu4", Syllabic, None), SignReading("gud", Syllabic, None)],
      ["ox", "bull", "cattle"],
      Animals, Some(WedgeComposition(5, 3, 1, 0)), Some(472)),
    // lines 879-891
    CuneiformSign("U+1219F", "\U{1219F}", "LAM",
      [SignReading("lam", Syllabic, None)],
      ["abundance", "growth"],
      Abstract, Some(WedgeComposition(4, 3, 0, 0)), Some(693)),
    // lines 892-904
    CuneiformSign("U+12246", "\U{12246}", "NAM",
      [SignReading("nam", Syllabic, None)],
      ["destiny", "fate", "status"],
      Abstract, Some(WedgeComposition(3, 2, 0, 0)), Some(79)),
    // lines 905-917
    CuneiformSign("U+12263", "\U{12263}", "NUN",
      [SignReading("nun", Syllabic, None)],
      ["prince", "noble"],
      People, Some(WedgeComposition(2, 3, 0, 0)), Some(143)),
    // lines 918-930
    CuneiformSign("U+12297", "\U{12297}", "RU",
      [SignReading("ru", Syllabic, None)],
      ["to send", "to build"],
      Actions, Some(WedgeComposition(3, 2, 0, 0)), Some(68)),
    // lines 931-944
    CuneiformSign("U+122BB", "\U{122BB}", "SHE",
      [SignReading("she", Syllabic, None), SignReading("se", Syllabic, None)],
      ["barley", "grain"],
      Food, Some(WedgeComposition(1, 1, 1, 1)), Some(579)),
    // lines 945-958
    CuneiformSign("U+122F0", "\U{122F0}", "TAB",
      [SignReading("tab", Syllabic, None), SignReading("dab", Syllabic, None)],
      ["to double", "companion", "pair"],
      Numbers, Some(WedgeComposition(2, 2, 0, 0)), Some(209)),
    // lines 959-972
    CuneiformSign("U+12134", "\U{12134}", "HASH",
      [SignReading("hash", Syllabic, None), SignReading("hish", Syllabic, None)],
      ["eight"],
      Numbers, Some(WedgeComposition(0, 4, 4, 0)), Some(636)),
    // lines 973-985
    CuneiformSign("U+12399", "\U{12399}", "DISH2",
      [SignReading("1", Logographic, None)],
      ["one", "single"],
      Numbers, Some(WedgeComposition(0, 1, 0, 0)), Some(748))
  ]

  /** The catalog: the three sections in order. */
  const SIGNS: seq<CuneiformSign> := SYLLABIC_SIGNS + NUMERAL_SIGNS + LOGOGRAM_SIGNS

  // ---------------------------------------------------------------------
  // Lookups
  // ---------------------------------------------------------------------

  function CodepointIs(codepoint: string): CuneiformSign -> bool
  {
    (s: CuneiformSign) => s.codepoint == codepoint
  }

  function CharacterIs(character: string): CuneiformSign -> bool
  {
    (s: CuneiformSign) => s.character == character
  }

  function NameIs(upper: string): CuneiformSign -> bool
  {
    (s: CuneiformSign) => ToUpper(s.name) == upper
  }

  function CategoryIs(category: string): CuneiformSign -> bool
  {
    (s: CuneiformSign) => CategoryName(s.category) == category
  }

  /** Some reading of the sign lower-cases to `lower`. */
  predicate HasReading(s: CuneiformSign, lower: string)
  {
    exists k :: 0 <= k < |s.readings| && ToLower(s.readings[k].value) == lower
  }

  function ReadingIs(lower: string): CuneiformSign -> bool
  {
    (s: CuneiformSign) => HasReading(s, lower)
  }

  /** Some meaning of the sign, lower-cased, includes `lower`. */
  predicate HasMeaning(s: CuneiformSign, lower: string)
  {
    exists k :: 0 <= k < |s.meanings| && Contains(ToLower(s.meanings[k]), lower)
  }

  function MeaningIs(lower: string): CuneiformSign -> bool
  {
    (s: CuneiformSign) => HasMeaning(s, lower)
  }

  /** `getSignByCodepoint`: the first sign with that codepoint. */
  function GetSignByCodepoint(catalog: seq<CuneiformSign>, codepoint: string): (r: Option<CuneiformSign>)
    ensures r.None? <==> forall j :: 0 <= j < |catalog| ==> catalog[j].codepoint != codepoint
    ensures r.Some? ==>
      exists i :: (0 <= i < |catalog| && r.value == catalog[i] && r.value.codepoint == codepoint &&
        forall j :: 0 <= j < i ==> catalog[j].codepoint != codepoint)
  {
    Find(catalog, CodepointIs(codepoint))
  }

  /** `getSignByCharacter`: the first sign with that character. */
  function GetSignByCharacter(catalog: seq<CuneiformSign>, character: string): (r: Option<CuneiformSign>)
    ensures r.None? <==> forall j :: 0 <= j < |catalog| ==> catalog[j].character != character
    ensures r.Some? ==>
      exists i :: (0 <= i < |catalog| && r.value == catalog[i] && r.value.character == character &&
        forall j :: 0 <= j < i ==> catalog[j].character != character)
  {
    Find(catalog, CharacterIs(character))
  }

  /** `getSignByName`: the first sign whose name equals `name` ignoring case. */
  function GetSignByName(catalog: seq<CuneiformSign>, name: string): (r: Option<CuneiformSign>)
    ensures r.None? <==> forall j :: 0 <= j < |catalog| ==> ToUpper(catalog[j].name) != ToUpper(name)
    ensures r.Some? ==>
      exists i :: (0 <= i < |catalog| && r.value == catalog[i] && ToUpper(r.value.name) == ToUpper(name) &&
        forall j :: 0 <= j < i ==> ToUpper(catalog[j].name) != ToUpper(name))
  {
    Find(catalog, NameIs(ToUpper(name)))
  }

  /** Looking a sign up by name does not depend on the case of the query. */
  lemma GetSignByNameIgnoresCase(catalog: seq<CuneiformSign>, name: string)
    ensures GetSignByName(catalog, ToLower(name)) == GetSignByName(catalog, name)
    ensures GetSignByName(catalog, ToUpper(name)) == GetSignByName(catalog, name)
  {
    CaseFoldsAgree(name);
    assert ToUpper(ToUpper(name)) == ToUpper(name);
  }

  /** `getSignsByCategory`; the category arrives as a string. */
  function GetSignsByCategory(catalog: seq<CuneiformSign>, category: string): (r: seq<CuneiformSign>)
    ensures forall i :: 0 <= i < |r| ==> CategoryName(r[i].category) == category
  {
    Filter(catalog, CategoryIs(category))
  }

  /**
   * A category lookup returns exactly the catalog's signs of that category,
   * in catalog order; a string that names no category returns nothing.
   */
  lemma GetSignsByCategorySpec(catalog: seq<CuneiformSign>, c: Category, x: CuneiformSign, other: string)
    ensures x in GetSignsByCategory(catalog, CategoryName(c)) <==> x in catalog && x.category == c
    ensures GetSignsByCategory(catalog + [x], CategoryName(c)) ==
      GetSignsByCategory(catalog, CategoryName(c)) + (if x.category == c then [x] else [])
    ensures (forall d :: CategoryName(d) != other) ==> GetSignsByCategory(catalog, other) == []
  {
    FilterMembers(catalog, CategoryIs(CategoryName(c)), x);
    CategoryNameInjective(x.category, c);
    FilterAppend(catalog, [x], CategoryIs(CategoryName(c)));
    if forall d :: CategoryName(d) != other {
      FilterNone(catalog, CategoryIs(other));
    }
  }

  /** `getSignsByReading`: signs with a reading equal to `reading` ignoring case. */
  function GetSignsByReading(catalog: seq<CuneiformSign>, reading: string): (r: seq<CuneiformSign>)
    ensures forall i :: 0 <= i < |r| ==> HasReading(r[i], ToLower(reading))
  {
    Filter(catalog, ReadingIs(ToLower(reading)))
  }

  /**
   * A sign is returned exactly when one of its readings equals the query
   * ignoring case, and the case of the query does not matter.
   */
  lemma GetSignsByReadingSpec(catalog: seq<CuneiformSign>, reading: string, x: CuneiformSign)
    ensures x in GetSignsByReading(catalog, reading) <==>
      x in catalog && exists k :: 0 <= k < |x.readings| && ToLower(x.readings[k].value) == ToLower(reading)
    ensures GetSignsByReading(catalog, ToUpper(reading)) == GetSignsByReading(catalog, reading)
  {
    FilterMembers(catalog, ReadingIs(ToLower(reading)), x);
    CaseFoldsAgree(reading);
  }

  /** `searchSignsByMeaning`: signs with a meaning that includes `query` ignoring case. */
  function SearchSignsByMeaning(catalog: seq<CuneiformSign>, query: string): (r: seq<CuneiformSign>)
    ensures forall i :: 0 <= i < |r| ==> HasMeaning(r[i], ToLower(query))
  {
    Filter(catalog, MeaningIs(ToLower(query)))
  }

  /**
   * A sign is returned exactly when one of its lower-cased meanings includes
   * the lower-cased query; the empty query returns every sign that has a
   * meaning.
   */
  lemma SearchSignsByMeaningSpec(catalog: seq<CuneiformSign>, query: string, x: CuneiformSign)
    ensures x in SearchSignsByMeaning(catalog, query) <==>
      x in catalog && exists k :: 0 <= k < |x.meanings| && Contains(ToLower(x.meanings[k]), ToLower(query))
    ensures SearchSignsByMeaning(catalog, ToUpper(query)) == SearchSignsByMeaning(catalog, query)
    ensures x in SearchSignsByMeaning(catalog, "") <==> x in catalog && |x.meanings| > 0
  {
    FilterMembers(catalog, MeaningIs(ToLower(query)), x);
    CaseFoldsAgree(query);
    FilterMembers(catalog, MeaningIs(ToLower("")), x);
    if |x.meanings| > 0 {
      ContainsTrivial(ToLower(x.meanings[0]));
    }
  }

  // ---------------------------------------------------------------------
  // Facts about the catalog
  // ---------------------------------------------------------------------

  /** Every sign carries a wedge composition with no negative count. */
  predicate Composed(s: CuneiformSign)
  {
    s.wedgeComposition.Some? && NonNegative(s.wedgeComposition.value)
  }

  /** Every sign has at least one reading and one meaning. */
  predicate Described(s: CuneiformSign)
  {
    |s.readings| > 0 && |s.meanings| > 0
  }

  lemma SyllabicSignsWellFormed()
    ensures |SYLLABIC_SIGNS| == 46
    ensures forall i :: 0 <= i < |SYLLABIC_SIGNS| ==> Composed(SYLLABIC_SIGNS[i]) && Described(SYLLABIC_SIGNS[i])
  {
    SyllabicAToMaWellFormed();
    SyllabicMeToZuWellFormed();
  }

  lemma SyllabicAToMaWellFormed()
    ensures forall i :: 0 <= i < |SYLLABIC_A_TO_MA| ==> Composed(SYLLABIC_A_TO_MA[i]) && Described(SYLLABIC_A_TO_MA[i])
  {
  }

  lemma SyllabicMeToZuWellFormed()
    ensures forall i :: 0 <= i < |SYLLABIC_ME_TO_ZU| ==> Composed(SYLLABIC_ME_TO_ZU[i]) && Described(SYLLABIC_ME_TO_ZU[i])
  {
  }

  lemma NumeralSignsWellFormed()
    ensures |NUMERAL_SIGNS| == 2
    ensures forall i :: 0 <= i < |NUMERAL_SIGNS| ==> Composed(NUMERAL_SIGNS[i]) && Described(NUMERAL_SIGNS[i])
  {
  }

  lemma LogogramSignsWellFormed()
    ensures |LOGOGRAM_SIGNS| == 20
    ensures forall i :: 0 <= i < |LOGOGRAM_SIGNS| ==> Composed(LOGOGRAM_SIGNS[i]) && Described(LOGOGRAM_SIGNS[i])
  {
  }

  /** The 68 catalog signs all carry a non-negative composition, a reading and a meaning. */
  lemma SignsWellFormed()
    ensures |SIGNS| == 68
    ensures forall i :: 0 <= i < |SIGNS| ==> Composed(SIGNS[i]) && Described(SIGNS[i])
  {
    SyllabicSignsWellFormed();
    NumeralSignsWellFormed();
    LogogramSignsWellFormed();
    forall i | 0 <= i < |SIGNS|
      ensures Composed(SIGNS[i]) && Described(SIGNS[i])
    {
      if i < 46 {
        assert SIGNS[i] == SYLLABIC_SIGNS[i];
      } else if i < 48 {
        assert SIGNS[i] == NUMERAL_SIGNS[i - 46];
      } else {
        assert SIGNS[i] == LOGOGRAM_SIGNS[i - 48];
      }
    }
  }

  /** No sign before TUM in the catalog has TUM's codepoint or character. */
  lemma BeforeTum(j: int)
    requires 0 <= j < 49
    ensures SIGNS[j].codepoint != "U+12308" && SIGNS[j].character != "\U{12308}"
  {
    if j < 23 {
      assert SIGNS[j] == SYLLABIC_A_TO_MA[j];
    } else if j < 46 {
      assert SIGNS[j] == SYLLABIC_ME_TO_ZU[j - 23];
    } else if j < 48 {
      assert SIGNS[j] == NUMERAL_SIGNS[j - 46];
    } else {
      assert SIGNS[j] == LOGOGRAM_SIGNS[0];
    }
  }

  /**
   * TUM and DUB share the codepoint U+12308. Lookup by codepoint or by
   * character finds TUM, the earlier entry, so neither lookup ever returns DUB.
   */
  lemma SharedCodepoint(codepoint: string, character: string)
    ensures SIGNS[49].name == "TUM" && SIGNS[54].name == "DUB"
    ensures SIGNS[49].codepoint == SIGNS[54].codepoint == "U+12308"
    ensures GetSignByCodepoint(SIGNS, "U+12308") == Some(SIGNS[49])
    ensures GetSignByCharacter(SIGNS, "\U{12308}") == Some(SIGNS[49])
    ensures GetSignByCodepoint(SIGNS, codepoint) != Some(SIGNS[54])
    ensures GetSignByCharacter(SIGNS, character) != Some(SIGNS[54])
  {
    assert SIGNS[49] == LOGOGRAM_SIGNS[1];
    assert SIGNS[54] == LOGOGRAM_SIGNS[6];
    forall j | 0 <= j < 49
      ensures !CodepointIs("U+12308")(SIGNS[j]) && !CharacterIs("\U{12308}")(SIGNS[j])
    {
      BeforeTum(j);
    }
    FindAt(SIGNS, CodepointIs("U+12308"), 49);
    FindAt(SIGNS, CharacterIs("\U{12308}"), 49);
  }
}
