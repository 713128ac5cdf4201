/**
 * The syllable table: 325 rows mapping a short lower-case Latin syllable
 * to the cuneiform sign that approximates it, with a confidence level,
 * the `Map` built from it, and the lookup helpers over it.
 *
 * Glyphs are opaque here: a row's `primarySign` is a placeholder string
 * (the syllable in upper case) standing for the glyph in the source.
 */
module SyllableMap {
  import opened Seqs
  import opened Text

  datatype Confidence = High | Medium | Low

  /** One row of `SYLLABLE_MAPPINGS` (the optional `alternatives` are not modelled). */
  datatype SyllableMapping = SyllableMapping(syllable: string, primarySign: string, confidence: Confidence)

  /** The vowels and the BA, DA, GA and HA series (syllable-map.ts lines 17-44). */
  const VOWELS_TO_HA: seq<SyllableMapping> := [
    SyllableMapping("a", "A", High),
    SyllableMapping("e", "E", High),
    SyllableMapping("i", "I", High),
    SyllableMapping("u", "U", High),
    SyllableMapping("ba", "BA", High),
    SyllableMapping("be", "BE", High),
    SyllableMapping("bi", "BI", High),
    SyllableMapping("bu", "BU", High),
    SyllableMapping("da", "DA", High),
    SyllableMapping("de", "DE", Medium),
    SyllableMapping("di", "DI", High),
    SyllableMapping("du", "DU", High),
    SyllableMapping("ga", "GA", High),
    SyllableMapping("ge", "GE", Medium),
    SyllableMapping("gi", "GI", High),
    SyllableMapping("gu", "GU", High),
    SyllableMapping("ha", "HA", High),
    SyllableMapping("he", "HE", Medium),
    SyllableMapping("hi", "HI", High),
    SyllableMapping("hu", "HU", High)
  ]

  /** The KA, LA, MA, NA and PA series (syllable-map.ts lines 47-74). */
  const KA_TO_PA: seq<SyllableMapping> := [
    SyllableMapping("ka", "KA", High),
    SyllableMapping("ke", "KE", Medium),
    SyllableMapping("ki", "KI", High),
    SyllableMapping("ku", "KU", High),
    SyllableMapping("la", "LA", High),
    SyllableMapping("le", "LE", Medium),
    SyllableMapping("li", "LI", High),
    SyllableMapping("lu", "LU", High),
    SyllableMapping("ma", "MA", High),
    SyllableMapping("me", "ME", High),
    SyllableMapping("mi", "MI", High),
    SyllableMapping("mu", "MU", High),
    SyllableMapping("na", "NA", High),
    SyllableMapping("ne", "NE", High),
    SyllableMapping("ni", "NI", High),
    SyllableMapping("nu", "NU", High),
    SyllableMapping("pa", "PA", High),
    SyllableMapping("pe", "PE", Medium),
    SyllableMapping("pi", "PI", High),
    SyllableMapping("pu", "PU", Medium)
  ]

  /** The RA, SA, SHA, TA and WA series (syllable-map.ts lines 77-104). */
  const RA_TO_WA: seq<SyllableMapping> := [
    SyllableMapping("ra", "RA", High),
    SyllableMapping("re", "RE", Medium),
    SyllableMapping("ri", "RI", High),
    SyllableMapping("ru", "RU", High),
    SyllableMapping("sa", "SA", High),
    SyllableMapping("se", "SE", Medium),
    SyllableMapping("si", "SI", High),
    SyllableMapping("su", "SU", High),
    SyllableMapping("sha", "SHA", High),
    SyllableMapping("she", "SHE", High),
    SyllableMapping("shi", "SHI", Medium),
    SyllableMapping("shu", "SHU", High),
    SyllableMapping("ta", "TA", High),
    SyllableMapping("te", "TE", High),
    SyllableMapping("ti", "TI", High),
    SyllableMapping("tu", "TU", High),
    SyllableMapping("wa", "WA", Medium),
    SyllableMapping("we", "WE", Low),
    SyllableMapping("wi", "WI", Low),
    SyllableMapping("wu", "WU", Low)
  ]

  /** The ZA series and the vowel-consonant syllables on a (syllable-map.ts lines 107-125). */
  const ZA_AND_A_CLOSED: seq<SyllableMapping> := [
    SyllableMapping("za", "ZA", High),
    SyllableMapping("ze", "ZE", Medium),
    SyllableMapping("zi", "ZI", High),
    SyllableMapping("zu", "ZU", High),
    SyllableMapping("ab", "AB", High),
    SyllableMapping("ad", "AD", High),
    SyllableMapping("ag", "AG", High),
    SyllableMapping("ak", "AK", High),
    SyllableMapping("al", "AL", High),
    SyllableMapping("am", "AM", High),
    SyllableMapping("an", "AN", High),
    SyllableMapping("ap", "AP", Medium),
    SyllableMapping("ar", "AR", High),
    SyllableMapping("as", "AS", High),
    SyllableMapping("ash", "ASH", High),
    SyllableMapping("at", "AT", Medium),
    SyllableMapping("az", "AZ", Medium)
  ]

  /** The vowel-consonant syllables on e (syllable-map.ts lines 127-136). */
  const E_CLOSED: seq<SyllableMapping> := [
    SyllableMapping("eb", "EB", High),
    SyllableMapping("ed", "ED", Medium),
    SyllableMapping("eg", "EG", High),
    SyllableMapping("ek", "EK", Medium),
    SyllableMapping("el", "EL", High),
    SyllableMapping("em", "EM", High),
    SyllableMapping("en", "EN", High),
    SyllableMapping("er", "ER", High),
    SyllableMapping("esh", "ESH", High),
    SyllableMapping("et", "ET", Low)
  ]

  /** The vowel-consonant syllables on i (syllable-map.ts lines 138-150). */
  const I_CLOSED: seq<SyllableMapping> := [
    SyllableMapping("ib", "IB", High),
    SyllableMapping("id", "ID", High),
    SyllableMapping("ig", "IG", High),
    SyllableMapping("ik", "IK", Medium),
    SyllableMapping("il", "IL", High),
    SyllableMapping("im", "IM", High),
    SyllableMapping("in", "IN", High),
    SyllableMapping("ip", "IP", Medium),
    SyllableMapping("ir", "IR", High),
    SyllableMapping("is", "IS", High),
    SyllableMapping("ish", "ISH", High),
    SyllableMapping("it", "IT", Medium),
    SyllableMapping("iz", "IZ", Medium)
  ]

  /** The vowel-consonant syllables on u and the first closed syllables on b (syllable-map.ts lines 152-171). */
  const U_CLOSED_AND_B_CVC: seq<SyllableMapping> := [
    SyllableMapping("ub", "UB", High),
    SyllableMapping("ud", "UD", High),
    SyllableMapping("ug", "UG", High),
    SyllableMapping("uk", "UK", Medium),
    SyllableMapping("ul", "UL", High),
    SyllableMapping("um", "UM", High),
    SyllableMapping("un", "UN", High),
    SyllableMapping("up", "UP", Medium),
    SyllableMapping("ur", "UR", High),
    SyllableMapping("us", "US", High),
    SyllableMapping("ush", "USH", High),
    SyllableMapping("ut", "UT", Medium),
    SyllableMapping("uz", "UZ", Medium),
    SyllableMapping("bad", "BAD", High),
    SyllableMapping("bal", "BAL", High),
    SyllableMapping("ban", "BAN", High),
    SyllableMapping("bar", "BAR", High),
    SyllableMapping("bur", "BUR", High)
  ]

  /** Closed consonant-vowel-consonant syllables on d and g (syllable-map.ts lines 173-192). */
  const D_G_CVC: seq<SyllableMapping> := [
    SyllableMapping("dag", "DAG", High),
    SyllableMapping("dal", "DAL", High),
    SyllableMapping("dam", "DAM", High),
    SyllableMapping("dar", "DAR", High),
    SyllableMapping("dim", "DIM", High),
    SyllableMapping("din", "DIN", High),
    SyllableMapping("dub", "DUB", High),
    SyllableMapping("dug", "DUG", High),
    SyllableMapping("dul", "DUL", High),
    SyllableMapping("dur", "DUR", High),
    SyllableMapping("gal", "GAL", High),
    SyllableMapping("gam", "GAM", High),
    SyllableMapping("gan", "GAN", High),
    SyllableMapping("gar", "GAR", High),
    SyllableMapping("gig", "GIG", Medium),
    SyllableMapping("gir", "GIR", High),
    SyllableMapping("gish", "GISH", High),
    SyllableMapping("gul", "GUL", High),
    SyllableMapping("gur", "GUR", High)
  ]

  /** Closed consonant-vowel-consonant syllables on h, k and l (syllable-map.ts lines 194-209). */
  const H_K_L_CVC: seq<SyllableMapping> := [
    SyllableMapping("hal", "HAL", High),
    SyllableMapping("har", "HAR", High),
    SyllableMapping("hul", "HUL", High),
    SyllableMapping("hur", "HUR", Medium),
    SyllableMapping("kal", "KAL", High),
    SyllableMapping("kam", "KAM", High),
    SyllableMapping("kar", "KAR", High),
    SyllableMapping("kesh", "KESH", High),
    SyllableMapping("kir", "KIR", High),
    SyllableMapping("kur", "KUR", High),
    SyllableMapping("lal", "LAL", High),
    SyllableMapping("lam", "LAM", High),
    SyllableMapping("lil", "LIL", High),
    SyllableMapping("lum", "LUM", High)
  ]

  /** Closed consonant-vowel-consonant syllables on m, n and p (syllable-map.ts lines 211-229). */
  const M_N_P_CVC: seq<SyllableMapping> := [
    SyllableMapping("mal", "MAL", High),
    SyllableMapping("man", "MAN", High),
    SyllableMapping("mar", "MAR", Medium),
    SyllableMapping("mas", "MAS", High),
    SyllableMapping("mash", "MASH", High),
    SyllableMapping("mul", "MUL", High),
    SyllableMapping("mur", "MUR", Low),
    SyllableMapping("mush", "MUSH", High),
    SyllableMapping("nal", "NAL", Low),
    SyllableMapping("nam", "NAM", High),
    SyllableMapping("nar", "NAR", Low),
    SyllableMapping("nig", "NIG", High),
    SyllableMapping("nim", "NIM", High),
    SyllableMapping("nin", "NIN", High),
    SyllableMapping("nir", "NIR", High),
    SyllableMapping("nun", "NUN", High),
    SyllableMapping("pir", "PIR", High)
  ]

  /** Closed consonant-vowel-consonant syllables on s, sh and t (syllable-map.ts lines 231-251). */
  const S_T_CVC: seq<SyllableMapping> := [
    SyllableMapping("sar", "SAR", High),
    SyllableMapping("shar", "SHAR", High),
    SyllableMapping("shir", "SHIR", High),
    SyllableMapping("shum", "SHUM", High),
    SyllableMapping("shur", "SHUR", High),
    SyllableMapping("sig", "SIG", High),
    SyllableMapping("sim", "SIM", High),
    SyllableMapping("sir", "SIR", High),
    SyllableMapping("sur", "SUR", Medium),
    SyllableMapping("tab", "TAB", High),
    SyllableMapping("tag", "TAG", High),
    SyllableMapping("tak", "TAK", Medium),
    SyllableMapping("tal", "TAL", High),
    SyllableMapping("tam", "TAM", Medium),
    SyllableMapping("tar", "TAR", High),
    SyllableMapping("tesh", "TESH", Medium),
    SyllableMapping("til", "TIL", High),
    SyllableMapping("tir", "TIR", High),
    SyllableMapping("tum", "TUM", High),
    SyllableMapping("tur", "TUR", High)
  ]

  /** Closed syllables on z, long vowels and diphthongs (syllable-map.ts lines 253-276). */
  const Z_CVC_AND_DIPHTHONGS: seq<SyllableMapping> := [
    SyllableMapping("zal", "ZAL", Low),
    SyllableMapping("zig", "ZIG", Low),
    SyllableMapping("aa", "AA", Low),
    SyllableMapping("ee", "EE", Low),
    SyllableMapping("oo", "OO", Low),
    SyllableMapping("ai", "AI", Low),
    SyllableMapping("ay", "AY", Low),
    SyllableMapping("au", "AU", Low),
    SyllableMapping("aw", "AW", Low),
    SyllableMapping("ea", "EA", Low),
    SyllableMapping("ia", "IA", Low),
    SyllableMapping("ie", "IE", Low),
    SyllableMapping("io", "IO", Low),
    SyllableMapping("iu", "IU", Low),
    SyllableMapping("oi", "OI", Low),
    SyllableMapping("ou", "OU", Low),
    SyllableMapping("ow", "OW", Low),
    SyllableMapping("ua", "UA", Low),
    SyllableMapping("ue", "UE", Low),
    SyllableMapping("ui", "UI", Low)
  ]

  /** English open syllables on o (syllable-map.ts lines 279-295). */
  const O_SYLLABLES: seq<SyllableMapping> := [
    SyllableMapping("bo", "BO", Medium),
    SyllableMapping("co", "CO", Low),
    SyllableMapping("do", "DO", Medium),
    SyllableMapping("fo", "FO", Low),
    SyllableMapping("go", "GO", Medium),
    SyllableMapping("ho", "HO", Medium),
    SyllableMapping("jo", "JO", Low),
    SyllableMapping("ko", "KO", Medium),
    SyllableMapping("lo", "LO", Medium),
    SyllableMapping("mo", "MO", Medium),
    SyllableMapping("no", "NO", Medium),
    SyllableMapping("po", "PO", Medium),
    SyllableMapping("ro", "RO", Medium),
    SyllableMapping("so", "SO", Medium),
    SyllableMapping("to", "TO", Medium),
    SyllableMapping("wo", "WO", Low),
    SyllableMapping("yo", "YO", Low)
  ]

  /** Vowel-consonant syllables on o and y as a vowel (syllable-map.ts lines 298-314). */
  const O_CLOSED_AND_Y: seq<SyllableMapping> := [
    SyllableMapping("ob", "OB", Medium),
    SyllableMapping("od", "OD", Medium),
    SyllableMapping("og", "OG", Medium),
    SyllableMapping("ok", "OK", Medium),
    SyllableMapping("ol", "OL", Medium),
    SyllableMapping("om", "OM", Medium),
    SyllableMapping("on", "ON", Medium),
    SyllableMapping("op", "OP", Medium),
    SyllableMapping("or", "OR", Medium),
    SyllableMapping("os", "OS", Medium),
    SyllableMapping("ot", "OT", Medium),
    SyllableMapping("ya", "YA", High),
    SyllableMapping("ye", "YE", Low),
    SyllableMapping("yi", "YI", Low),
    SyllableMapping("yu", "YU", Low)
  ]

  /** Name endings in y (syllable-map.ts lines 317-329). */
  const NAME_ENDINGS: seq<SyllableMapping> := [
    SyllableMapping("ly", "LY", Low),
    SyllableMapping("ry", "RY", Low),
    SyllableMapping("ny", "NY", Low),
    SyllableMapping("ty", "TY", Low),
    SyllableMapping("dy", "DY", Low),
    SyllableMapping("ey", "EY", Low),
    SyllableMapping("gy", "GY", Low),
    SyllableMapping("ky", "KY", Low),
    SyllableMapping("my", "MY", Low),
    SyllableMapping("py", "PY", Low),
    SyllableMapping("sy", "SY", Low),
    SyllableMapping("vy", "VY", Low),
    SyllableMapping("zy", "ZY", Low)
  ]

  /** Single consonants, the fallback for consonant clusters (syllable-map.ts lines 332-352). */
  const SINGLE_CONSONANTS: seq<SyllableMapping> := [
    SyllableMapping("b", "B", Low),
    SyllableMapping("c", "C", Low),
    SyllableMapping("d", "D", Low),
    SyllableMapping("f", "F", Low),
    SyllableMapping("g", "G", Low),
    SyllableMapping("h", "H", Low),
    SyllableMapping("j", "J", Low),
    SyllableMapping("k", "K", Low),
    SyllableMapping("l", "L", Low),
    SyllableMapping("m", "M", Low),
    SyllableMapping("n", "N", Low),
    SyllableMapping("p", "P", Low),
    SyllableMapping("q", "Q", Low),
    SyllableMapping("r", "R", Low),
    SyllableMapping("s", "S", Low),
    SyllableMapping("t", "T", Low),
    SyllableMapping("v", "V", Low),
    SyllableMapping("w", "W", Low),
    SyllableMapping("x", "X", Low),
    SyllableMapping("y", "Y", Low),
    SyllableMapping("z", "Z", Low)
  ]

  /** Consonant clusters (syllable-map.ts lines 355-367). */
  const CLUSTERS: seq<SyllableMapping> := [
    SyllableMapping("ch", "CH", Low),
    SyllableMapping("ck", "CK", Low),
    SyllableMapping("gh", "GH", Low),
    SyllableMapping("ng", "NG", Low),
    SyllableMapping("nk", "NK", Low),
    SyllableMapping("ph", "PH", Low),
    SyllableMapping("sc", "SC", Low),
    SyllableMapping("sh", "SH", Medium),
    SyllableMapping("sk", "SK", Low),
    SyllableMapping("sp", "SP", Low),
    SyllableMapping("st", "ST", Low),
    SyllableMapping("th", "TH", Low),
    SyllableMapping("wh", "WH", Low)
  ]

  /** Syllables in -er and -le (syllable-map.ts lines 370-391). */
  const ER_LE_SYLLABLES: seq<SyllableMapping> := [
    SyllableMapping("ber", "BER", Low),
    SyllableMapping("der", "DER", Low),
    SyllableMapping("fer", "FER", Low),
    SyllableMapping("ger", "GER", Low),
    SyllableMapping("her", "HER", Low),
    SyllableMapping("ker", "KER", Low),
    SyllableMapping("ler", "LER", Low),
    SyllableMapping("mer", "MER", Low),
    SyllableMapping("ner", "NER", Low),
    SyllableMapping("per", "PER", Low),
    SyllableMapping("ser", "SER", Low),
    SyllableMapping("ter", "TER", Low),
    SyllableMapping("ver", "VER", Low),
    SyllableMapping("ble", "BLE", Low),
    SyllableMapping("cle", "CLE", Low),
    SyllableMapping("dle", "DLE", Low),
    SyllableMapping("fle", "FLE", Low),
    SyllableMapping("gle", "GLE", Low),
    SyllableMapping("ple", "PLE", Low),
    SyllableMapping("tle", "TLE", Low),
    SyllableMapping("zle", "ZLE", Low)
  ]

  /** Common word endings (syllable-map.ts lines 394-410). */
  const WORD_ENDINGS: seq<SyllableMapping> := [
    SyllableMapping("ing", "ING", Medium),
    SyllableMapping("ung", "UNG", Medium),
    SyllableMapping("ang", "ANG", Low),
    SyllableMapping("ong", "ONG", Low),
    SyllableMapping("ant", "ANT", Low),
    SyllableMapping("ent", "ENT", Low),
    SyllableMapping("int", "INT", Low),
    SyllableMapping("unt", "UNT", Low),
    SyllableMapping("ard", "ARD", Low),
    SyllableMapping("ord", "ORD", Low),
    SyllableMapping("ess", "ESS", Low),
    SyllableMapping("ness", "NESS", Low),
    SyllableMapping("less", "LESS", Low),
    SyllableMapping("ful", "FUL", Low),
    SyllableMapping("ous", "OUS", Low),
    SyllableMapping("tion", "TION", Low),
    SyllableMapping("sion", "SION", Low)
  ]

  /** The table's sections, in source order. */
  const SECTIONS: seq<seq<SyllableMapping>> := [
    VOWELS_TO_HA,
    KA_TO_PA,
    RA_TO_WA,
    ZA_AND_A_CLOSED,
    E_CLOSED,
    I_CLOSED,
    U_CLOSED_AND_B_CVC,
    D_G_CVC,
    H_K_L_CVC,
    M_N_P_CVC,
    S_T_CVC,
    Z_CVC_AND_DIPHTHONGS,
    O_SYLLABLES,
    O_CLOSED_AND_Y,
    NAME_ENDINGS,
    SINGLE_CONSONANTS,
    CLUSTERS,
    ER_LE_SYLLABLES,
    WORD_ENDINGS
  ]


  /** `SYLLABLE_MAPPINGS`: the sections concatenated, in source order. */
  const SYLLABLE_MAPPINGS: seq<SyllableMapping> := Flatten(SECTIONS)

  // ---------------------------------------------------------------------
  // The Map built from the rows
  // ---------------------------------------------------------------------

  /**
   * `new Map(rows.map(m => [m.syllable, m]))`: inserting the rows in order,
   * so a later row with the same key replaces an earlier one.
   */
  function BuildMap(rows: seq<SyllableMapping>): (m: map<string, SyllableMapping>)
  {
    if |rows| == 0 then map[]
    else BuildMap(rows[..|rows| - 1])[rows[|rows| - 1].syllable := rows[|rows| - 1]]
  }

  predicate HasKey(rows: seq<SyllableMapping>, key: string)
  {
    exists i :: 0 <= i < |rows| && rows[i].syllable == key
  }

  /** Row `i` is the last one keyed `key`. */
  predicate LastWithKey(rows: seq<SyllableMapping>, key: string, i: int)
  {
    0 <= i < |rows| && rows[i].syllable == key
    && forall j :: i < j < |rows| ==> rows[j].syllable != key
  }

  /**
   * The map has a key exactly when some row carries it, and it holds the
   * LAST row carrying that key.
   */
  lemma {:induction false} BuildMapSpec(rows: seq<SyllableMapping>, key: string)
    ensures key in BuildMap(rows) <==> HasKey(rows, key)
    ensures key in BuildMap(rows) ==> exists i :: LastWithKey(rows, key, i) && BuildMap(rows)[key] == rows[i]
    decreases |rows|
  {
    if |rows| > 0 {
      var n := |rows| - 1;
      var init := rows[..n];
      BuildMapSpec(init, key);
      if rows[n].syllable == key {
        assert LastWithKey(rows, key, n);
      } else {
        if HasKey(init, key) {
          var i :| LastWithKey(init, key, i) && BuildMap(init)[key] == init[i];
          assert LastWithKey(rows, key, i);
        }
        if HasKey(rows, key) {
          var i :| 0 <= i < |rows| && rows[i].syllable == key;
          assert init[i].syllable == key;
        }
      }
    }
  }

  /** `syllableMap`. */
  const SYLLABLE_MAP: map<string, SyllableMapping> := BuildMap(SYLLABLE_MAPPINGS)

  /** `getSignForSyllable`: the row for the lower-cased syllable, if any. */
  function GetSignForSyllable(syllable: string): (r: Option<SyllableMapping>)
  {
    var key := ToLower(syllable);
    if key in SYLLABLE_MAP then Some(SYLLABLE_MAP[key]) else None
  }

  /** `hasSyllableMapping`. */
  predicate HasSyllableMapping(syllable: string)
  {
    ToLower(syllable) in SYLLABLE_MAP
  }

  /**
   * A lookup finds the table's last row keyed by the lower-cased syllable,
   * finds nothing when no row is so keyed, and ignores letter case.
   */
  lemma GetSignForSyllableSpec(syllable: string)
    ensures GetSignForSyllable(syllable).None? <==> !HasKey(SYLLABLE_MAPPINGS, ToLower(syllable))
    ensures GetSignForSyllable(syllable).Some? ==>
      exists i :: LastWithKey(SYLLABLE_MAPPINGS, ToLower(syllable), i)
               && GetSignForSyllable(syllable).value == SYLLABLE_MAPPINGS[i]
    ensures GetSignForSyllable(syllable) == GetSignForSyllable(ToLower(syllable))
  {
    BuildMapSpec(SYLLABLE_MAPPINGS, ToLower(syllable));
    ToLowerIdempotent(syllable);
  }

  /** `hasSyllableMapping` holds exactly when `getSignForSyllable` finds a row. */
  lemma HasMappingIffFound(syllable: string)
    ensures HasSyllableMapping(syllable) <==> GetSignForSyllable(syllable).Some?
    ensures HasSyllableMapping(syllable) <==> HasKey(SYLLABLE_MAPPINGS, ToLower(syllable))
  {
    BuildMapSpec(SYLLABLE_MAPPINGS, ToLower(syllable));
  }

  // ---------------------------------------------------------------------
  // getAllSyllables: the keys sorted by the default string order
  // ---------------------------------------------------------------------

  /**
   * Default `sort()` order on strings: lexicographic by character code.
   * (Code-point order; it coincides with UTF-16 order on the ASCII keys.)
   */
  predicate StringLe(a: string, b: string)
    decreases |a|
  {
    |a| == 0 || (|b| > 0 && (a[0] < b[0] || (a[0] == b[0] && StringLe(a[1..], b[1..]))))
  }

  lemma {:induction false} StringLeTotal(a: string, b: string)
    ensures StringLe(a, b) || StringLe(b, a)
    decreases |a|
  {
    if |a| > 0 && |b| > 0 && a[0] == b[0] {
      StringLeTotal(a[1..], b[1..]);
    }
  }

  predicate Ascending(s: seq<string>)
  {
    forall i :: 0 < i < |s| ==> StringLe(s[i - 1], s[i])
  }

  function InsertSorted(s: seq<string>, x: string): (r: seq<string>)
    requires Ascending(s)
    ensures Ascending(r)
    ensures multiset(r) == multiset(s) + multiset{x}
    ensures |s| > 0 && |r| > 0 ==> r[0] == s[0] || r[0] == x
  {
    if |s| == 0 then [x]
    else if StringLe(x, s[0]) then [x] + s
    else
      StringLeTotal(x, s[0]);
      var t := InsertSorted(s[1..], x);
      assert s == [s[0]] + s[1..];
      [s[0]] + t
  }

  function SortStrings(s: seq<string>): (r: seq<string>)
    ensures Ascending(r)
    ensures multiset(r) == multiset(s)
  {
    if |s| == 0 then []
    else
      assert s == [s[0]] + s[1..];
      InsertSorted(SortStrings(s[1..]), s[0])
  }

  function Keys(rows: seq<SyllableMapping>): (r: seq<string>)
  {
    Map((m: SyllableMapping) => m.syllable, rows)
  }

  /** `getAllSyllables`: every row's key, in ascending order. */
  function GetAllSyllables(): (r: seq<string>)
  {
    SortStrings(Keys(SYLLABLE_MAPPINGS))
  }

  /**
   * The sorted key list is ascending and is a permutation of the table's
   * keys: each key occurs as often as it keys a row.
   */
  lemma GetAllSyllablesSpec()
    ensures Ascending(GetAllSyllables())
    ensures multiset(GetAllSyllables()) == multiset(Keys(SYLLABLE_MAPPINGS))
    ensures |GetAllSyllables()| == |SYLLABLE_MAPPINGS|
  {
    var r := GetAllSyllables();
    assert |multiset(r)| == |r|;
    assert |multiset(Keys(SYLLABLE_MAPPINGS))| == |Keys(SYLLABLE_MAPPINGS)|;
  }

  // ---------------------------------------------------------------------
  // getSyllablesByConfidence
  // ---------------------------------------------------------------------

  /** The rows with confidence `c`, in order. */
  function ByConfidence(rows: seq<SyllableMapping>, c: Confidence): (r: seq<SyllableMapping>)
    ensures forall i :: 0 <= i < |r| ==> r[i].confidence == c && r[i] in rows
    ensures forall i :: 0 <= i < |rows| && rows[i].confidence == c ==> rows[i] in r
  {
    if |rows| == 0 then []
    else (if rows[0].confidence == c then [rows[0]] else []) + ByConfidence(rows[1..], c)
  }

  /** `getSyllablesByConfidence`: the rows with confidence `c`, in table order. */
  function GetSyllablesByConfidence(c: Confidence): (r: seq<SyllableMapping>)
  {
    ByConfidence(SYLLABLE_MAPPINGS, c)
  }

  /**
   * The three confidence levels partition any table: by the contract of
   * `ByConfidence` a row lies in the list of its own level and in no other,
   * and the three lengths add up to the number of rows.
   */
  lemma {:induction false} ConfidencePartition(rows: seq<SyllableMapping>)
    ensures |ByConfidence(rows, High)| + |ByConfidence(rows, Medium)| + |ByConfidence(rows, Low)| == |rows|
  {
    if |rows| > 0 {
      ConfidencePartition(rows[1..]);
    }
  }

  /** The partition applied to the table itself. */
  lemma GetSyllablesByConfidencePartition()
    ensures |GetSyllablesByConfidence(High)| + |GetSyllablesByConfidence(Medium)| + |GetSyllablesByConfidence(Low)|
            == |SYLLABLE_MAPPINGS|
  {
    ConfidencePartition(SYLLABLE_MAPPINGS);
  }

  // ---------------------------------------------------------------------
  // Facts about the table's data
  // ---------------------------------------------------------------------

  /** A key is one to four lower-case ASCII letters. */
  predicate ValidKey(k: string)
  {
    1 <= |k| <= 4 && forall i :: 0 <= i < |k| ==> IsLowerLetter(k[i])
  }

  /**
   * What every row satisfies: a valid key, which is none of "o", "ann" and
   * "anna", and the row keyed "an" is the high-confidence AN sign.
   */
  predicate RowFacts(m: SyllableMapping)
  {
    ValidKey(m.syllable)
    && m.syllable != "o" && m.syllable != "ann" && m.syllable != "anna"
    && (m.syllable == "an" ==> m == SyllableMapping("an", "AN", High))
  }

  predicate All(rows: seq<SyllableMapping>, p: SyllableMapping -> bool)
  {
    forall i :: 0 <= i < |rows| ==> p(rows[i])
  }

  lemma {:induction false} AllFlatten(parts: seq<seq<SyllableMapping>>, p: SyllableMapping -> bool)
    requires forall j :: 0 <= j < |parts| ==> All(parts[j], p)
    ensures All(Flatten(parts), p)
  {
    if |parts| > 0 {
      AllFlatten(parts[1..], p);
      var f := Flatten(parts);
      assert f == parts[0] + Flatten(parts[1..]);
      forall i | 0 <= i < |f| ensures p(f[i]) {
        if i >= |parts[0]| {
          assert f[i] == Flatten(parts[1..])[i - |parts[0]|];
        }
      }
    }
  }

  lemma {:induction false} HasKeyFlatten(parts: seq<seq<SyllableMapping>>, j: nat, key: string)
    requires j < |parts| && HasKey(parts[j], key)
    ensures HasKey(Flatten(parts), key)
    decreases j
  {
    assert Flatten(parts) == parts[0] + Flatten(parts[1..]);
    if j == 0 {
      var i :| 0 <= i < |parts[0]| && parts[0][i].syllable == key;
      assert Flatten(parts)[i] == parts[0][i];
    } else {
      HasKeyFlatten(parts[1..], j - 1, key);
      var i :| 0 <= i < |Flatten(parts[1..])| && Flatten(parts[1..])[i].syllable == key;
      assert Flatten(parts)[|parts[0]| + i] == Flatten(parts[1..])[i];
    }
  }

  lemma TableFacts()
    ensures All(SYLLABLE_MAPPINGS, RowFacts)
  {
    forall j | 0 <= j < |SECTIONS| ensures All(SECTIONS[j], RowFacts) {
      SectionFacts(j);
    }
    AllFlatten(SECTIONS, RowFacts);
  }

  /** Every key is one to four lower-case letters a-z. */
  lemma KeysWellFormed()
    ensures forall i :: 0 <= i < |SYLLABLE_MAPPINGS| ==> ValidKey(SYLLABLE_MAPPINGS[i].syllable)
  {
    TableFacts();
    forall i | 0 <= i < |SYLLABLE_MAPPINGS| ensures ValidKey(SYLLABLE_MAPPINGS[i].syllable) {
      assert RowFacts(SYLLABLE_MAPPINGS[i]);
    }
  }

  /** The four-letter keys include "kesh" and "tion". */
  lemma FourLetterKeys()
    ensures HasSyllableMapping("kesh") && HasSyllableMapping("tion")
  {
    KeshMapped();
    TionMapped();
    HasMappingIffFound("kesh");
    HasMappingIffFound("tion");
  }

  lemma KeshMapped()
    ensures HasKey(SYLLABLE_MAPPINGS, "kesh")
  {
    assert H_K_L_CVC[7].syllable == "kesh";
    HasKeyFlatten(SECTIONS, 8, "kesh");
  }

  lemma TionMapped()
    ensures HasKey(SYLLABLE_MAPPINGS, "tion")
  {
    assert WORD_ENDINGS[15].syllable == "tion";
    HasKeyFlatten(SECTIONS, 18, "tion");
  }

  /** There is no row for "o", in either case, so "o" can only fall back; nor for "ann" or "anna". */
  lemma NoKeyO()
    ensures !HasSyllableMapping("o") && !HasSyllableMapping("O")
    ensures !HasSyllableMapping("ann") && !HasSyllableMapping("anna")
  {
    TableFacts();
    HasMappingIffFound("o");
    HasMappingIffFound("O");
    HasMappingIffFound("ann");
    HasMappingIffFound("anna");
    forall i | 0 <= i < |SYLLABLE_MAPPINGS|
      ensures SYLLABLE_MAPPINGS[i].syllable !in {"o", "ann", "anna"}
    {
      assert RowFacts(SYLLABLE_MAPPINGS[i]);
    }
  }

  /** The 21 one-consonant rows are keyed by the consonants b, c, d, ..., z in order. */
  lemma SingleConsonantMapped(k: nat)
    requires k < 21
    ensures HasSyllableMapping(["bcdfghjklmnpqrstvwxyz"[k]])
  {
    assert SINGLE_CONSONANTS[k].syllable == ["bcdfghjklmnpqrstvwxyz"[k]];
    HasKeyFlatten(SECTIONS, 15, ["bcdfghjklmnpqrstvwxyz"[k]]);
    HasMappingIffFound(["bcdfghjklmnpqrstvwxyz"[k]]);
  }

  lemma VowelMapped(k: nat)
    requires k < 4
    ensures HasSyllableMapping(["aeiu"[k]])
  {
    assert VOWELS_TO_HA[k].syllable == ["aeiu"[k]];
    HasKeyFlatten(SECTIONS, 0, ["aeiu"[k]]);
    HasMappingIffFound(["aeiu"[k]]);
  }

  /** Every single letter a-z other than "o" is a key: the vowels a, e, i, u and all 21 consonants. */
  lemma SingleLettersMapped(c: char)
    requires IsLowerLetter(c) && c != 'o'
    ensures HasSyllableMapping([c])
  {
    var n := c as int - 'a' as int;
    assert "abcdefghijklmnopqrstuvwxyz"[n] == c;
    if c in "aeiu" {
      var k :| 0 <= k < 4 && "aeiu"[k] == c;
      VowelMapped(k);
    } else {
      assert c in "bcdfghjklmnpqrstvwxyz";
      var k :| 0 <= k < 21 && "bcdfghjklmnpqrstvwxyz"[k] == c;
      SingleConsonantMapped(k);
    }
  }

  /** "an" resolves to its high-confidence sign, and "na" is a key. */
  lemma AnAndNa()
    ensures GetSignForSyllable("an") == Some(SyllableMapping("an", "AN", High))
    ensures HasSyllableMapping("an") && HasSyllableMapping("na")
  {
    assert ZA_AND_A_CLOSED[10].syllable == "an";
    HasKeyFlatten(SECTIONS, 3, "an");
    assert KA_TO_PA[12].syllable == "na";
    HasKeyFlatten(SECTIONS, 1, "na");
    HasMappingIffFound("an");
    HasMappingIffFound("na");
    GetSignForSyllableSpec("an");
    TableFacts();
    var i :| LastWithKey(SYLLABLE_MAPPINGS, "an", i) && GetSignForSyllable("an").value == SYLLABLE_MAPPINGS[i];
    assert RowFacts(SYLLABLE_MAPPINGS[i]);
  }

  lemma VowelsToHaFacts()
    ensures All(VOWELS_TO_HA, RowFacts)
  {
  }

  lemma KaToPaFacts()
    ensures All(KA_TO_PA, RowFacts)
  {
  }

  lemma RaToWaFacts()
    ensures All(RA_TO_WA, RowFacts)
  {
  }

  lemma ZaAndAClosedFacts()
    ensures All(ZA_AND_A_CLOSED, RowFacts)
  {
  }

  lemma EClosedFacts()
    ensures All(E_CLOSED, RowFacts)
  {
  }

  lemma IClosedFacts()
    ensures All(I_CLOSED, RowFacts)
  {
  }

  lemma UClosedAndBCvcFacts()
    ensures All(U_CLOSED_AND_B_CVC, RowFacts)
  {
  }

  lemma DGCvcFacts()
    ensures All(D_G_CVC, RowFacts)
  {
  }

  lemma HKLCvcFacts()
    ensures All(H_K_L_CVC, RowFacts)
  {
  }

  lemma MNPCvcFacts()
    ensures All(M_N_P_CVC, RowFacts)
  {
  }

  lemma STCvcFacts()
    ensures All(S_T_CVC, RowFacts)
  {
  }

  lemma ZCvcAndDiphthongsFacts()
    ensures All(Z_CVC_AND_DIPHTHONGS, RowFacts)
  {
  }

  lemma OSyllablesFacts()
    ensures All(O_SYLLABLES, RowFacts)
  {
  }

  lemma OClosedAndYFacts()
    ensures All(O_CLOSED_AND_Y, RowFacts)
  {
  }

  lemma NameEndingsFacts()
    ensures All(NAME_ENDINGS, RowFacts)
  {
  }

  lemma SingleConsonantsFacts()
    ensures All(SINGLE_CONSONANTS, RowFacts)
  {
  }

  lemma ClustersFacts()
    ensures All(CLUSTERS, RowFacts)
  {
  }

  lemma ErLeSyllablesFacts()
    ensures All(ER_LE_SYLLABLES, RowFacts)
  {
  }

  lemma WordEndingsFacts()
    ensures All(WORD_ENDINGS, RowFacts)
  {
  }

  lemma SectionFacts(j: nat)
    requires j < |SECTIONS|
    ensures All(SECTIONS[j], RowFacts)
  {
    if j < 5 {
      EarlySectionFacts(j);
    } else if j < 10 {
      MiddleSectionFacts(j);
    } else {
      LateSectionFacts(j);
    }
  }

  lemma EarlySectionFacts(j: nat)
    requires j < 5
    ensures All(SECTIONS[j], RowFacts)
  {
    if j == 0 {
      VowelsToHaFacts();
    } else if j == 1 {
      KaToPaFacts();
    } else if j == 2 {
      RaToWaFacts();
    } else if j == 3 {
      ZaAndAClosedFacts();
    } else {
      EClosedFacts();
    }
  }

  lemma MiddleSectionFacts(j: nat)
    requires 5 <= j < 10
    ensures All(SECTIONS[j], RowFacts)
  {
    if j == 5 {
      IClosedFacts();
    } else if j == 6 {
      UClosedAndBCvcFacts();
    } else if j == 7 {
      DGCvcFacts();
    } else if j == 8 {
      HKLCvcFacts();
    } else {
      MNPCvcFacts();
    }
  }

  lemma LateSectionFacts(j: nat)
    requires 10 <= j < |SECTIONS|
    ensures All(SECTIONS[j], RowFacts)
  {
    if j == 10 {
      STCvcFacts();
    } else if j == 11 {
      ZCvcAndDiphthongsFacts();
    } else if j == 12 {
      OSyllablesFacts();
    } else if j == 13 {
      OClosedAndYFacts();
    } else if j == 14 {
      NameEndingsFacts();
    } else if j == 15 {
      SingleConsonantsFacts();
    } else if j == 16 {
      ClustersFacts();
    } else if j == 17 {
      ErLeSyllablesFacts();
    } else {
      WordEndingsFacts();
    }
  }
}
