/**
 * The keys of `SYLLABLE_MAPPINGS` (src/lib/data/syllable-map.ts lines
 * 15-411) are unique: no syllable keys two rows. So the `Map` built from
 * the table keeps every row, `getAllSyllables` lists each syllable once,
 * and a lookup finds THE row for its syllable.
 *
 * The proof files every row of the table, as its key together with its
 * section and its place in that section, under the first letter of its
 * key. Inside one letter's filing no key occurs twice, so two rows with
 * the same key would have been filed as the same entry, that is, they
 * would be the same row.
 */
module SyllableKeys {
  import opened Seqs
  import opened Text
  import opened SyllableMap
  import Collections

  /** A row's key, the index of its section in `SECTIONS` and its index in that section. */
  type Filing = (string, nat, nat)

  const GROUP_A1: seq<Filing> := [
    ("a", 0, 0), ("ab", 3, 4), ("ad", 3, 5), ("ag", 3, 6), ("ak", 3, 7), ("al", 3, 8), ("am", 3, 9),
    ("an", 3, 10), ("ap", 3, 11), ("ar", 3, 12), ("as", 3, 13)
  ]

  const GROUP_A2: seq<Filing> := [
    ("ash", 3, 14), ("at", 3, 15), ("az", 3, 16), ("aa", 11, 2), ("ai", 11, 5), ("ay", 11, 6),
    ("au", 11, 7), ("aw", 11, 8), ("ang", 18, 2), ("ant", 18, 4), ("ard", 18, 8)
  ]

  const GROUP_A: seq<Filing> := GROUP_A1 + GROUP_A2

  const GROUP_B: seq<Filing> := [
    ("ba", 0, 4), ("be", 0, 5), ("bi", 0, 6), ("bu", 0, 7), ("bad", 6, 13), ("bal", 6, 14),
    ("ban", 6, 15), ("bar", 6, 16), ("bur", 6, 17), ("bo", 12, 0), ("b", 15, 0), ("ber", 17, 0),
    ("ble", 17, 13)
  ]

  const GROUP_C: seq<Filing> := [
    ("co", 12, 1), ("c", 15, 1), ("ch", 16, 0), ("ck", 16, 1), ("cle", 17, 14)
  ]

  const GROUP_D: seq<Filing> := [
    ("da", 0, 8), ("de", 0, 9), ("di", 0, 10), ("du", 0, 11), ("dag", 7, 0), ("dal", 7, 1),
    ("dam", 7, 2), ("dar", 7, 3), ("dim", 7, 4), ("din", 7, 5), ("dub", 7, 6), ("dug", 7, 7),
    ("dul", 7, 8), ("dur", 7, 9), ("do", 12, 2), ("dy", 14, 4), ("d", 15, 2), ("der", 17, 1),
    ("dle", 17, 15)
  ]

  const GROUP_E: seq<Filing> := [
    ("e", 0, 1), ("eb", 4, 0), ("ed", 4, 1), ("eg", 4, 2), ("ek", 4, 3), ("el", 4, 4), ("em", 4, 5),
    ("en", 4, 6), ("er", 4, 7), ("esh", 4, 8), ("et", 4, 9), ("ee", 11, 3), ("ea", 11, 9),
    ("ey", 14, 5), ("ent", 18, 5), ("ess", 18, 10)
  ]

  const GROUP_F: seq<Filing> := [
    ("fo", 12, 3), ("f", 15, 3), ("fer", 17, 2), ("fle", 17, 16), ("ful", 18, 13)
  ]

  const GROUP_G1: seq<Filing> := [
    ("ga", 0, 12), ("ge", 0, 13), ("gi", 0, 14), ("gu", 0, 15), ("gal", 7, 10), ("gam", 7, 11),
    ("gan", 7, 12), ("gar", 7, 13), ("gig", 7, 14)
  ]

  const GROUP_G2: seq<Filing> := [
    ("gir", 7, 15), ("gish", 7, 16), ("gul", 7, 17), ("gur", 7, 18), ("go", 12, 4), ("gy", 14, 6),
    ("g", 15, 4), ("gh", 16, 2), ("ger", 17, 3), ("gle", 17, 17)
  ]

  const GROUP_G: seq<Filing> := GROUP_G1 + GROUP_G2

  const GROUP_H: seq<Filing> := [
    ("ha", 0, 16), ("he", 0, 17), ("hi", 0, 18), ("hu", 0, 19), ("hal", 8, 0), ("har", 8, 1),
    ("hul", 8, 2), ("hur", 8, 3), ("ho", 12, 5), ("h", 15, 5), ("her", 17, 4)
  ]

  const GROUP_I: seq<Filing> := [
    ("i", 0, 2), ("ib", 5, 0), ("id", 5, 1), ("ig", 5, 2), ("ik", 5, 3), ("il", 5, 4), ("im", 5, 5),
    ("in", 5, 6), ("ip", 5, 7), ("ir", 5, 8), ("is", 5, 9), ("ish", 5, 10), ("it", 5, 11),
    ("iz", 5, 12), ("ia", 11, 10), ("ie", 11, 11), ("io", 11, 12), ("iu", 11, 13), ("ing", 18, 0),
    ("int", 18, 6)
  ]

  const GROUP_J: seq<Filing> := [
    ("jo", 12, 6), ("j", 15, 6)
  ]

  const GROUP_K: seq<Filing> := [
    ("ka", 1, 0), ("ke", 1, 1), ("ki", 1, 2), ("ku", 1, 3), ("kal", 8, 4), ("kam", 8, 5),
    ("kar", 8, 6), ("kesh", 8, 7), ("kir", 8, 8), ("kur", 8, 9), ("ko", 12, 7), ("ky", 14, 7),
    ("k", 15, 7), ("ker", 17, 5)
  ]

  const GROUP_L: seq<Filing> := [
    ("la", 1, 4), ("le", 1, 5), ("li", 1, 6), ("lu", 1, 7), ("lal", 8, 10), ("lam", 8, 11),
    ("lil", 8, 12), ("lum", 8, 13), ("lo", 12, 8), ("ly", 14, 0), ("l", 15, 8), ("ler", 17, 6),
    ("less", 18, 12)
  ]

  const GROUP_M: seq<Filing> := [
    ("ma", 1, 8), ("me", 1, 9), ("mi", 1, 10), ("mu", 1, 11), ("mal", 9, 0), ("man", 9, 1),
    ("mar", 9, 2), ("mas", 9, 3), ("mash", 9, 4), ("mul", 9, 5), ("mur", 9, 6), ("mush", 9, 7),
    ("mo", 12, 9), ("my", 14, 8), ("m", 15, 9), ("mer", 17, 7)
  ]

  const GROUP_N: seq<Filing> := [
    ("na", 1, 12), ("ne", 1, 13), ("ni", 1, 14), ("nu", 1, 15), ("nal", 9, 8), ("nam", 9, 9),
    ("nar", 9, 10), ("nig", 9, 11), ("nim", 9, 12), ("nin", 9, 13), ("nir", 9, 14), ("nun", 9, 15),
    ("no", 12, 10), ("ny", 14, 2), ("n", 15, 10), ("ng", 16, 3), ("nk", 16, 4), ("ner", 17, 8),
    ("ness", 18, 11)
  ]

  const GROUP_O1: seq<Filing> := [
    ("oo", 11, 4), ("oi", 11, 14), ("ou", 11, 15), ("ow", 11, 16), ("ob", 13, 0), ("od", 13, 1),
    ("og", 13, 2), ("ok", 13, 3), ("ol", 13, 4)
  ]

  const GROUP_O2: seq<Filing> := [
    ("om", 13, 5), ("on", 13, 6), ("op", 13, 7), ("or", 13, 8), ("os", 13, 9), ("ot", 13, 10),
    ("ong", 18, 3), ("ord", 18, 9), ("ous", 18, 14)
  ]

  const GROUP_O: seq<Filing> := GROUP_O1 + GROUP_O2

  const GROUP_P: seq<Filing> := [
    ("pa", 1, 16), ("pe", 1, 17), ("pi", 1, 18), ("pu", 1, 19), ("pir", 9, 16), ("po", 12, 11),
    ("py", 14, 9), ("p", 15, 11), ("ph", 16, 5), ("per", 17, 9), ("ple", 17, 18)
  ]

  const GROUP_Q: seq<Filing> := [
    ("q", 15, 12)
  ]

  const GROUP_R: seq<Filing> := [
    ("ra", 2, 0), ("re", 2, 1), ("ri", 2, 2), ("ru", 2, 3), ("ro", 12, 12), ("ry", 14, 1),
    ("r", 15, 13)
  ]

  const GROUP_S1: seq<Filing> := [
    ("sa", 2, 4), ("se", 2, 5), ("si", 2, 6), ("su", 2, 7), ("sha", 2, 8), ("she", 2, 9),
    ("shi", 2, 10), ("shu", 2, 11), ("sar", 10, 0), ("shar", 10, 1), ("shir", 10, 2),
    ("shum", 10, 3), ("shur", 10, 4)
  ]

  const GROUP_S2: seq<Filing> := [
    ("sig", 10, 5), ("sim", 10, 6), ("sir", 10, 7), ("sur", 10, 8), ("so", 12, 13), ("sy", 14, 10),
    ("s", 15, 14), ("sc", 16, 6), ("sh", 16, 7), ("sk", 16, 8), ("sp", 16, 9), ("st", 16, 10),
    ("ser", 17, 10), ("sion", 18, 16)
  ]

  const GROUP_S: seq<Filing> := GROUP_S1 + GROUP_S2

  const GROUP_T1: seq<Filing> := [
    ("ta", 2, 12), ("te", 2, 13), ("ti", 2, 14), ("tu", 2, 15), ("tab", 10, 9), ("tag", 10, 10),
    ("tak", 10, 11), ("tal", 10, 12), ("tam", 10, 13), ("tar", 10, 14), ("tesh", 10, 15)
  ]

  const GROUP_T2: seq<Filing> := [
    ("til", 10, 16), ("tir", 10, 17), ("tum", 10, 18), ("tur", 10, 19), ("to", 12, 14),
    ("ty", 14, 3), ("t", 15, 15), ("th", 16, 11), ("ter", 17, 11), ("tle", 17, 19), ("tion", 18, 15)
  ]

  const GROUP_T: seq<Filing> := GROUP_T1 + GROUP_T2

  const GROUP_U: seq<Filing> := [
    ("u", 0, 3), ("ub", 6, 0), ("ud", 6, 1), ("ug", 6, 2), ("uk", 6, 3), ("ul", 6, 4), ("um", 6, 5),
    ("un", 6, 6), ("up", 6, 7), ("ur", 6, 8), ("us", 6, 9), ("ush", 6, 10), ("ut", 6, 11),
    ("uz", 6, 12), ("ua", 11, 17), ("ue", 11, 18), ("ui", 11, 19), ("ung", 18, 1), ("unt", 18, 7)
  ]

  const GROUP_V: seq<Filing> := [
    ("vy", 14, 11), ("v", 15, 16), ("ver", 17, 12)
  ]

  const GROUP_W: seq<Filing> := [
    ("wa", 2, 16), ("we", 2, 17), ("wi", 2, 18), ("wu", 2, 19), ("wo", 12, 15), ("w", 15, 17),
    ("wh", 16, 12)
  ]

  const GROUP_X: seq<Filing> := [
    ("x", 15, 18)
  ]

  const GROUP_Y: seq<Filing> := [
    ("yo", 12, 16), ("ya", 13, 11), ("ye", 13, 12), ("yi", 13, 13), ("yu", 13, 14), ("y", 15, 19)
  ]

  const GROUP_Z: seq<Filing> := [
    ("za", 3, 0), ("ze", 3, 1), ("zi", 3, 2), ("zu", 3, 3), ("zal", 11, 0), ("zig", 11, 1),
    ("zy", 14, 12), ("z", 15, 20), ("zle", 17, 20)
  ]

  /** The filing of the keys starting with `c`. */
  function GroupOf(c: char): seq<Filing>
  {
    match c
    case 'a' => GROUP_A
    case 'b' => GROUP_B
    case 'c' => GROUP_C
    case 'd' => GROUP_D
    case 'e' => GROUP_E
    case 'f' => GROUP_F
    case 'g' => GROUP_G
    case 'h' => GROUP_H
    case 'i' => GROUP_I
    case 'j' => GROUP_J
    case 'k' => GROUP_K
    case 'l' => GROUP_L
    case 'm' => GROUP_M
    case 'n' => GROUP_N
    case 'o' => GROUP_O
    case 'p' => GROUP_P
    case 'q' => GROUP_Q
    case 'r' => GROUP_R
    case 's' => GROUP_S
    case 't' => GROUP_T
    case 'u' => GROUP_U
    case 'v' => GROUP_V
    case 'w' => GROUP_W
    case 'x' => GROUP_X
    case 'y' => GROUP_Y
    case 'z' => GROUP_Z
    case _ => []
  }

  /** No key occurs twice in `group`. */
  predicate DistinctKeys(group: seq<Filing>)
  {
    forall k, l :: 0 <= k < l < |group| ==> group[k].0 != group[l].0
  }

  /** No key of `a` is a key of `b`. */
  predicate Apart(a: seq<Filing>, b: seq<Filing>)
  {
    forall k, l :: 0 <= k < |a| && 0 <= l < |b| ==> a[k].0 != b[l].0
  }

  lemma AppendDistinct(a: seq<Filing>, b: seq<Filing>)
    requires DistinctKeys(a) && DistinctKeys(b) && Apart(a, b)
    ensures DistinctKeys(a + b)
  {
    var ab := a + b;
    forall k, l | 0 <= k < l < |ab| ensures ab[k].0 != ab[l].0 {
      if l >= |a| && k >= |a| {
        assert ab[k] == b[k - |a|] && ab[l] == b[l - |a|];
      } else if l >= |a| {
        assert ab[l] == b[l - |a|];
      }
    }
  }

  /** The row `m`, found at place `o` of section `j`, is filed under the first letter of its key. */
  predicate Filed(m: SyllableMapping, j: nat, o: nat)
  {
    |m.syllable| > 0 && (m.syllable, j, o) in GroupOf(m.syllable[0])
  }

  lemma GroupA1Distinct()
    ensures DistinctKeys(GROUP_A1)
  {
    forall k, l | 0 <= k < l < |GROUP_A1| ensures GROUP_A1[k].0 != GROUP_A1[l].0 {
      if k == 0 {
        assert GROUP_A1[0].0 == "a";
      } else if k == 1 {
        assert GROUP_A1[1].0 == "ab";
      } else if k == 2 {
        assert GROUP_A1[2].0 == "ad";
      } else if k == 3 {
        assert GROUP_A1[3].0 == "ag";
      } else if k == 4 {
        assert GROUP_A1[4].0 == "ak";
      } else if k == 5 {
        assert GROUP_A1[5].0 == "al";
      } else if k == 6 {
        assert GROUP_A1[6].0 == "am";
      } else if k == 7 {
        assert GROUP_A1[7].0 == "an";
      } else if k == 8 {
        assert GROUP_A1[8].0 == "ap";
      } else {
        assert GROUP_A1[9].0 == "ar";
      }
    }
  }

  lemma GroupA2Distinct()
    ensures DistinctKeys(GROUP_A2)
  {
    forall k, l | 0 <= k < l < |GROUP_A2| ensures GROUP_A2[k].0 != GROUP_A2[l].0 {
      if k == 0 {
        assert GROUP_A2[0].0 == "ash";
      } else if k == 1 {
        assert GROUP_A2[1].0 == "at";
      } else if k == 2 {
        assert GROUP_A2[2].0 == "az";
      } else if k == 3 {
        assert GROUP_A2[3].0 == "aa";
      } else if k == 4 {
        assert GROUP_A2[4].0 == "ai";
      } else if k == 5 {
        assert GROUP_A2[5].0 == "ay";
      } else if k == 6 {
        assert GROUP_A2[6].0 == "au";
      } else if k == 7 {
        assert GROUP_A2[7].0 == "aw";
      } else if k == 8 {
        assert GROUP_A2[8].0 == "ang";
      } else {
        assert GROUP_A2[9].0 == "ant";
      }
    }
  }

  lemma GroupAApart()
    ensures Apart(GROUP_A1, GROUP_A2)
  {
    forall k, l | 0 <= k < |GROUP_A1| && 0 <= l < |GROUP_A2| ensures GROUP_A1[k].0 != GROUP_A2[l].0 {
      if k == 0 {
        assert GROUP_A1[0].0 == "a";
      } else if k == 1 {
        assert GROUP_A1[1].0 == "ab";
      } else if k == 2 {
        assert GROUP_A1[2].0 == "ad";
      } else if k == 3 {
        assert GROUP_A1[3].0 == "ag";
      } else if k == 4 {
        assert GROUP_A1[4].0 == "ak";
      } else if k == 5 {
        assert GROUP_A1[5].0 == "al";
      } else if k == 6 {
        assert GROUP_A1[6].0 == "am";
      } else if k == 7 {
        assert GROUP_A1[7].0 == "an";
      } else if k == 8 {
        assert GROUP_A1[8].0 == "ap";
      } else if k == 9 {
        assert GROUP_A1[9].0 == "ar";
      } else {
        assert GROUP_A1[10].0 == "as";
      }
    }
  }

  lemma GroupADistinct()
    ensures DistinctKeys(GROUP_A)
  {
    GroupA1Distinct();
    GroupA2Distinct();
    GroupAApart();
    AppendDistinct(GROUP_A1, GROUP_A2);
  }

  lemma GroupBDistinct()
    ensures DistinctKeys(GROUP_B)
  {
    forall k, l | 0 <= k < l < |GROUP_B| ensures GROUP_B[k].0 != GROUP_B[l].0 {
      if k == 0 {
        assert GROUP_B[0].0 == "ba";
      } else if k == 1 {
        assert GROUP_B[1].0 == "be";
      } else if k == 2 {
        assert GROUP_B[2].0 == "bi";
      } else if k == 3 {
        assert GROUP_B[3].0 == "bu";
      } else if k == 4 {
        assert GROUP_B[4].0 == "bad";
      } else if k == 5 {
        assert GROUP_B[5].0 == "bal";
      } else if k == 6 {
        assert GROUP_B[6].0 == "ban";
      } else if k == 7 {
        assert GROUP_B[7].0 == "bar";
      } else if k == 8 {
        assert GROUP_B[8].0 == "bur";
      } else if k == 9 {
        assert GROUP_B[9].0 == "bo";
      } else if k == 10 {
        assert GROUP_B[10].0 == "b";
      } else {
        assert GROUP_B[11].0 == "ber";
      }
    }
  }

  lemma GroupCDistinct()
    ensures DistinctKeys(GROUP_C)
  {
    forall k, l | 0 <= k < l < |GROUP_C| ensures GROUP_C[k].0 != GROUP_C[l].0 {
      if k == 0 {
        assert GROUP_C[0].0 == "co";
      } else if k == 1 {
        assert GROUP_C[1].0 == "c";
      } else if k == 2 {
        assert GROUP_C[2].0 == "ch";
      } else {
        assert GROUP_C[3].0 == "ck";
      }
    }
  }

  lemma GroupDDistinct()
    ensures DistinctKeys(GROUP_D)
  {
    forall k, l | 0 <= k < l < |GROUP_D| ensures GROUP_D[k].0 != GROUP_D[l].0 {
      if k == 0 {
        assert GROUP_D[0].0 == "da";
      } else if k == 1 {
        assert GROUP_D[1].0 == "de";
      } else if k == 2 {
        assert GROUP_D[2].0 == "di";
      } else if k == 3 {
        assert GROUP_D[3].0 == "du";
      } else if k == 4 {
        assert GROUP_D[4].0 == "dag";
      } else if k == 5 {
        assert GROUP_D[5].0 == "dal";
      } else if k == 6 {
        assert GROUP_D[6].0 == "dam";
      } else if k == 7 {
        assert GROUP_D[7].0 == "dar";
      } else if k == 8 {
        assert GROUP_D[8].0 == "dim";
      } else if k == 9 {
        assert GROUP_D[9].0 == "din";
      } else if k == 10 {
        assert GROUP_D[10].0 == "dub";
      } else if k == 11 {
        assert GROUP_D[11].0 == "dug";
      } else if k == 12 {
        assert GROUP_D[12].0 == "dul";
      } else if k == 13 {
        assert GROUP_D[13].0 == "dur";
      } else if k == 14 {
        assert GROUP_D[14].0 == "do";
      } else if k == 15 {
        assert GROUP_D[15].0 == "dy";
      } else if k == 16 {
        assert GROUP_D[16].0 == "d";
      } else {
        assert GROUP_D[17].0 == "der";
      }
    }
  }

  lemma GroupEDistinct()
    ensures DistinctKeys(GROUP_E)
  {
    forall k, l | 0 <= k < l < |GROUP_E| ensures GROUP_E[k].0 != GROUP_E[l].0 {
      if k == 0 {
        assert GROUP_E[0].0 == "e";
      } else if k == 1 {
        assert GROUP_E[1].0 == "eb";
      } else if k == 2 {
        assert GROUP_E[2].0 == "ed";
      } else if k == 3 {
        assert GROUP_E[3].0 == "eg";
      } else if k == 4 {
        assert GROUP_E[4].0 == "ek";
      } else if k == 5 {
        assert GROUP_E[5].0 == "el";
      } else if k == 6 {
        assert GROUP_E[6].0 == "em";
      } else if k == 7 {
        assert GROUP_E[7].0 == "en";
      } else if k == 8 {
        assert GROUP_E[8].0 == "er";
      } else if k == 9 {
        assert GROUP_E[9].0 == "esh";
      } else if k == 10 {
        assert GROUP_E[10].0 == "et";
      } else if k == 11 {
        assert GROUP_E[11].0 == "ee";
      } else if k == 12 {
        assert GROUP_E[12].0 == "ea";
      } else if k == 13 {
        assert GROUP_E[13].0 == "ey";
      } else {
        assert GROUP_E[14].0 == "ent";
      }
    }
  }

  lemma GroupFDistinct()
    ensures DistinctKeys(GROUP_F)
  {
    forall k, l | 0 <= k < l < |GROUP_F| ensures GROUP_F[k].0 != GROUP_F[l].0 {
      if k == 0 {
        assert GROUP_F[0].0 == "fo";
      } else if k == 1 {
        assert GROUP_F[1].0 == "f";
      } else if k == 2 {
        assert GROUP_F[2].0 == "fer";
      } else {
        assert GROUP_F[3].0 == "fle";
      }
    }
  }

  lemma GroupG1Distinct()
    ensures DistinctKeys(GROUP_G1)
  {
    forall k, l | 0 <= k < l < |GROUP_G1| ensures GROUP_G1[k].0 != GROUP_G1[l].0 {
      if k == 0 {
        assert GROUP_G1[0].0 == "ga";
      } else if k == 1 {
        assert GROUP_G1[1].0 == "ge";
      } else if k == 2 {
        assert GROUP_G1[2].0 == "gi";
      } else if k == 3 {
        assert GROUP_G1[3].0 == "gu";
      } else if k == 4 {
        assert GROUP_G1[4].0 == "gal";
      } else if k == 5 {
        assert GROUP_G1[5].0 == "gam";
      } else if k == 6 {
        assert GROUP_G1[6].0 == "gan";
      } else {
        assert GROUP_G1[7].0 == "gar";
      }
    }
  }

  lemma GroupG2Distinct()
    ensures DistinctKeys(GROUP_G2)
  {
    forall k, l | 0 <= k < l < |GROUP_G2| ensures GROUP_G2[k].0 != GROUP_G2[l].0 {
      if k == 0 {
        assert GROUP_G2[0].0 == "gir";
      } else if k == 1 {
        assert GROUP_G2[1].0 == "gish";
      } else if k == 2 {
        assert GROUP_G2[2].0 == "gul";
      } else if k == 3 {
        assert GROUP_G2[3].0 == "gur";
      } else if k == 4 {
        assert GROUP_G2[4].0 == "go";
      } else if k == 5 {
        assert GROUP_G2[5].0 == "gy";
      } else if k == 6 {
        assert GROUP_G2[6].0 == "g";
      } else if k == 7 {
        assert GROUP_G2[7].0 == "gh";
      } else {
        assert GROUP_G2[8].0 == "ger";
      }
    }
  }

  lemma GroupGApart()
    ensures Apart(GROUP_G1, GROUP_G2)
  {
    forall k, l | 0 <= k < |GROUP_G1| && 0 <= l < |GROUP_G2| ensures GROUP_G1[k].0 != GROUP_G2[l].0 {
      if k == 0 {
        assert GROUP_G1[0].0 == "ga";
      } else if k == 1 {
        assert GROUP_G1[1].0 == "ge";
      } else if k == 2 {
        assert GROUP_G1[2].0 == "gi";
      } else if k == 3 {
        assert GROUP_G1[3].0 == "gu";
      } else if k == 4 {
        assert GROUP_G1[4].0 == "gal";
      } else if k == 5 {
        assert GROUP_G1[5].0 == "gam";
      } else if k == 6 {
        assert GROUP_G1[6].0 == "gan";
      } else if k == 7 {
        assert GROUP_G1[7].0 == "gar";
      } else {
        assert GROUP_G1[8].0 == "gig";
      }
    }
  }

  lemma GroupGDistinct()
    ensures DistinctKeys(GROUP_G)
  {
    GroupG1Distinct();
    GroupG2Distinct();
    GroupGApart();
    AppendDistinct(GROUP_G1, GROUP_G2);
  }

  lemma GroupHDistinct()
    ensures DistinctKeys(GROUP_H)
  {
    forall k, l | 0 <= k < l < |GROUP_H| ensures GROUP_H[k].0 != GROUP_H[l].0 {
      if k == 0 {
        assert GROUP_H[0].0 == "ha";
      } else if k == 1 {
        assert GROUP_H[1].0 == "he";
      } else if k == 2 {
        assert GROUP_H[2].0 == "hi";
      } else if k == 3 {
        assert GROUP_H[3].0 == "hu";
      } else if k == 4 {
        assert GROUP_H[4].0 == "hal";
      } else if k == 5 {
        assert GROUP_H[5].0 == "har";
      } else if k == 6 {
        assert GROUP_H[6].0 == "hul";
      } else if k == 7 {
        assert GROUP_H[7].0 == "hur";
      } else if k == 8 {
        assert GROUP_H[8].0 == "ho";
      } else {
        assert GROUP_H[9].0 == "h";
      }
    }
  }

  lemma GroupIDistinct()
    ensures DistinctKeys(GROUP_I)
  {
    forall k, l | 0 <= k < l < |GROUP_I| ensures GROUP_I[k].0 != GROUP_I[l].0 {
      if k == 0 {
        assert GROUP_I[0].0 == "i";
      } else if k == 1 {
        assert GROUP_I[1].0 == "ib";
      } else if k == 2 {
        assert GROUP_I[2].0 == "id";
      } else if k == 3 {
        assert GROUP_I[3].0 == "ig";
      } else if k == 4 {
        assert GROUP_I[4].0 == "ik";
      } else if k == 5 {
        assert GROUP_I[5].0 == "il";
      } else if k == 6 {
        assert GROUP_I[6].0 == "im";
      } else if k == 7 {
        assert GROUP_I[7].0 == "in";
      } else if k == 8 {
        assert GROUP_I[8].0 == "ip";
      } else if k == 9 {
        assert GROUP_I[9].0 == "ir";
      } else if k == 10 {
        assert GROUP_I[10].0 == "is";
      } else if k == 11 {
        assert GROUP_I[11].0 == "ish";
      } else if k == 12 {
        assert GROUP_I[12].0 == "it";
      } else if k == 13 {
        assert GROUP_I[13].0 == "iz";
      } else if k == 14 {
        assert GROUP_I[14].0 == "ia";
      } else if k == 15 {
        assert GROUP_I[15].0 == "ie";
      } else if k == 16 {
        assert GROUP_I[16].0 == "io";
      } else if k == 17 {
        assert GROUP_I[17].0 == "iu";
      } else {
        assert GROUP_I[18].0 == "ing";
      }
    }
  }

  lemma GroupJDistinct()
    ensures DistinctKeys(GROUP_J)
  {
    forall k, l | 0 <= k < l < |GROUP_J| ensures GROUP_J[k].0 != GROUP_J[l].0 {
      assert GROUP_J[0].0 == "jo";
    }
  }

  lemma GroupKDistinct()
    ensures DistinctKeys(GROUP_K)
  {
    forall k, l | 0 <= k < l < |GROUP_K| ensures GROUP_K[k].0 != GROUP_K[l].0 {
      if k == 0 {
        assert GROUP_K[0].0 == "ka";
      } else if k == 1 {
        assert GROUP_K[1].0 == "ke";
      } else if k == 2 {
        assert GROUP_K[2].0 == "ki";
      } else if k == 3 {
        assert GROUP_K[3].0 == "ku";
      } else if k == 4 {
        assert GROUP_K[4].0 == "kal";
      } else if k == 5 {
        assert GROUP_K[5].0 == "kam";
      } else if k == 6 {
        assert GROUP_K[6].0 == "kar";
      } else if k == 7 {
        assert GROUP_K[7].0 == "kesh";
      } else if k == 8 {
        assert GROUP_K[8].0 == "kir";
      } else if k == 9 {
        assert GROUP_K[9].0 == "kur";
      } else if k == 10 {
        assert GROUP_K[10].0 == "ko";
      } else if k == 11 {
        assert GROUP_K[11].0 == "ky";
      } else {
        assert GROUP_K[12].0 == "k";
      }
    }
  }

  lemma GroupLDistinct()
    ensures DistinctKeys(GROUP_L)
  {
    forall k, l | 0 <= k < l < |GROUP_L| ensures GROUP_L[k].0 != GROUP_L[l].0 {
      if k == 0 {
        assert GROUP_L[0].0 == "la";
      } else if k == 1 {
        assert GROUP_L[1].0 == "le";
      } else if k == 2 {
        assert GROUP_L[2].0 == "li";
      } else if k == 3 {
        assert GROUP_L[3].0 == "lu";
      } else if k == 4 {
        assert GROUP_L[4].0 == "lal";
      } else if k == 5 {
        assert GROUP_L[5].0 == "lam";
      } else if k == 6 {
        assert GROUP_L[6].0 == "lil";
      } else if k == 7 {
        assert GROUP_L[7].0 == "lum";
      } else if k == 8 {
        assert GROUP_L[8].0 == "lo";
      } else if k == 9 {
        assert GROUP_L[9].0 == "ly";
      } else if k == 10 {
        assert GROUP_L[10].0 == "l";
      } else {
        assert GROUP_L[11].0 == "ler";
      }
    }
  }

  lemma GroupMDistinct()
    ensures DistinctKeys(GROUP_M)
  {
    forall k, l | 0 <= k < l < |GROUP_M| ensures GROUP_M[k].0 != GROUP_M[l].0 {
      if k == 0 {
        assert GROUP_M[0].0 == "ma";
      } else if k == 1 {
        assert GROUP_M[1].0 == "me";
      } else if k == 2 {
        assert GROUP_M[2].0 == "mi";
      } else if k == 3 {
        assert GROUP_M[3].0 == "mu";
      } else if k == 4 {
        assert GROUP_M[4].0 == "mal";
      } else if k == 5 {
        assert GROUP_M[5].0 == "man";
      } else if k == 6 {
        assert GROUP_M[6].0 == "mar";
      } else if k == 7 {
        assert GROUP_M[7].0 == "mas";
      } else if k == 8 {
        assert GROUP_M[8].0 == "mash";
      } else if k == 9 {
        assert GROUP_M[9].0 == "mul";
      } else if k == 10 {
        assert GROUP_M[10].0 == "mur";
      } else if k == 11 {
        assert GROUP_M[11].0 == "mush";
      } else if k == 12 {
        assert GROUP_M[12].0 == "mo";
      } else if k == 13 {
        assert GROUP_M[13].0 == "my";
      } else {
        assert GROUP_M[14].0 == "m";
      }
    }
  }

  lemma GroupNDistinct()
    ensures DistinctKeys(GROUP_N)
  {
    forall k, l | 0 <= k < l < |GROUP_N| ensures GROUP_N[k].0 != GROUP_N[l].0 {
      if k == 0 {
        assert GROUP_N[0].0 == "na";
      } else if k == 1 {
        assert GROUP_N[1].0 == "ne";
      } else if k == 2 {
        assert GROUP_N[2].0 == "ni";
      } else if k == 3 {
        assert GROUP_N[3].0 == "nu";
      } else if k == 4 {
        assert GROUP_N[4].0 == "nal";
      } else if k == 5 {
        assert GROUP_N[5].0 == "nam";
      } else if k == 6 {
        assert GROUP_N[6].0 == "nar";
      } else if k == 7 {
        assert GROUP_N[7].0 == "nig";
      } else if k == 8 {
        assert GROUP_N[8].0 == "nim";
      } else if k == 9 {
        assert GROUP_N[9].0 == "nin";
      } else if k == 10 {
        assert GROUP_N[10].0 == "nir";
      } else if k == 11 {
        assert GROUP_N[11].0 == "nun";
      } else if k == 12 {
        assert GROUP_N[12].0 == "no";
      } else if k == 13 {
        assert GROUP_N[13].0 == "ny";
      } else if k == 14 {
        assert GROUP_N[14].0 == "n";
      } else if k == 15 {
        assert GROUP_N[15].0 == "ng";
      } else if k == 16 {
        assert GROUP_N[16].0 == "nk";
      } else {
        assert GROUP_N[17].0 == "ner";
      }
    }
  }

  lemma GroupO1Distinct()
    ensures DistinctKeys(GROUP_O1)
  {
    forall k, l | 0 <= k < l < |GROUP_O1| ensures GROUP_O1[k].0 != GROUP_O1[l].0 {
      if k == 0 {
        assert GROUP_O1[0].0 == "oo";
      } else if k == 1 {
        assert GROUP_O1[1].0 == "oi";
      } else if k == 2 {
        assert GROUP_O1[2].0 == "ou";
      } else if k == 3 {
        assert GROUP_O1[3].0 == "ow";
      } else if k == 4 {
        assert GROUP_O1[4].0 == "ob";
      } else if k == 5 {
        assert GROUP_O1[5].0 == "od";
      } else if k == 6 {
        assert GROUP_O1[6].0 == "og";
      } else {
        assert GROUP_O1[7].0 == "ok";
      }
    }
  }

  lemma GroupO2Distinct()
    ensures DistinctKeys(GROUP_O2)
  {
    forall k, l | 0 <= k < l < |GROUP_O2| ensures GROUP_O2[k].0 != GROUP_O2[l].0 {
      if k == 0 {
        assert GROUP_O2[0].0 == "om";
      } else if k == 1 {
        assert GROUP_O2[1].0 == "on";
      } else if k == 2 {
        assert GROUP_O2[2].0 == "op";
      } else if k == 3 {
        assert GROUP_O2[3].0 == "or";
      } else if k == 4 {
        assert GROUP_O2[4].0 == "os";
      } else if k == 5 {
        assert GROUP_O2[5].0 == "ot";
      } else if k == 6 {
        assert GROUP_O2[6].0 == "ong";
      } else {
        assert GROUP_O2[7].0 == "ord";
      }
    }
  }

  lemma GroupOApart()
    ensures Apart(GROUP_O1, GROUP_O2)
  {
    forall k, l | 0 <= k < |GROUP_O1| && 0 <= l < |GROUP_O2| ensures GROUP_O1[k].0 != GROUP_O2[l].0 {
      if k == 0 {
        assert GROUP_O1[0].0 == "oo";
      } else if k == 1 {
        assert GROUP_O1[1].0 == "oi";
      } else if k == 2 {
        assert GROUP_O1[2].0 == "ou";
      } else if k == 3 {
        assert GROUP_O1[3].0 == "ow";
      } else if k == 4 {
        assert GROUP_O1[4].0 == "ob";
      } else if k == 5 {
        assert GROUP_O1[5].0 == "od";
      } else if k == 6 {
        assert GROUP_O1[6].0 == "og";
      } else if k == 7 {
        assert GROUP_O1[7].0 == "ok";
      } else {
        assert GROUP_O1[8].0 == "ol";
      }
    }
  }

  lemma GroupODistinct()
    ensures DistinctKeys(GROUP_O)
  {
    GroupO1Distinct();
    GroupO2Distinct();
    GroupOApart();
    AppendDistinct(GROUP_O1, GROUP_O2);
  }

  lemma GroupPDistinct()
    ensures DistinctKeys(GROUP_P)
  {
    forall k, l | 0 <= k < l < |GROUP_P| ensures GROUP_P[k].0 != GROUP_P[l].0 {
      if k == 0 {
        assert GROUP_P[0].0 == "pa";
      } else if k == 1 {
        assert GROUP_P[1].0 == "pe";
      } else if k == 2 {
        assert GROUP_P[2].0 == "pi";
      } else if k == 3 {
        assert GROUP_P[3].0 == "pu";
      } else if k == 4 {
        assert GROUP_P[4].0 == "pir";
      } else if k == 5 {
        assert GROUP_P[5].0 == "po";
      } else if k == 6 {
        assert GROUP_P[6].0 == "py";
      } else if k == 7 {
        assert GROUP_P[7].0 == "p";
      } else if k == 8 {
        assert GROUP_P[8].0 == "ph";
      } else {
        assert GROUP_P[9].0 == "per";
      }
    }
  }

  lemma GroupRDistinct()
    ensures DistinctKeys(GROUP_R)
  {
    forall k, l | 0 <= k < l < |GROUP_R| ensures GROUP_R[k].0 != GROUP_R[l].0 {
      if k == 0 {
        assert GROUP_R[0].0 == "ra";
      } else if k == 1 {
        assert GROUP_R[1].0 == "re";
      } else if k == 2 {
        assert GROUP_R[2].0 == "ri";
      } else if k == 3 {
        assert GROUP_R[3].0 == "ru";
      } else if k == 4 {
        assert GROUP_R[4].0 == "ro";
      } else {
        assert GROUP_R[5].0 == "ry";
      }
    }
  }

  lemma GroupS1Distinct()
    ensures DistinctKeys(GROUP_S1)
  {
    forall k, l | 0 <= k < l < |GROUP_S1| ensures GROUP_S1[k].0 != GROUP_S1[l].0 {
      if k == 0 {
        assert GROUP_S1[0].0 == "sa";
      } else if k == 1 {
        assert GROUP_S1[1].0 == "se";
      } else if k == 2 {
        assert GROUP_S1[2].0 == "si";
      } else if k == 3 {
        assert GROUP_S1[3].0 == "su";
      } else if k == 4 {
        assert GROUP_S1[4].0 == "sha";
      } else if k == 5 {
        assert GROUP_S1[5].0 == "she";
      } else if k == 6 {
        assert GROUP_S1[6].0 == "shi";
      } else if k == 7 {
        assert GROUP_S1[7].0 == "shu";
      } else if k == 8 {
        assert GROUP_S1[8].0 == "sar";
      } else if k == 9 {
        assert GROUP_S1[9].0 == "shar";
      } else if k == 10 {
        assert GROUP_S1[10].0 == "shir";
      } else {
        assert GROUP_S1[11].0 == "shum";
      }
    }
  }

  lemma GroupS2Distinct()
    ensures DistinctKeys(GROUP_S2)
  {
    forall k, l | 0 <= k < l < |GROUP_S2| ensures GROUP_S2[k].0 != GROUP_S2[l].0 {
      if k == 0 {
        assert GROUP_S2[0].0 == "sig";
      } else if k == 1 {
        assert GROUP_S2[1].0 == "sim";
      } else if k == 2 {
        assert GROUP_S2[2].0 == "sir";
      } else if k == 3 {
        assert GROUP_S2[3].0 == "sur";
      } else if k == 4 {
        assert GROUP_S2[4].0 == "so";
      } else if k == 5 {
        assert GROUP_S2[5].0 == "sy";
      } else if k == 6 {
        assert GROUP_S2[6].0 == "s";
      } else if k == 7 {
        assert GROUP_S2[7].0 == "sc";
      } else if k == 8 {
        assert GROUP_S2[8].0 == "sh";
      } else if k == 9 {
        assert GROUP_S2[9].0 == "sk";
      } else if k == 10 {
        assert GROUP_S2[10].0 == "sp";
      } else if k == 11 {
        assert GROUP_S2[11].0 == "st";
      } else {
        assert GROUP_S2[12].0 == "ser";
      }
    }
  }

  lemma GroupSApart()
    ensures Apart(GROUP_S1, GROUP_S2)
  {
    forall k, l | 0 <= k < |GROUP_S1| && 0 <= l < |GROUP_S2| ensures GROUP_S1[k].0 != GROUP_S2[l].0 {
      if k == 0 {
        assert GROUP_S1[0].0 == "sa";
      } else if k == 1 {
        assert GROUP_S1[1].0 == "se";
      } else if k == 2 {
        assert GROUP_S1[2].0 == "si";
      } else if k == 3 {
        assert GROUP_S1[3].0 == "su";
      } else if k == 4 {
        assert GROUP_S1[4].0 == "sha";
      } else if k == 5 {
        assert GROUP_S1[5].0 == "she";
      } else if k == 6 {
        assert GROUP_S1[6].0 == "shi";
      } else if k == 7 {
        assert GROUP_S1[7].0 == "shu";
      } else if k == 8 {
        assert GROUP_S1[8].0 == "sar";
      } else if k == 9 {
        assert GROUP_S1[9].0 == "shar";
      } else if k == 10 {
        assert GROUP_S1[10].0 == "shir";
      } else if k == 11 {
        assert GROUP_S1[11].0 == "shum";
      } else {
        assert GROUP_S1[12].0 == "shur";
      }
    }
  }

  lemma GroupSDistinct()
    ensures DistinctKeys(GROUP_S)
  {
    GroupS1Distinct();
    GroupS2Distinct();
    GroupSApart();
    AppendDistinct(GROUP_S1, GROUP_S2);
  }

  lemma GroupT1Distinct()
    ensures DistinctKeys(GROUP_T1)
  {
    forall k, l | 0 <= k < l < |GROUP_T1| ensures GROUP_T1[k].0 != GROUP_T1[l].0 {
      if k == 0 {
        assert GROUP_T1[0].0 == "ta";
      } else if k == 1 {
        assert GROUP_T1[1].0 == "te";
      } else if k == 2 {
        assert GROUP_T1[2].0 == "ti";
      } else if k == 3 {
        assert GROUP_T1[3].0 == "tu";
      } else if k == 4 {
        assert GROUP_T1[4].0 == "tab";
      } else if k == 5 {
        assert GROUP_T1[5].0 == "tag";
      } else if k == 6 {
        assert GROUP_T1[6].0 == "tak";
      } else if k == 7 {
        assert GROUP_T1[7].0 == "tal";
      } else if k == 8 {
        assert GROUP_T1[8].0 == "tam";
      } else {
        assert GROUP_T1[9].0 == "tar";
      }
    }
  }

  lemma GroupT2Distinct()
    ensures DistinctKeys(GROUP_T2)
  {
    forall k, l | 0 <= k < l < |GROUP_T2| ensures GROUP_T2[k].0 != GROUP_T2[l].0 {
      if k == 0 {
        assert GROUP_T2[0].0 == "til";
      } else if k == 1 {
        assert GROUP_T2[1].0 == "tir";
      } else if k == 2 {
        assert GROUP_T2[2].0 == "tum";
      } else if k == 3 {
        assert GROUP_T2[3].0 == "tur";
      } else if k == 4 {
        assert GROUP_T2[4].0 == "to";
      } else if k == 5 {
        assert GROUP_T2[5].0 == "ty";
      } else if k == 6 {
        assert GROUP_T2[6].0 == "t";
      } else if k == 7 {
        assert GROUP_T2[7].0 == "th";
      } else if k == 8 {
        assert GROUP_T2[8].0 == "ter";
      } else {
        assert GROUP_T2[9].0 == "tle";
      }
    }
  }

  lemma GroupTApart()
    ensures Apart(GROUP_T1, GROUP_T2)
  {
    forall k, l | 0 <= k < |GROUP_T1| && 0 <= l < |GROUP_T2| ensures GROUP_T1[k].0 != GROUP_T2[l].0 {
      if k == 0 {
        assert GROUP_T1[0].0 == "ta";
      } else if k == 1 {
        assert GROUP_T1[1].0 == "te";
      } else if k == 2 {
        assert GROUP_T1[2].0 == "ti";
      } else if k == 3 {
        assert GROUP_T1[3].0 == "tu";
      } else if k == 4 {
        assert GROUP_T1[4].0 == "tab";
      } else if k == 5 {
        assert GROUP_T1[5].0 == "tag";
      } else if k == 6 {
        assert GROUP_T1[6].0 == "tak";
      } else if k == 7 {
        assert GROUP_T1[7].0 == "tal";
      } else if k == 8 {
        assert GROUP_T1[8].0 == "tam";
      } else if k == 9 {
        assert GROUP_T1[9].0 == "tar";
      } else {
        assert GROUP_T1[10].0 == "tesh";
      }
    }
  }

  lemma GroupTDistinct()
    ensures DistinctKeys(GROUP_T)
  {
    GroupT1Distinct();
    GroupT2Distinct();
    GroupTApart();
    AppendDistinct(GROUP_T1, GROUP_T2);
  }

  lemma GroupUDistinct()
    ensures DistinctKeys(GROUP_U)
  {
    forall k, l | 0 <= k < l < |GROUP_U| ensures GROUP_U[k].0 != GROUP_U[l].0 {
      if k == 0 {
        assert GROUP_U[0].0 == "u";
      } else if k == 1 {
        assert GROUP_U[1].0 == "ub";
      } else if k == 2 {
        assert GROUP_U[2].0 == "ud";
      } else if k == 3 {
        assert GROUP_U[3].0 == "ug";
      } else if k == 4 {
        assert GROUP_U[4].0 == "uk";
      } else if k == 5 {
        assert GROUP_U[5].0 == "ul";
      } else if k == 6 {
        assert GROUP_U[6].0 == "um";
      } else if k == 7 {
        assert GROUP_U[7].0 == "un";
      } else if k == 8 {
        assert GROUP_U[8].0 == "up";
      } else if k == 9 {
        assert GROUP_U[9].0 == "ur";
      } else if k == 10 {
        assert GROUP_U[10].0 == "us";
      } else if k == 11 {
        assert GROUP_U[11].0 == "ush";
      } else if k == 12 {
        assert GROUP_U[12].0 == "ut";
      } else if k == 13 {
        assert GROUP_U[13].0 == "uz";
      } else if k == 14 {
        assert GROUP_U[14].0 == "ua";
      } else if k == 15 {
        assert GROUP_U[15].0 == "ue";
      } else if k == 16 {
        assert GROUP_U[16].0 == "ui";
      } else {
        assert GROUP_U[17].0 == "ung";
      }
    }
  }

  lemma GroupVDistinct()
    ensures DistinctKeys(GROUP_V)
  {
    forall k, l | 0 <= k < l < |GROUP_V| ensures GROUP_V[k].0 != GROUP_V[l].0 {
      if k == 0 {
        assert GROUP_V[0].0 == "vy";
      } else {
        assert GROUP_V[1].0 == "v";
      }
    }
  }

  lemma GroupWDistinct()
    ensures DistinctKeys(GROUP_W)
  {
    forall k, l | 0 <= k < l < |GROUP_W| ensures GROUP_W[k].0 != GROUP_W[l].0 {
      if k == 0 {
        assert GROUP_W[0].0 == "wa";
      } else if k == 1 {
        assert GROUP_W[1].0 == "we";
      } else if k == 2 {
        assert GROUP_W[2].0 == "wi";
      } else if k == 3 {
        assert GROUP_W[3].0 == "wu";
      } else if k == 4 {
        assert GROUP_W[4].0 == "wo";
      } else {
        assert GROUP_W[5].0 == "w";
      }
    }
  }

  lemma GroupYDistinct()
    ensures DistinctKeys(GROUP_Y)
  {
    forall k, l | 0 <= k < l < |GROUP_Y| ensures GROUP_Y[k].0 != GROUP_Y[l].0 {
      if k == 0 {
        assert GROUP_Y[0].0 == "yo";
      } else if k == 1 {
        assert GROUP_Y[1].0 == "ya";
      } else if k == 2 {
        assert GROUP_Y[2].0 == "ye";
      } else if k == 3 {
        assert GROUP_Y[3].0 == "yi";
      } else {
        assert GROUP_Y[4].0 == "yu";
      }
    }
  }

  lemma GroupZDistinct()
    ensures DistinctKeys(GROUP_Z)
  {
    forall k, l | 0 <= k < l < |GROUP_Z| ensures GROUP_Z[k].0 != GROUP_Z[l].0 {
      if k == 0 {
        assert GROUP_Z[0].0 == "za";
      } else if k == 1 {
        assert GROUP_Z[1].0 == "ze";
      } else if k == 2 {
        assert GROUP_Z[2].0 == "zi";
      } else if k == 3 {
        assert GROUP_Z[3].0 == "zu";
      } else if k == 4 {
        assert GROUP_Z[4].0 == "zal";
      } else if k == 5 {
        assert GROUP_Z[5].0 == "zig";
      } else if k == 6 {
        assert GROUP_Z[6].0 == "zy";
      } else {
        assert GROUP_Z[7].0 == "z";
      }
    }
  }

  lemma GroupDistinct(c: char)
    ensures DistinctKeys(GroupOf(c))
  {
    match c
    case 'a' => GroupADistinct();
    case 'b' => GroupBDistinct();
    case 'c' => GroupCDistinct();
    case 'd' => GroupDDistinct();
    case 'e' => GroupEDistinct();
    case 'f' => GroupFDistinct();
    case 'g' => GroupGDistinct();
    case 'h' => GroupHDistinct();
    case 'i' => GroupIDistinct();
    case 'j' => GroupJDistinct();
    case 'k' => GroupKDistinct();
    case 'l' => GroupLDistinct();
    case 'm' => GroupMDistinct();
    case 'n' => GroupNDistinct();
    case 'o' => GroupODistinct();
    case 'p' => GroupPDistinct();
    case 'r' => GroupRDistinct();
    case 's' => GroupSDistinct();
    case 't' => GroupTDistinct();
    case 'u' => GroupUDistinct();
    case 'v' => GroupVDistinct();
    case 'w' => GroupWDistinct();
    case 'y' => GroupYDistinct();
    case 'z' => GroupZDistinct();
    case _ =>
  }

  lemma VowelsToHaFiledFrom0()
    ensures forall o :: 0 <= o < 7 ==> o < |VOWELS_TO_HA| && Filed(VOWELS_TO_HA[o], 0, o)
  {
    forall o | 0 <= o < 7 ensures Filed(VOWELS_TO_HA[o], 0, o) {
      if o == 0 {
        assert GROUP_A1[0] == ("a", 0, 0);
      } else if o == 1 {
        assert GROUP_E[0] == ("e", 0, 1);
      } else if o == 2 {
        assert GROUP_I[0] == ("i", 0, 2);
      } else if o == 3 {
        assert GROUP_U[0] == ("u", 0, 3);
      } else if o == 4 {
        assert GROUP_B[0] == ("ba", 0, 4);
      } else if o == 5 {
        assert GROUP_B[1] == ("be", 0, 5);
      } else {
        assert GROUP_B[2] == ("bi", 0, 6);
      }
    }
  }

  lemma VowelsToHaFiledFrom7()
    ensures forall o :: 7 <= o < 14 ==> o < |VOWELS_TO_HA| && Filed(VOWELS_TO_HA[o], 0, o)
  {
    forall o | 7 <= o < 14 ensures Filed(VOWELS_TO_HA[o], 0, o) {
      if o == 7 {
        assert GROUP_B[3] == ("bu", 0, 7);
      } else if o == 8 {
        assert GROUP_D[0] == ("da", 0, 8);
      } else if o == 9 {
        assert GROUP_D[1] == ("de", 0, 9);
      } else if o == 10 {
        assert GROUP_D[2] == ("di", 0, 10);
      } else if o == 11 {
        assert GROUP_D[3] == ("du", 0, 11);
      } else if o == 12 {
        assert GROUP_G1[0] == ("ga", 0, 12);
      } else {
        assert GROUP_G1[1] == ("ge", 0, 13);
      }
    }
  }

  lemma VowelsToHaFiledFrom14()
    ensures forall o :: 14 <= o < 20 ==> o < |VOWELS_TO_HA| && Filed(VOWELS_TO_HA[o], 0, o)
  {
    forall o | 14 <= o < 20 ensures Filed(VOWELS_TO_HA[o], 0, o) {
      if o == 14 {
        assert GROUP_G1[2] == ("gi", 0, 14);
      } else if o == 15 {
        assert GROUP_G1[3] == ("gu", 0, 15);
      } else if o == 16 {
        assert GROUP_H[0] == ("ha", 0, 16);
      } else if o == 17 {
        assert GROUP_H[1] == ("he", 0, 17);
      } else if o == 18 {
        assert GROUP_H[2] == ("hi", 0, 18);
      } else {
        assert GROUP_H[3] == ("hu", 0, 19);
      }
    }
  }

  lemma VowelsToHaFiled()
    ensures forall o :: 0 <= o < |VOWELS_TO_HA| ==> Filed(VOWELS_TO_HA[o], 0, o)
  {
    VowelsToHaFiledFrom0();
    VowelsToHaFiledFrom7();
    VowelsToHaFiledFrom14();
  }

  lemma KaToPaFiledFrom0()
    ensures forall o :: 0 <= o < 7 ==> o < |KA_TO_PA| && Filed(KA_TO_PA[o], 1, o)
  {
    forall o | 0 <= o < 7 ensures Filed(KA_TO_PA[o], 1, o) {
      if o == 0 {
        assert GROUP_K[0] == ("ka", 1, 0);
      } else if o == 1 {
        assert GROUP_K[1] == ("ke", 1, 1);
      } else if o == 2 {
        assert GROUP_K[2] == ("ki", 1, 2);
      } else if o == 3 {
        assert GROUP_K[3] == ("ku", 1, 3);
      } else if o == 4 {
        assert GROUP_L[0] == ("la", 1, 4);
      } else if o == 5 {
        assert GROUP_L[1] == ("le", 1, 5);
      } else {
        assert GROUP_L[2] == ("li", 1, 6);
      }
    }
  }

  lemma KaToPaFiledFrom7()
    ensures forall o :: 7 <= o < 14 ==> o < |KA_TO_PA| && Filed(KA_TO_PA[o], 1, o)
  {
    forall o | 7 <= o < 14 ensures Filed(KA_TO_PA[o], 1, o) {
      if o == 7 {
        assert GROUP_L[3] == ("lu", 1, 7);
      } else if o == 8 {
        assert GROUP_M[0] == ("ma", 1, 8);
      } else if o == 9 {
        assert GROUP_M[1] == ("me", 1, 9);
      } else if o == 10 {
        assert GROUP_M[2] == ("mi", 1, 10);
      } else if o == 11 {
        assert GROUP_M[3] == ("mu", 1, 11);
      } else if o == 12 {
        assert GROUP_N[0] == ("na", 1, 12);
      } else {
        assert GROUP_N[1] == ("ne", 1, 13);
      }
    }
  }

  lemma KaToPaFiledFrom14()
    ensures forall o :: 14 <= o < 20 ==> o < |KA_TO_PA| && Filed(KA_TO_PA[o], 1, o)
  {
    forall o | 14 <= o < 20 ensures Filed(KA_TO_PA[o], 1, o) {
      if o == 14 {
        assert GROUP_N[2] == ("ni", 1, 14);
      } else if o == 15 {
        assert GROUP_N[3] == ("nu", 1, 15);
      } else if o == 16 {
        assert GROUP_P[0] == ("pa", 1, 16);
      } else if o == 17 {
        assert GROUP_P[1] == ("pe", 1, 17);
      } else if o == 18 {
        assert GROUP_P[2] == ("pi", 1, 18);
      } else {
        assert GROUP_P[3] == ("pu", 1, 19);
      }
    }
  }

  lemma KaToPaFiled()
    ensures forall o :: 0 <= o < |KA_TO_PA| ==> Filed(KA_TO_PA[o], 1, o)
  {
    KaToPaFiledFrom0();
    KaToPaFiledFrom7();
    KaToPaFiledFrom14();
  }

  lemma RaToWaFiledFrom0()
    ensures forall o :: 0 <= o < 7 ==> o < |RA_TO_WA| && Filed(RA_TO_WA[o], 2, o)
  {
    forall o | 0 <= o < 7 ensures Filed(RA_TO_WA[o], 2, o) {
      if o == 0 {
        assert GROUP_R[0] == ("ra", 2, 0);
      } else if o == 1 {
        assert GROUP_R[1] == ("re", 2, 1);
      } else if o == 2 {
        assert GROUP_R[2] == ("ri", 2, 2);
      } else if o == 3 {
        assert GROUP_R[3] == ("ru", 2, 3);
      } else if o == 4 {
        assert GROUP_S1[0] == ("sa", 2, 4);
      } else if o == 5 {
        assert GROUP_S1[1] == ("se", 2, 5);
      } else {
        assert GROUP_S1[2] == ("si", 2, 6);
      }
    }
  }

  lemma RaToWaFiledFrom7()
    ensures forall o :: 7 <= o < 14 ==> o < |RA_TO_WA| && Filed(RA_TO_WA[o], 2, o)
  {
    forall o | 7 <= o < 14 ensures Filed(RA_TO_WA[o], 2, o) {
      if o == 7 {
        assert GROUP_S1[3] == ("su", 2, 7);
      } else if o == 8 {
        assert GROUP_S1[4] == ("sha", 2, 8);
      } else if o == 9 {
        assert GROUP_S1[5] == ("she", 2, 9);
      } else if o == 10 {
        assert GROUP_S1[6] == ("shi", 2, 10);
      } else if o == 11 {
        assert GROUP_S1[7] == ("shu", 2, 11);
      } else if o == 12 {
        assert GROUP_T1[0] == ("ta", 2, 12);
      } else {
        assert GROUP_T1[1] == ("te", 2, 13);
      }
    }
  }

  lemma RaToWaFiledFrom14()
    ensures forall o :: 14 <= o < 20 ==> o < |RA_TO_WA| && Filed(RA_TO_WA[o], 2, o)
  {
    forall o | 14 <= o < 20 ensures Filed(RA_TO_WA[o], 2, o) {
      if o == 14 {
        assert GROUP_T1[2] == ("ti", 2, 14);
      } else if o == 15 {
        assert GROUP_T1[3] == ("tu", 2, 15);
      } else if o == 16 {
        assert GROUP_W[0] == ("wa", 2, 16);
      } else if o == 17 {
        assert GROUP_W[1] == ("we", 2, 17);
      } else if o == 18 {
        assert GROUP_W[2] == ("wi", 2, 18);
      } else {
        assert GROUP_W[3] == ("wu", 2, 19);
      }
    }
  }

  lemma RaToWaFiled()
    ensures forall o :: 0 <= o < |RA_TO_WA| ==> Filed(RA_TO_WA[o], 2, o)
  {
    RaToWaFiledFrom0();
    RaToWaFiledFrom7();
    RaToWaFiledFrom14();
  }

  lemma ZaAndAClosedFiledFrom0()
    ensures forall o :: 0 <= o < 7 ==> o < |ZA_AND_A_CLOSED| && Filed(ZA_AND_A_CLOSED[o], 3, o)
  {
    forall o | 0 <= o < 7 ensures Filed(ZA_AND_A_CLOSED[o], 3, o) {
      if o == 0 {
        assert GROUP_Z[0] == ("za", 3, 0);
      } else if o == 1 {
        assert GROUP_Z[1] == ("ze", 3, 1);
      } else if o == 2 {
        assert GROUP_Z[2] == ("zi", 3, 2);
      } else if o == 3 {
        assert GROUP_Z[3] == ("zu", 3, 3);
      } else if o == 4 {
        assert GROUP_A1[1] == ("ab", 3, 4);
      } else if o == 5 {
        assert GROUP_A1[2] == ("ad", 3, 5);
      } else {
        assert GROUP_A1[3] == ("ag", 3, 6);
      }
    }
  }

  lemma ZaAndAClosedFiledFrom7()
    ensures forall o :: 7 <= o < 17 ==> o < |ZA_AND_A_CLOSED| && Filed(ZA_AND_A_CLOSED[o], 3, o)
  {
    forall o | 7 <= o < 17 ensures Filed(ZA_AND_A_CLOSED[o], 3, o) {
      if o == 7 {
        assert GROUP_A1[4] == ("ak", 3, 7);
      } else if o == 8 {
        assert GROUP_A1[5] == ("al", 3, 8);
      } else if o == 9 {
        assert GROUP_A1[6] == ("am", 3, 9);
      } else if o == 10 {
        assert GROUP_A1[7] == ("an", 3, 10);
      } else if o == 11 {
        assert GROUP_A1[8] == ("ap", 3, 11);
      } else if o == 12 {
        assert GROUP_A1[9] == ("ar", 3, 12);
      } else if o == 13 {
        assert GROUP_A1[10] == ("as", 3, 13);
      } else if o == 14 {
        assert GROUP_A2[0] == ("ash", 3, 14);
      } else if o == 15 {
        assert GROUP_A2[1] == ("at", 3, 15);
      } else {
        assert GROUP_A2[2] == ("az", 3, 16);
      }
    }
  }

  lemma ZaAndAClosedFiled()
    ensures forall o :: 0 <= o < |ZA_AND_A_CLOSED| ==> Filed(ZA_AND_A_CLOSED[o], 3, o)
  {
    ZaAndAClosedFiledFrom0();
    ZaAndAClosedFiledFrom7();
  }

  lemma EClosedFiled()
    ensures forall o :: 0 <= o < |E_CLOSED| ==> Filed(E_CLOSED[o], 4, o)
  {
    forall o | 0 <= o < |E_CLOSED| ensures Filed(E_CLOSED[o], 4, o) {
      if o == 0 {
        assert GROUP_E[1] == ("eb", 4, 0);
      } else if o == 1 {
        assert GROUP_E[2] == ("ed", 4, 1);
      } else if o == 2 {
        assert GROUP_E[3] == ("eg", 4, 2);
      } else if o == 3 {
        assert GROUP_E[4] == ("ek", 4, 3);
      } else if o == 4 {
        assert GROUP_E[5] == ("el", 4, 4);
      } else if o == 5 {
        assert GROUP_E[6] == ("em", 4, 5);
      } else if o == 6 {
        assert GROUP_E[7] == ("en", 4, 6);
      } else if o == 7 {
        assert GROUP_E[8] == ("er", 4, 7);
      } else if o == 8 {
        assert GROUP_E[9] == ("esh", 4, 8);
      } else {
        assert GROUP_E[10] == ("et", 4, 9);
      }
    }
  }

  lemma IClosedFiledFrom0()
    ensures forall o :: 0 <= o < 7 ==> o < |I_CLOSED| && Filed(I_CLOSED[o], 5, o)
  {
    forall o | 0 <= o < 7 ensures Filed(I_CLOSED[o], 5, o) {
      if o == 0 {
        assert GROUP_I[1] == ("ib", 5, 0);
      } else if o == 1 {
        assert GROUP_I[2] == ("id", 5, 1);
      } else if o == 2 {
        assert GROUP_I[3] == ("ig", 5, 2);
      } else if o == 3 {
        assert GROUP_I[4] == ("ik", 5, 3);
      } else if o == 4 {
        assert GROUP_I[5] == ("il", 5, 4);
      } else if o == 5 {
        assert GROUP_I[6] == ("im", 5, 5);
      } else {
        assert GROUP_I[7] == ("in", 5, 6);
      }
    }
  }

  lemma IClosedFiledFrom7()
    ensures forall o :: 7 <= o < 13 ==> o < |I_CLOSED| && Filed(I_CLOSED[o], 5, o)
  {
    forall o | 7 <= o < 13 ensures Filed(I_CLOSED[o], 5, o) {
      if o == 7 {
        assert GROUP_I[8] == ("ip", 5, 7);
      } else if o == 8 {
        assert GROUP_I[9] == ("ir", 5, 8);
      } else if o == 9 {
        assert GROUP_I[10] == ("is", 5, 9);
      } else if o == 10 {
        assert GROUP_I[11] == ("ish", 5, 10);
      } else if o == 11 {
        assert GROUP_I[12] == ("it", 5, 11);
      } else {
        assert GROUP_I[13] == ("iz", 5, 12);
      }
    }
  }

  lemma IClosedFiled()
    ensures forall o :: 0 <= o < |I_CLOSED| ==> Filed(I_CLOSED[o], 5, o)
  {
    IClosedFiledFrom0();
    IClosedFiledFrom7();
  }

  lemma UClosedAndBCvcFiledFrom0()
    ensures forall o :: 0 <= o < 7 ==> o < |U_CLOSED_AND_B_CVC| && Filed(U_CLOSED_AND_B_CVC[o], 6, o)
  {
    forall o | 0 <= o < 7 ensures Filed(U_CLOSED_AND_B_CVC[o], 6, o) {
      if o == 0 {
        assert GROUP_U[1] == ("ub", 6, 0);
      } else if o == 1 {
        assert GROUP_U[2] == ("ud", 6, 1);
      } else if o == 2 {
        assert GROUP_U[3] == ("ug", 6, 2);
      } else if o == 3 {
        assert GROUP_U[4] == ("uk", 6, 3);
      } else if o == 4 {
        assert GROUP_U[5] == ("ul", 6, 4);
      } else if o == 5 {
        assert GROUP_U[6] == ("um", 6, 5);
      } else {
        assert GROUP_U[7] == ("un", 6, 6);
      }
    }
  }

  lemma UClosedAndBCvcFiledFrom7()
    ensures forall o :: 7 <= o < 14 ==> o < |U_CLOSED_AND_B_CVC| && Filed(U_CLOSED_AND_B_CVC[o], 6, o)
  {
    forall o | 7 <= o < 14 ensures Filed(U_CLOSED_AND_B_CVC[o], 6, o) {
      if o == 7 {
        assert GROUP_U[8] == ("up", 6, 7);
      } else if o == 8 {
        assert GROUP_U[9] == ("ur", 6, 8);
      } else if o == 9 {
        assert GROUP_U[10] == ("us", 6, 9);
      } else if o == 10 {
        assert GROUP_U[11] == ("ush", 6, 10);
      } else if o == 11 {
        assert GROUP_U[12] == ("ut", 6, 11);
      } else if o == 12 {
        assert GROUP_U[13] == ("uz", 6, 12);
      } else {
        assert GROUP_B[4] == ("bad", 6, 13);
      }
    }
  }

  lemma UClosedAndBCvcFiledFrom14()
    ensures forall o :: 14 <= o < 18 ==> o < |U_CLOSED_AND_B_CVC| && Filed(U_CLOSED_AND_B_CVC[o], 6, o)
  {
    forall o | 14 <= o < 18 ensures Filed(U_CLOSED_AND_B_CVC[o], 6, o) {
      if o == 14 {
        assert GROUP_B[5] == ("bal", 6, 14);
      } else if o == 15 {
        assert GROUP_B[6] == ("ban", 6, 15);
      } else if o == 16 {
        assert GROUP_B[7] == ("bar", 6, 16);
      } else {
        assert GROUP_B[8] == ("bur", 6, 17);
      }
    }
  }

  lemma UClosedAndBCvcFiled()
    ensures forall o :: 0 <= o < |U_CLOSED_AND_B_CVC| ==> Filed(U_CLOSED_AND_B_CVC[o], 6, o)
  {
    UClosedAndBCvcFiledFrom0();
    UClosedAndBCvcFiledFrom7();
    UClosedAndBCvcFiledFrom14();
  }

  lemma DGCvcFiledFrom0()
    ensures forall o :: 0 <= o < 7 ==> o < |D_G_CVC| && Filed(D_G_CVC[o], 7, o)
  {
    forall o | 0 <= o < 7 ensures Filed(D_G_CVC[o], 7, o) {
      if o == 0 {
        assert GROUP_D[4] == ("dag", 7, 0);
      } else if o == 1 {
        assert GROUP_D[5] == ("dal", 7, 1);
      } else if o == 2 {
        assert GROUP_D[6] == ("dam", 7, 2);
      } else if o == 3 {
        assert GROUP_D[7] == ("dar", 7, 3);
      } else if o == 4 {
        assert GROUP_D[8] == ("dim", 7, 4);
      } else if o == 5 {
        assert GROUP_D[9] == ("din", 7, 5);
      } else {
        assert GROUP_D[10] == ("dub", 7, 6);
      }
    }
  }

  lemma DGCvcFiledFrom7()
    ensures forall o :: 7 <= o < 14 ==> o < |D_G_CVC| && Filed(D_G_CVC[o], 7, o)
  {
    forall o | 7 <= o < 14 ensures Filed(D_G_CVC[o], 7, o) {
      if o == 7 {
        assert GROUP_D[11] == ("dug", 7, 7);
      } else if o == 8 {
        assert GROUP_D[12] == ("dul", 7, 8);
      } else if o == 9 {
        assert GROUP_D[13] == ("dur", 7, 9);
      } else if o == 10 {
        assert GROUP_G1[4] == ("gal", 7, 10);
      } else if o == 11 {
        assert GROUP_G1[5] == ("gam", 7, 11);
      } else if o == 12 {
        assert GROUP_G1[6] == ("gan", 7, 12);
      } else {
        assert GROUP_G1[7] == ("gar", 7, 13);
      }
    }
  }

  lemma DGCvcFiledFrom14()
    ensures forall o :: 14 <= o < 19 ==> o < |D_G_CVC| && Filed(D_G_CVC[o], 7, o)
  {
    forall o | 14 <= o < 19 ensures Filed(D_G_CVC[o], 7, o) {
      if o == 14 {
        assert GROUP_G1[8] == ("gig", 7, 14);
      } else if o == 15 {
        assert GROUP_G2[0] == ("gir", 7, 15);
      } else if o == 16 {
        assert GROUP_G2[1] == ("gish", 7, 16);
      } else if o == 17 {
        assert GROUP_G2[2] == ("gul", 7, 17);
      } else {
        assert GROUP_G2[3] == ("gur", 7, 18);
      }
    }
  }

  lemma DGCvcFiled()
    ensures forall o :: 0 <= o < |D_G_CVC| ==> Filed(D_G_CVC[o], 7, o)
  {
    DGCvcFiledFrom0();
    DGCvcFiledFrom7();
    DGCvcFiledFrom14();
  }

  lemma HKLCvcFiledFrom0()
    ensures forall o :: 0 <= o < 7 ==> o < |H_K_L_CVC| && Filed(H_K_L_CVC[o], 8, o)
  {
    forall o | 0 <= o < 7 ensures Filed(H_K_L_CVC[o], 8, o) {
      if o == 0 {
        assert GROUP_H[4] == ("hal", 8, 0);
      } else if o == 1 {
        assert GROUP_H[5] == ("har", 8, 1);
      } else if o == 2 {
        assert GROUP_H[6] == ("hul", 8, 2);
      } else if o == 3 {
        assert GROUP_H[7] == ("hur", 8, 3);
      } else if o == 4 {
        assert GROUP_K[4] == ("kal", 8, 4);
      } else if o == 5 {
        assert GROUP_K[5] == ("kam", 8, 5);
      } else {
        assert GROUP_K[6] == ("kar", 8, 6);
      }
    }
  }

  lemma HKLCvcFiledFrom7()
    ensures forall o :: 7 <= o < 14 ==> o < |H_K_L_CVC| && Filed(H_K_L_CVC[o], 8, o)
  {
    forall o | 7 <= o < 14 ensures Filed(H_K_L_CVC[o], 8, o) {
      if o == 7 {
        assert GROUP_K[7] == ("kesh", 8, 7);
      } else if o == 8 {
        assert GROUP_K[8] == ("kir", 8, 8);
      } else if o == 9 {
        assert GROUP_K[9] == ("kur", 8, 9);
      } else if o == 10 {
        assert GROUP_L[4] == ("lal", 8, 10);
      } else if o == 11 {
        assert GROUP_L[5] == ("lam", 8, 11);
      } else if o == 12 {
        assert GROUP_L[6] == ("lil", 8, 12);
      } else {
        assert GROUP_L[7] == ("lum", 8, 13);
      }
    }
  }

  lemma HKLCvcFiled()
    ensures forall o :: 0 <= o < |H_K_L_CVC| ==> Filed(H_K_L_CVC[o], 8, o)
  {
    HKLCvcFiledFrom0();
    HKLCvcFiledFrom7();
  }

  lemma MNPCvcFiledFrom0()
    ensures forall o :: 0 <= o < 7 ==> o < |M_N_P_CVC| && Filed(M_N_P_CVC[o], 9, o)
  {
    forall o | 0 <= o < 7 ensures Filed(M_N_P_CVC[o], 9, o) {
      if o == 0 {
        assert GROUP_M[4] == ("mal", 9, 0);
      } else if o == 1 {
        assert GROUP_M[5] == ("man", 9, 1);
      } else if o == 2 {
        assert GROUP_M[6] == ("mar", 9, 2);
      } else if o == 3 {
        assert GROUP_M[7] == ("mas", 9, 3);
      } else if o == 4 {
        assert GROUP_M[8] == ("mash", 9, 4);
      } else if o == 5 {
        assert GROUP_M[9] == ("mul", 9, 5);
      } else {
        assert GROUP_M[10] == ("mur", 9, 6);
      }
    }
  }

  lemma MNPCvcFiledFrom7()
    ensures forall o :: 7 <= o < 17 ==> o < |M_N_P_CVC| && Filed(M_N_P_CVC[o], 9, o)
  {
    forall o | 7 <= o < 17 ensures Filed(M_N_P_CVC[o], 9, o) {
      if o == 7 {
        assert GROUP_M[11] == ("mush", 9, 7);
      } else if o == 8 {
        assert GROUP_N[4] == ("nal", 9, 8);
      } else if o == 9 {
        assert GROUP_N[5] == ("nam", 9, 9);
      } else if o == 10 {
        assert GROUP_N[6] == ("nar", 9, 10);
      } else if o == 11 {
        assert GROUP_N[7] == ("nig", 9, 11);
      } else if o == 12 {
        assert GROUP_N[8] == ("nim", 9, 12);
      } else if o == 13 {
        assert GROUP_N[9] == ("nin", 9, 13);
      } else if o == 14 {
        assert GROUP_N[10] == ("nir", 9, 14);
      } else if o == 15 {
        assert GROUP_N[11] == ("nun", 9, 15);
      } else {
        assert GROUP_P[4] == ("pir", 9, 16);
      }
    }
  }

  lemma MNPCvcFiled()
    ensures forall o :: 0 <= o < |M_N_P_CVC| ==> Filed(M_N_P_CVC[o], 9, o)
  {
    MNPCvcFiledFrom0();
    MNPCvcFiledFrom7();
  }

  lemma STCvcFiledFrom0()
    ensures forall o :: 0 <= o < 7 ==> o < |S_T_CVC| && Filed(S_T_CVC[o], 10, o)
  {
    forall o | 0 <= o < 7 ensures Filed(S_T_CVC[o], 10, o) {
      if o == 0 {
        assert GROUP_S1[8] == ("sar", 10, 0);
      } else if o == 1 {
        assert GROUP_S1[9] == ("shar", 10, 1);
      } else if o == 2 {
        assert GROUP_S1[10] == ("shir", 10, 2);
      } else if o == 3 {
        assert GROUP_S1[11] == ("shum", 10, 3);
      } else if o == 4 {
        assert GROUP_S1[12] == ("shur", 10, 4);
      } else if o == 5 {
        assert GROUP_S2[0] == ("sig", 10, 5);
      } else {
        assert GROUP_S2[1] == ("sim", 10, 6);
      }
    }
  }

  lemma STCvcFiledFrom7()
    ensures forall o :: 7 <= o < 14 ==> o < |S_T_CVC| && Filed(S_T_CVC[o], 10, o)
  {
    forall o | 7 <= o < 14 ensures Filed(S_T_CVC[o], 10, o) {
      if o == 7 {
        assert GROUP_S2[2] == ("sir", 10, 7);
      } else if o == 8 {
        assert GROUP_S2[3] == ("sur", 10, 8);
      } else if o == 9 {
        assert GROUP_T1[4] == ("tab", 10, 9);
      } else if o == 10 {
        assert GROUP_T1[5] == ("tag", 10, 10);
      } else if o == 11 {
        assert GROUP_T1[6] == ("tak", 10, 11);
      } else if o == 12 {
        assert GROUP_T1[7] == ("tal", 10, 12);
      } else {
        assert GROUP_T1[8] == ("tam", 10, 13);
      }
    }
  }

  lemma STCvcFiledFrom14()
    ensures forall o :: 14 <= o < 20 ==> o < |S_T_CVC| && Filed(S_T_CVC[o], 10, o)
  {
    forall o | 14 <= o < 20 ensures Filed(S_T_CVC[o], 10, o) {
      if o == 14 {
        assert GROUP_T1[9] == ("tar", 10, 14);
      } else if o == 15 {
        assert GROUP_T1[10] == ("tesh", 10, 15);
      } else if o == 16 {
        assert GROUP_T2[0] == ("til", 10, 16);
      } else if o == 17 {
        assert GROUP_T2[1] == ("tir", 10, 17);
      } else if o == 18 {
        assert GROUP_T2[2] == ("tum", 10, 18);
      } else {
        assert GROUP_T2[3] == ("tur", 10, 19);
      }
    }
  }

  lemma STCvcFiled()
    ensures forall o :: 0 <= o < |S_T_CVC| ==> Filed(S_T_CVC[o], 10, o)
  {
    STCvcFiledFrom0();
    STCvcFiledFrom7();
    STCvcFiledFrom14();
  }

  lemma ZCvcAndDiphthongsFiledFrom0()
    ensures forall o :: 0 <= o < 7 ==> o < |Z_CVC_AND_DIPHTHONGS| && Filed(Z_CVC_AND_DIPHTHONGS[o], 11, o)
  {
    forall o | 0 <= o < 7 ensures Filed(Z_CVC_AND_DIPHTHONGS[o], 11, o) {
      if o == 0 {
        assert GROUP_Z[4] == ("zal", 11, 0);
      } else if o == 1 {
        assert GROUP_Z[5] == ("zig", 11, 1);
      } else if o == 2 {
        assert GROUP_A2[3] == ("aa", 11, 2);
      } else if o == 3 {
        assert GROUP_E[11] == ("ee", 11, 3);
      } else if o == 4 {
        assert GROUP_O1[0] == ("oo", 11, 4);
      } else if o == 5 {
        assert GROUP_A2[4] == ("ai", 11, 5);
      } else {
        assert GROUP_A2[5] == ("ay", 11, 6);
      }
    }
  }

  lemma ZCvcAndDiphthongsFiledFrom7()
    ensures forall o :: 7 <= o < 14 ==> o < |Z_CVC_AND_DIPHTHONGS| && Filed(Z_CVC_AND_DIPHTHONGS[o], 11, o)
  {
    forall o | 7 <= o < 14 ensures Filed(Z_CVC_AND_DIPHTHONGS[o], 11, o) {
      if o == 7 {
        assert GROUP_A2[6] == ("au", 11, 7);
      } else if o == 8 {
        assert GROUP_A2[7] == ("aw", 11, 8);
      } else if o == 9 {
        assert GROUP_E[12] == ("ea", 11, 9);
      } else if o == 10 {
        assert GROUP_I[14] == ("ia", 11, 10);
      } else if o == 11 {
        assert GROUP_I[15] == ("ie", 11, 11);
      } else if o == 12 {
        assert GROUP_I[16] == ("io", 11, 12);
      } else {
        assert GROUP_I[17] == ("iu", 11, 13);
      }
    }
  }

  lemma ZCvcAndDiphthongsFiledFrom14()
    ensures forall o :: 14 <= o < 20 ==> o < |Z_CVC_AND_DIPHTHONGS| && Filed(Z_CVC_AND_DIPHTHONGS[o], 11, o)
  {
    forall o | 14 <= o < 20 ensures Filed(Z_CVC_AND_DIPHTHONGS[o], 11, o) {
      if o == 14 {
        assert GROUP_O1[1] == ("oi", 11, 14);
      } else if o == 15 {
        assert GROUP_O1[2] == ("ou", 11, 15);
      } else if o == 16 {
        assert GROUP_O1[3] == ("ow", 11, 16);
      } else if o == 17 {
        assert GROUP_U[14] == ("ua", 11, 17);
      } else if o == 18 {
        assert GROUP_U[15] == ("ue", 11, 18);
      } else {
        assert GROUP_U[16] == ("ui", 11, 19);
      }
    }
  }

  lemma ZCvcAndDiphthongsFiled()
    ensures forall o :: 0 <= o < |Z_CVC_AND_DIPHTHONGS| ==> Filed(Z_CVC_AND_DIPHTHONGS[o], 11, o)
  {
    ZCvcAndDiphthongsFiledFrom0();
    ZCvcAndDiphthongsFiledFrom7();
    ZCvcAndDiphthongsFiledFrom14();
  }

  lemma OSyllablesFiledFrom0()
    ensures forall o :: 0 <= o < 7 ==> o < |O_SYLLABLES| && Filed(O_SYLLABLES[o], 12, o)
  {
    forall o | 0 <= o < 7 ensures Filed(O_SYLLABLES[o], 12, o) {
      if o == 0 {
        assert GROUP_B[9] == ("bo", 12, 0);
      } else if o == 1 {
        assert GROUP_C[0] == ("co", 12, 1);
      } else if o == 2 {
        assert GROUP_D[14] == ("do", 12, 2);
      } else if o == 3 {
        assert GROUP_F[0] == ("fo", 12, 3);
      } else if o == 4 {
        assert GROUP_G2[4] == ("go", 12, 4);
      } else if o == 5 {
        assert GROUP_H[8] == ("ho", 12, 5);
      } else {
        assert GROUP_J[0] == ("jo", 12, 6);
      }
    }
  }

  lemma OSyllablesFiledFrom7()
    ensures forall o :: 7 <= o < 17 ==> o < |O_SYLLABLES| && Filed(O_SYLLABLES[o], 12, o)
  {
    forall o | 7 <= o < 17 ensures Filed(O_SYLLABLES[o], 12, o) {
      if o == 7 {
        assert GROUP_K[10] == ("ko", 12, 7);
      } else if o == 8 {
        assert GROUP_L[8] == ("lo", 12, 8);
      } else if o == 9 {
        assert GROUP_M[12] == ("mo", 12, 9);
      } else if o == 10 {
        assert GROUP_N[12] == ("no", 12, 10);
      } else if o == 11 {
        assert GROUP_P[5] == ("po", 12, 11);
      } else if o == 12 {
        assert GROUP_R[4] == ("ro", 12, 12);
      } else if o == 13 {
        assert GROUP_S2[4] == ("so", 12, 13);
      } else if o == 14 {
        assert GROUP_T2[4] == ("to", 12, 14);
      } else if o == 15 {
        assert GROUP_W[4] == ("wo", 12, 15);
      } else {
        assert GROUP_Y[0] == ("yo", 12, 16);
      }
    }
  }

  lemma OSyllablesFiled()
    ensures forall o :: 0 <= o < |O_SYLLABLES| ==> Filed(O_SYLLABLES[o], 12, o)
  {
    OSyllablesFiledFrom0();
    OSyllablesFiledFrom7();
  }

  lemma OClosedAndYFiledFrom0()
    ensures forall o :: 0 <= o < 7 ==> o < |O_CLOSED_AND_Y| && Filed(O_CLOSED_AND_Y[o], 13, o)
  {
    forall o | 0 <= o < 7 ensures Filed(O_CLOSED_AND_Y[o], 13, o) {
      if o == 0 {
        assert GROUP_O1[4] == ("ob", 13, 0);
      } else if o == 1 {
        assert GROUP_O1[5] == ("od", 13, 1);
      } else if o == 2 {
        assert GROUP_O1[6] == ("og", 13, 2);
      } else if o == 3 {
        assert GROUP_O1[7] == ("ok", 13, 3);
      } else if o == 4 {
        assert GROUP_O1[8] == ("ol", 13, 4);
      } else if o == 5 {
        assert GROUP_O2[0] == ("om", 13, 5);
      } else {
        assert GROUP_O2[1] == ("on", 13, 6);
      }
    }
  }

  lemma OClosedAndYFiledFrom7()
    ensures forall o :: 7 <= o < 15 ==> o < |O_CLOSED_AND_Y| && Filed(O_CLOSED_AND_Y[o], 13, o)
  {
    forall o | 7 <= o < 15 ensures Filed(O_CLOSED_AND_Y[o], 13, o) {
      if o == 7 {
        assert GROUP_O2[2] == ("op", 13, 7);
      } else if o == 8 {
        assert GROUP_O2[3] == ("or", 13, 8);
      } else if o == 9 {
        assert GROUP_O2[4] == ("os", 13, 9);
      } else if o == 10 {
        assert GROUP_O2[5] == ("ot", 13, 10);
      } else if o == 11 {
        assert GROUP_Y[1] == ("ya", 13, 11);
      } else if o == 12 {
        assert GROUP_Y[2] == ("ye", 13, 12);
      } else if o == 13 {
        assert GROUP_Y[3] == ("yi", 13, 13);
      } else {
        assert GROUP_Y[4] == ("yu", 13, 14);
      }
    }
  }

  lemma OClosedAndYFiled()
    ensures forall o :: 0 <= o < |O_CLOSED_AND_Y| ==> Filed(O_CLOSED_AND_Y[o], 13, o)
  {
    OClosedAndYFiledFrom0();
    OClosedAndYFiledFrom7();
  }

  lemma NameEndingsFiledFrom0()
    ensures forall o :: 0 <= o < 7 ==> o < |NAME_ENDINGS| && Filed(NAME_ENDINGS[o], 14, o)
  {
    forall o | 0 <= o < 7 ensures Filed(NAME_ENDINGS[o], 14, o) {
      if o == 0 {
        assert GROUP_L[9] == ("ly", 14, 0);
      } else if o == 1 {
        assert GROUP_R[5] == ("ry", 14, 1);
      } else if o == 2 {
        assert GROUP_N[13] == ("ny", 14, 2);
      } else if o == 3 {
        assert GROUP_T2[5] == ("ty", 14, 3);
      } else if o == 4 {
        assert GROUP_D[15] == ("dy", 14, 4);
      } else if o == 5 {
        assert GROUP_E[13] == ("ey", 14, 5);
      } else {
        assert GROUP_G2[5] == ("gy", 14, 6);
      }
    }
  }

  lemma NameEndingsFiledFrom7()
    ensures forall o :: 7 <= o < 13 ==> o < |NAME_ENDINGS| && Filed(NAME_ENDINGS[o], 14, o)
  {
    forall o | 7 <= o < 13 ensures Filed(NAME_ENDINGS[o], 14, o) {
      if o == 7 {
        assert GROUP_K[11] == ("ky", 14, 7);
      } else if o == 8 {
        assert GROUP_M[13] == ("my", 14, 8);
      } else if o == 9 {
        assert GROUP_P[6] == ("py", 14, 9);
      } else if o == 10 {
        assert GROUP_S2[5] == ("sy", 14, 10);
      } else if o == 11 {
        assert GROUP_V[0] == ("vy", 14, 11);
      } else {
        assert GROUP_Z[6] == ("zy", 14, 12);
      }
    }
  }

  lemma NameEndingsFiled()
    ensures forall o :: 0 <= o < |NAME_ENDINGS| ==> Filed(NAME_ENDINGS[o], 14, o)
  {
    NameEndingsFiledFrom0();
    NameEndingsFiledFrom7();
  }

  lemma SingleConsonantsFiledFrom0()
    ensures forall o :: 0 <= o < 7 ==> o < |SINGLE_CONSONANTS| && Filed(SINGLE_CONSONANTS[o], 15, o)
  {
    forall o | 0 <= o < 7 ensures Filed(SINGLE_CONSONANTS[o], 15, o) {
      if o == 0 {
        assert GROUP_B[10] == ("b", 15, 0);
      } else if o == 1 {
        assert GROUP_C[1] == ("c", 15, 1);
      } else if o == 2 {
        assert GROUP_D[16] == ("d", 15, 2);
      } else if o == 3 {
        assert GROUP_F[1] == ("f", 15, 3);
      } else if o == 4 {
        assert GROUP_G2[6] == ("g", 15, 4);
      } else if o == 5 {
        assert GROUP_H[9] == ("h", 15, 5);
      } else {
        assert GROUP_J[1] == ("j", 15, 6);
      }
    }
  }

  lemma SingleConsonantsFiledFrom7()
    ensures forall o :: 7 <= o < 14 ==> o < |SINGLE_CONSONANTS| && Filed(SINGLE_CONSONANTS[o], 15, o)
  {
    forall o | 7 <= o < 14 ensures Filed(SINGLE_CONSONANTS[o], 15, o) {
      if o == 7 {
        assert GROUP_K[12] == ("k", 15, 7);
      } else if o == 8 {
        assert GROUP_L[10] == ("l", 15, 8);
      } else if o == 9 {
        assert GROUP_M[14] == ("m", 15, 9);
      } else if o == 10 {
        assert GROUP_N[14] == ("n", 15, 10);
      } else if o == 11 {
        assert GROUP_P[7] == ("p", 15, 11);
      } else if o == 12 {
        assert GROUP_Q[0] == ("q", 15, 12);
      } else {
        assert GROUP_R[6] == ("r", 15, 13);
      }
    }
  }

  lemma SingleConsonantsFiledFrom14()
    ensures forall o :: 14 <= o < 21 ==> o < |SINGLE_CONSONANTS| && Filed(SINGLE_CONSONANTS[o], 15, o)
  {
    forall o | 14 <= o < 21 ensures Filed(SINGLE_CONSONANTS[o], 15, o) {
      if o == 14 {
        assert GROUP_S2[6] == ("s", 15, 14);
      } else if o == 15 {
        assert GROUP_T2[6] == ("t", 15, 15);
      } else if o == 16 {
        assert GROUP_V[1] == ("v", 15, 16);
      } else if o == 17 {
        assert GROUP_W[5] == ("w", 15, 17);
      } else if o == 18 {
        assert GROUP_X[0] == ("x", 15, 18);
      } else if o == 19 {
        assert GROUP_Y[5] == ("y", 15, 19);
      } else {
        assert GROUP_Z[7] == ("z", 15, 20);
      }
    }
  }

  lemma SingleConsonantsFiled()
    ensures forall o :: 0 <= o < |SINGLE_CONSONANTS| ==> Filed(SINGLE_CONSONANTS[o], 15, o)
  {
    SingleConsonantsFiledFrom0();
    SingleConsonantsFiledFrom7();
    SingleConsonantsFiledFrom14();
  }

  lemma ClustersFiledFrom0()
    ensures forall o :: 0 <= o < 7 ==> o < |CLUSTERS| && Filed(CLUSTERS[o], 16, o)
  {
    forall o | 0 <= o < 7 ensures Filed(CLUSTERS[o], 16, o) {
      if o == 0 {
        assert GROUP_C[2] == ("ch", 16, 0);
      } else if o == 1 {
        assert GROUP_C[3] == ("ck", 16, 1);
      } else if o == 2 {
        assert GROUP_G2[7] == ("gh", 16, 2);
      } else if o == 3 {
        assert GROUP_N[15] == ("ng", 16, 3);
      } else if o == 4 {
        assert GROUP_N[16] == ("nk", 16, 4);
      } else if o == 5 {
        assert GROUP_P[8] == ("ph", 16, 5);
      } else {
        assert GROUP_S2[7] == ("sc", 16, 6);
      }
    }
  }

  lemma ClustersFiledFrom7()
    ensures forall o :: 7 <= o < 13 ==> o < |CLUSTERS| && Filed(CLUSTERS[o], 16, o)
  {
    forall o | 7 <= o < 13 ensures Filed(CLUSTERS[o], 16, o) {
      if o == 7 {
        assert GROUP_S2[8] == ("sh", 16, 7);
      } else if o == 8 {
        assert GROUP_S2[9] == ("sk", 16, 8);
      } else if o == 9 {
        assert GROUP_S2[10] == ("sp", 16, 9);
      } else if o == 10 {
        assert GROUP_S2[11] == ("st", 16, 10);
      } else if o == 11 {
        assert GROUP_T2[7] == ("th", 16, 11);
      } else {
        assert GROUP_W[6] == ("wh", 16, 12);
      }
    }
  }

  lemma ClustersFiled()
    ensures forall o :: 0 <= o < |CLUSTERS| ==> Filed(CLUSTERS[o], 16, o)
  {
    ClustersFiledFrom0();
    ClustersFiledFrom7();
  }

  lemma ErLeSyllablesFiledFrom0()
    ensures forall o :: 0 <= o < 7 ==> o < |ER_LE_SYLLABLES| && Filed(ER_LE_SYLLABLES[o], 17, o)
  {
    forall o | 0 <= o < 7 ensures Filed(ER_LE_SYLLABLES[o], 17, o) {
      if o == 0 {
        assert GROUP_B[11] == ("ber", 17, 0);
      } else if o == 1 {
        assert GROUP_D[17] == ("der", 17, 1);
      } else if o == 2 {
        assert GROUP_F[2] == ("fer", 17, 2);
      } else if o == 3 {
        assert GROUP_G2[8] == ("ger", 17, 3);
      } else if o == 4 {
        assert GROUP_H[10] == ("her", 17, 4);
      } else if o == 5 {
        assert GROUP_K[13] == ("ker", 17, 5);
      } else {
        assert GROUP_L[11] == ("ler", 17, 6);
      }
    }
  }

  lemma ErLeSyllablesFiledFrom7()
    ensures forall o :: 7 <= o < 14 ==> o < |ER_LE_SYLLABLES| && Filed(ER_LE_SYLLABLES[o], 17, o)
  {
    forall o | 7 <= o < 14 ensures Filed(ER_LE_SYLLABLES[o], 17, o) {
      if o == 7 {
        assert GROUP_M[15] == ("mer", 17, 7);
      } else if o == 8 {
        assert GROUP_N[17] == ("ner", 17, 8);
      } else if o == 9 {
        assert GROUP_P[9] == ("per", 17, 9);
      } else if o == 10 {
        assert GROUP_S2[12] == ("ser", 17, 10);
      } else if o == 11 {
        assert GROUP_T2[8] == ("ter", 17, 11);
      } else if o == 12 {
        assert GROUP_V[2] == ("ver", 17, 12);
      } else {
        assert GROUP_B[12] == ("ble", 17, 13);
      }
    }
  }

  lemma ErLeSyllablesFiledFrom14()
    ensures forall o :: 14 <= o < 21 ==> o < |ER_LE_SYLLABLES| && Filed(ER_LE_SYLLABLES[o], 17, o)
  {
    forall o | 14 <= o < 21 ensures Filed(ER_LE_SYLLABLES[o], 17, o) {
      if o == 14 {
        assert GROUP_C[4] == ("cle", 17, 14);
      } else if o == 15 {
        assert GROUP_D[18] == ("dle", 17, 15);
      } else if o == 16 {
        assert GROUP_F[3] == ("fle", 17, 16);
      } else if o == 17 {
        assert GROUP_G2[9] == ("gle", 17, 17);
      } else if o == 18 {
        assert GROUP_P[10] == ("ple", 17, 18);
      } else if o == 19 {
        assert GROUP_T2[9] == ("tle", 17, 19);
      } else {
        assert GROUP_Z[8] == ("zle", 17, 20);
      }
    }
  }

  lemma ErLeSyllablesFiled()
    ensures forall o :: 0 <= o < |ER_LE_SYLLABLES| ==> Filed(ER_LE_SYLLABLES[o], 17, o)
  {
    ErLeSyllablesFiledFrom0();
    ErLeSyllablesFiledFrom7();
    ErLeSyllablesFiledFrom14();
  }

  lemma WordEndingsFiledFrom0()
    ensures forall o :: 0 <= o < 7 ==> o < |WORD_ENDINGS| && Filed(WORD_ENDINGS[o], 18, o)
  {
    forall o | 0 <= o < 7 ensures Filed(WORD_ENDINGS[o], 18, o) {
      if o == 0 {
        assert GROUP_I[18] == ("ing", 18, 0);
      } else if o == 1 {
        assert GROUP_U[17] == ("ung", 18, 1);
      } else if o == 2 {
        assert GROUP_A2[8] == ("ang", 18, 2);
      } else if o == 3 {
        assert GROUP_O2[6] == ("ong", 18, 3);
      } else if o == 4 {
        assert GROUP_A2[9] == ("ant", 18, 4);
      } else if o == 5 {
        assert GROUP_E[14] == ("ent", 18, 5);
      } else {
        assert GROUP_I[19] == ("int", 18, 6);
      }
    }
  }

  lemma WordEndingsFiledFrom7()
    ensures forall o :: 7 <= o < 17 ==> o < |WORD_ENDINGS| && Filed(WORD_ENDINGS[o], 18, o)
  {
    forall o | 7 <= o < 17 ensures Filed(WORD_ENDINGS[o], 18, o) {
      if o == 7 {
        assert GROUP_U[18] == ("unt", 18, 7);
      } else if o == 8 {
        assert GROUP_A2[10] == ("ard", 18, 8);
      } else if o == 9 {
        assert GROUP_O2[7] == ("ord", 18, 9);
      } else if o == 10 {
        assert GROUP_E[15] == ("ess", 18, 10);
      } else if o == 11 {
        assert GROUP_N[18] == ("ness", 18, 11);
      } else if o == 12 {
        assert GROUP_L[12] == ("less", 18, 12);
      } else if o == 13 {
        assert GROUP_F[4] == ("ful", 18, 13);
      } else if o == 14 {
        assert GROUP_O2[8] == ("ous", 18, 14);
      } else if o == 15 {
        assert GROUP_T2[10] == ("tion", 18, 15);
      } else {
        assert GROUP_S2[13] == ("sion", 18, 16);
      }
    }
  }

  lemma WordEndingsFiled()
    ensures forall o :: 0 <= o < |WORD_ENDINGS| ==> Filed(WORD_ENDINGS[o], 18, o)
  {
    WordEndingsFiledFrom0();
    WordEndingsFiledFrom7();
  }

  lemma EarlySectionsFiled(j: nat)
    requires j < 7
    ensures forall o :: 0 <= o < |SECTIONS[j]| ==> Filed(SECTIONS[j][o], j, o)
  {
    if j == 0 {
      VowelsToHaFiled();
    } else if j == 1 {
      KaToPaFiled();
    } else if j == 2 {
      RaToWaFiled();
    } else if j == 3 {
      ZaAndAClosedFiled();
    } else if j == 4 {
      EClosedFiled();
    } else if j == 5 {
      IClosedFiled();
    } else {
      UClosedAndBCvcFiled();
    }
  }

  lemma MiddleSectionsFiled(j: nat)
    requires 7 <= j < 13
    ensures forall o :: 0 <= o < |SECTIONS[j]| ==> Filed(SECTIONS[j][o], j, o)
  {
    if j == 7 {
      DGCvcFiled();
    } else if j == 8 {
      HKLCvcFiled();
    } else if j == 9 {
      MNPCvcFiled();
    } else if j == 10 {
      STCvcFiled();
    } else if j == 11 {
      ZCvcAndDiphthongsFiled();
    } else {
      OSyllablesFiled();
    }
  }

  lemma LateSectionsFiled(j: nat)
    requires 13 <= j < |SECTIONS|
    ensures forall o :: 0 <= o < |SECTIONS[j]| ==> Filed(SECTIONS[j][o], j, o)
  {
    if j == 13 {
      OClosedAndYFiled();
    } else if j == 14 {
      NameEndingsFiled();
    } else if j == 15 {
      SingleConsonantsFiled();
    } else if j == 16 {
      ClustersFiled();
    } else if j == 17 {
      ErLeSyllablesFiled();
    } else {
      WordEndingsFiled();
    }
  }

  /** Every row of every section is filed. */
  lemma RowFiled(j: nat, o: nat)
    requires j < |SECTIONS| && o < |SECTIONS[j]|
    ensures Filed(SECTIONS[j][o], j, o)
  {
    if j < 7 {
      EarlySectionsFiled(j);
    } else if j < 13 {
      MiddleSectionsFiled(j);
    } else {
      LateSectionsFiled(j);
    }
  }

  /** Row `i` of the table is row `o` of section `j`, and it is filed there. */
  lemma LocateRow(i: nat) returns (j: nat, o: nat)
    requires i < |SYLLABLE_MAPPINGS|
    ensures j < |SECTIONS| && o < |SECTIONS[j]| && i == |Flatten(SECTIONS[..j])| + o
    ensures SYLLABLE_MAPPINGS[i] == SECTIONS[j][o] && Filed(SECTIONS[j][o], j, o)
  {
    FlattenLocate(SECTIONS, i);
    j :| 0 <= j < |SECTIONS| && |Flatten(SECTIONS[..j])| <= i < |Flatten(SECTIONS[..j])| + |SECTIONS[j]|;
    o := i - |Flatten(SECTIONS[..j])|;
    FlattenAt(SECTIONS, j, o);
    RowFiled(j, o);
  }

  /** Two filed rows with the same key were filed as one entry: they are the same row. */
  lemma SameKeySameRow(m1: SyllableMapping, j1: nat, o1: nat, m2: SyllableMapping, j2: nat, o2: nat)
    requires Filed(m1, j1, o1) && Filed(m2, j2, o2)
    ensures m1.syllable == m2.syllable ==> j1 == j2 && o1 == o2
  {
    if m1.syllable == m2.syllable {
      var group := GroupOf(m1.syllable[0]);
      GroupDistinct(m1.syllable[0]);
      var k1 :| 0 <= k1 < |group| && group[k1] == (m1.syllable, j1, o1);
      var k2 :| 0 <= k2 < |group| && group[k2] == (m2.syllable, j2, o2);
    }
  }

  /** Two different rows of the table have different keys. */
  lemma RowKeysDiffer(i1: nat, i2: nat)
    requires i1 < i2 < |SYLLABLE_MAPPINGS|
    ensures SYLLABLE_MAPPINGS[i1].syllable != SYLLABLE_MAPPINGS[i2].syllable
  {
    var j1, o1 := LocateRow(i1);
    var j2, o2 := LocateRow(i2);
    SameKeySameRow(SECTIONS[j1][o1], j1, o1, SECTIONS[j2][o2], j2, o2);
  }

  /** No key names two rows of the table. */
  lemma KeysDistinct()
    ensures forall i1, i2 :: 0 <= i1 < i2 < |SYLLABLE_MAPPINGS| ==>
              SYLLABLE_MAPPINGS[i1].syllable != SYLLABLE_MAPPINGS[i2].syllable
  {
    forall i1, i2 | 0 <= i1 < i2 < |SYLLABLE_MAPPINGS|
      ensures SYLLABLE_MAPPINGS[i1].syllable != SYLLABLE_MAPPINGS[i2].syllable
    {
      RowKeysDiffer(i1, i2);
    }
  }

  /** The table's key list has no repetitions. */
  lemma KeyListDistinct()
    ensures Collections.Distinct(Keys(SYLLABLE_MAPPINGS))
  {
    KeysDistinct();
  }

  /**
   * Building the `Map` from the table loses no row: every row is the value
   * stored under its own key.
   */
  lemma MapKeepsEveryRow()
    ensures forall i :: 0 <= i < |SYLLABLE_MAPPINGS| ==>
              SYLLABLE_MAPPINGS[i].syllable in SYLLABLE_MAP
              && SYLLABLE_MAP[SYLLABLE_MAPPINGS[i].syllable] == SYLLABLE_MAPPINGS[i]
  {
    KeysDistinct();
    forall i | 0 <= i < |SYLLABLE_MAPPINGS|
      ensures SYLLABLE_MAPPINGS[i].syllable in SYLLABLE_MAP
      ensures SYLLABLE_MAP[SYLLABLE_MAPPINGS[i].syllable] == SYLLABLE_MAPPINGS[i]
    {
      BuildMapSpec(SYLLABLE_MAPPINGS, SYLLABLE_MAPPINGS[i].syllable);
    }
  }

  /** `getSignForSyllable` finds THE row keyed by the lower-cased syllable. */
  lemma LookupFindsTheRow(syllable: string, i: nat)
    requires i < |SYLLABLE_MAPPINGS| && SYLLABLE_MAPPINGS[i].syllable == ToLower(syllable)
    ensures GetSignForSyllable(syllable) == Some(SYLLABLE_MAPPINGS[i])
  {
    GetSignForSyllableSpec(syllable);
    KeysDistinct();
  }

  /** `getAllSyllables` lists each syllable once, so it ascends strictly. */
  lemma GetAllSyllablesDistinct()
    ensures Collections.Distinct(GetAllSyllables())
    ensures forall i :: 0 < i < |GetAllSyllables()| ==>
              StringLe(GetAllSyllables()[i - 1], GetAllSyllables()[i])
              && GetAllSyllables()[i - 1] != GetAllSyllables()[i]
  {
    KeyListDistinct();
    GetAllSyllablesSpec();
    Collections.PermutationDistinct(GetAllSyllables(), Keys(SYLLABLE_MAPPINGS));
  }
}
