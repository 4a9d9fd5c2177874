/** The "missing letters" word trainer: it shows one word at a time from an
    English or a Telugu word list, splits the word into display units and
    highlights the units that carry the word's starting alphabet.

    A Telugu word is split by an ad-hoc rule, not by Unicode text
    segmentation: each unit is one UTF-16 code unit, followed by the next
    code unit when that one is a vowel sign, the virama, the anusvara or the
    visarga. An English word is split into single code units. */
module MissingLetters {
  import opened Common

  datatype Language = English | Telugu

  /** One entry of a word list (its category and meaning are not modelled). */
  datatype WordData = WordData(word: string, alphabet: string, language: Language)

  /** The fourteen code units that attach to the code unit before them:
      the virama U+0C4D, the dependent vowel signs U+0C3E..U+0C40,
      U+0C41, U+0C42, U+0C46..U+0C48, U+0C4A..U+0C4C, the anusvara U+0C02
      and the visarga U+0C03. */
  predicate IsSign(c: char)
  {
    c == '\U{0C4D}' || c == '\U{0C3E}' || c == '\U{0C3F}' || c == '\U{0C40}' ||
    c == '\U{0C41}' || c == '\U{0C42}' || c == '\U{0C46}' || c == '\U{0C47}' ||
    c == '\U{0C48}' || c == '\U{0C4A}' || c == '\U{0C4B}' || c == '\U{0C4C}' ||
    c == '\U{0C02}' || c == '\U{0C03}'
  }

  /** The splitting rule, stated recursively: the specification of SplitClusters. */
  function Clusters(w: string): seq<string>
    decreases |w|
  {
    if w == [] then []
    else if |w| >= 2 && IsSign(w[1]) then [w[..2]] + Clusters(w[2..])
    else [w[..1]] + Clusters(w[1..])
  }

  /** Joins display units back into one string. */
  function Concat(units: seq<string>): string
  {
    if units == [] then "" else units[0] + Concat(units[1..])
  }

  /** A display unit as the rule builds it: one code unit, or one code unit
      and one sign. */
  predicate WellFormedCluster(c: string)
  {
    |c| == 1 || (|c| == 2 && IsSign(c[1]))
  }

  /** The three "special conjunct" tests of the splitter, taken together:
      the current unit is KA and the next code unit is the two-unit string
      virama+SSA (optionally followed by a vowel sign), or the current unit
      is BA and the next code unit is the anusvara. */
  predicate SpecialConjunct(chr: string, nextChar: string, thirdChar: string)
  {
    (chr == "క" && nextChar == "్ష") ||
    (chr == "బ" && nextChar == "ం") ||
    (chr == "క" && nextChar == "్ష" &&
      thirdChar in ["ా", "ి", "ీ", "ు", "ూ", "ె", "ే", "ై", "ొ", "ో", "ౌ"])
  }

  /** None of the special-conjunct tests can succeed in the state the loop
      reaches them: `nextChar` is a single code unit, so it never equals the
      two-unit virama+SSA; and when it is the anusvara it has already been
      appended to `chr`, so `chr` is no longer the bare BA. */
  lemma SpecialConjunctsUnreachable(c: char, n: char, thirdChar: string)
    ensures !SpecialConjunct(if IsSign(n) then [c, n] else [c], [n], thirdChar)
  {
    var chr := if IsSign(n) then [c, n] else [c];
    assert |[n]| != |"్ష"|;
    if chr == "బ" {
      assert !IsSign(n);
      assert n != 'ం';
    }
  }

  /** The splitting loop of the word display, statement for statement. */
  method SplitClusters(word: string) returns (characters: seq<string>)
    ensures characters == Clusters(word)
  {
    characters := [];
    var i := 0;
    while i < |word|
      invariant 0 <= i <= |word|
      invariant characters + Clusters(word[i..]) == Clusters(word)
    {
      var chr, next := ReadCluster(word, i);
      ClustersStep(word, i);
      assert characters + [chr] + Clusters(word[next..]) == characters + Clusters(word[i..]);
      characters := characters + [chr];
      i := next;
    }
  }

  /** One pass of the splitting loop's body from offset `i`, including the
      special-conjunct branches (which never run): the unit read is the code
      unit at `i` with the sign after it, if there is one, and `next` is
      where the following unit starts. */
  method ReadCluster(word: string, i: nat) returns (chr: string, next: nat)
    requires i < |word|
    ensures next == i + (if i + 1 < |word| && IsSign(word[i + 1]) then 2 else 1)
    ensures next <= |word| && chr == word[i..next]
  {
    var start := i;
    var j := i;
    chr := [word[j]];
    if j < |word| - 1 {
      var nextChar := [word[j + 1]];
      if IsSign(word[j + 1]) {
        chr := chr + nextChar;
        j := j + 1;
      }
      if j < |word| - 1 {
        SpecialConjunctsUnreachable(word[start], word[start + 1], if j < |word| - 2 then [word[j + 2]] else "");
        if chr == "క" && nextChar == "్ష" {
          chr := chr + nextChar;
          j := j + 1;
        } else if chr == "బ" && nextChar == "ం" {
          chr := chr + nextChar;
          j := j + 1;
        } else if j < |word| - 2 {
          var thirdChar := [word[j + 2]];
          if chr == "క" && nextChar == "్ష" &&
             thirdChar in ["ా", "ి", "ీ", "ు", "ూ", "ె", "ే", "ై", "ొ", "ో", "ౌ"] {
            chr := chr + nextChar + thirdChar;
            j := j + 2;
          }
        }
      }
    }
    next := j + 1;
  }

  /** The splitting rule peels one unit off the word at `start`: two code
      units when the second is a sign, one otherwise. */
  lemma ClustersStep(w: string, start: nat)
    requires start < |w|
    ensures var l := if start + 1 < |w| && IsSign(w[start + 1]) then 2 else 1;
      Clusters(w[start..]) == [w[start..start + l]] + Clusters(w[start + l..])
  {
    var rest := w[start..];
    assert rest != [] && rest[0] == w[start];
    if start + 1 < |w| && IsSign(w[start + 1]) {
      assert |rest| >= 2 && IsSign(rest[1]) && rest[..2] == w[start..start + 2];
      assert rest[2..] == w[start + 2..];
    } else {
      assert !(|rest| >= 2 && IsSign(rest[1])) && rest[..1] == w[start..start + 1];
      assert rest[1..] == w[start + 1..];
    }
  }

  /** Joining the display units gives back the word, code unit for code unit. */
  lemma {:induction false} ClustersConcat(w: string)
    ensures Concat(Clusters(w)) == w
    decreases |w|
  {
    if w != [] {
      if |w| >= 2 && IsSign(w[1]) {
        ClustersConcat(w[2..]);
        assert w == w[..2] + w[2..];
      } else {
        ClustersConcat(w[1..]);
        assert w == w[..1] + w[1..];
      }
    }
  }

  /** Every unit is one code unit, or one code unit and one sign; a
      one-unit cluster is never followed by a cluster that starts with a
      sign (a sign is always attached when it can be); and there is at
      most one unit per code unit. */
  lemma {:induction false} ClustersShape(w: string)
    ensures |Clusters(w)| <= |w|
    ensures forall k :: 0 <= k < |Clusters(w)| ==> WellFormedCluster(Clusters(w)[k])
    ensures forall k :: 0 <= k < |Clusters(w)| - 1 && |Clusters(w)[k]| == 1 && Clusters(w)[k + 1] != [] ==>
      !IsSign(Clusters(w)[k + 1][0])
    decreases |w|
  {
    if w != [] {
      var rest := if |w| >= 2 && IsSign(w[1]) then w[2..] else w[1..];
      ClustersShape(rest);
      var cs := Clusters(w);
      assert cs == [cs[0]] + Clusters(rest);
      if |cs[0]| == 1 && |cs| > 1 {
        ClustersHead(rest);
        assert rest[0] == w[1];
      }
    }
  }

  /** The first unit of a non-empty word starts with its first code unit. */
  lemma ClustersHead(w: string)
    requires w != []
    ensures Clusters(w) != [] && Clusters(w)[0][0] == w[0]
  {
  }

  /** A Telugu unit is highlighted when it starts with the alphabet, when a
      longer-than-one-unit alphabet occurs in it, or when it is the first
      unit and starts with the alphabet's first code unit. */
  predicate TeluguHighlighted(chr: string, alphabet: string, index: nat)
  {
    StartsWith(chr, alphabet) ||
    (|alphabet| > 1 && Includes(chr, alphabet)) ||
    (index == 0 && StartsWith(chr, CharAt0(alphabet)))
  }

  /** An English letter is highlighted when it equals the alphabet ignoring
      case, or when it is the first letter and the word starts with the
      alphabet. */
  predicate EnglishHighlighted(word: string, alphabet: string, index: nat)
    requires index < |word|
  {
    Upper([word[index]]) == Upper(alphabet) || (StartsWith(word, alphabet) && index == 0)
  }

  /** The units of a word display, without their flags. */
  function Units(d: seq<(string, bool)>): seq<string>
  {
    seq(|d|, k requires 0 <= k < |d| => d[k].0)
  }

  /** The word display: each displayed unit with its highlight flag. Joining
      the units gives back the word, and the first unit is highlighted
      whenever the word starts with its alphabet (a Telugu word: with the
      alphabet's first code unit). A Telugu word is shown unit by unit as the
      splitter cuts it, an English word code unit by code unit. */
  function WordDisplay(entry: WordData): (r: seq<(string, bool)>)
    ensures Concat(Units(r)) == entry.word
    ensures entry.language == English && entry.word != [] && StartsWith(entry.word, entry.alphabet) ==>
      r[0].1
    ensures (entry.language == Telugu && entry.word != [] && entry.alphabet != [] &&
             entry.word[0] == entry.alphabet[0]) ==> r[0].1
    ensures entry.language == Telugu ==> Units(r) == Clusters(entry.word)
    ensures entry.language != Telugu ==>
      |r| == |entry.word| && forall k :: 0 <= k < |r| ==> r[k].0 == [entry.word[k]]
    ensures forall k :: 0 <= k < |r| ==>
      r[k].1 == if entry.language == Telugu then TeluguHighlighted(r[k].0, entry.alphabet, k)
                else EnglishHighlighted(entry.word, entry.alphabet, k)
  {
    if entry.language == Telugu then
      var r := TeluguDisplay(Clusters(entry.word), entry.alphabet);
      ClustersConcat(entry.word);
      assert Units(r) == Clusters(entry.word);
      if entry.word != [] && entry.alphabet != [] && entry.word[0] == entry.alphabet[0] then
        ClustersHead(entry.word);
        TeluguFirstUnitHighlighted(entry.word, entry.alphabet);
        r
      else
        r
    else
      var r := seq(|entry.word|, k requires 0 <= k < |entry.word| =>
        ([entry.word[k]], EnglishHighlighted(entry.word, entry.alphabet, k)));
      ConcatSingletons(Units(r), entry.word);
      r
  }

  /** Joining single code units gives back the string. */
  lemma {:induction false} ConcatSingletons(units: seq<string>, w: string)
    requires |units| == |w| && forall k :: 0 <= k < |w| ==> units[k] == [w[k]]
    ensures Concat(units) == w
  {
    if w != [] {
      ConcatSingletons(units[1..], w[1..]);
      assert w == [w[0]] + w[1..];
    }
  }

  function TeluguDisplay(cs: seq<string>, alphabet: string): seq<(string, bool)>
  {
    seq(|cs|, k requires 0 <= k < |cs| => (cs[k], TeluguHighlighted(cs[k], alphabet, k)))
  }

  /** Whenever a Telugu word starts with the first code unit of its alphabet,
      its first unit is highlighted. */
  lemma TeluguFirstUnitHighlighted(w: string, alphabet: string)
    requires w != [] && alphabet != [] && w[0] == alphabet[0]
    ensures TeluguHighlighted(Clusters(w)[0], alphabet, 0)
  {
    ClustersHead(w);
    assert StartsWith(Clusters(w)[0], CharAt0(alphabet));
  }

  /** Whenever an English word starts with its alphabet, its first letter is
      highlighted. */
  lemma EnglishFirstLetterHighlighted(word: string, alphabet: string)
    requires word != [] && StartsWith(word, alphabet)
    ensures EnglishHighlighted(word, alphabet, 0)
  {
  }

  predicate IsUpperAscii(s: string)
  {
    forall k :: 0 <= k < |s| ==> 'A' <= s[k] <= 'Z'
  }

  /** For an upper-case word and a one-letter upper-case alphabet, the
      highlighted letters are exactly the occurrences of that letter. */
  lemma EnglishHighlightedExactly(word: string, alphabet: string, index: nat)
    requires index < |word| && |alphabet| == 1
    requires IsUpperAscii(word) && IsUpperAscii(alphabet)
    ensures EnglishHighlighted(word, alphabet, index) <==> word[index] == alphabet[0]
  {
    var a, b := Upper([word[index]]), Upper(alphabet);
    assert a[0] == word[index] && b[0] == alphabet[0];
    if word[index] == alphabet[0] {
      assert a == b;
    }
    if StartsWith(word, alphabet) && index == 0 {
      assert word[0] == alphabet[0];
    }
  }


  /** The English word list, one entry per index (A to Z). */
  function EnglishEntry(k: nat): WordData
    requires k < 26
  {
    match k
    case 0 => WordData("APPLE", "A", English)
    case 1 => WordData("BALL", "B", English)
    case 2 => WordData("CAT", "C", English)
    case 3 => WordData("DOG", "D", English)
    case 4 => WordData("ELEPHANT", "E", English)
    case 5 => WordData("FISH", "F", English)
    case 6 => WordData("GIRL", "G", English)
    case 7 => WordData("HOUSE", "H", English)
    case 8 => WordData("ICE", "I", English)
    case 9 => WordData("JUICE", "J", English)
    case 10 => WordData("KITE", "K", English)
    case 11 => WordData("LION", "L", English)
    case 12 => WordData("MOON", "M", English)
    case 13 => WordData("NEST", "N", English)
    case 14 => WordData("ORANGE", "O", English)
    case 15 => WordData("PENCIL", "P", English)
    case 16 => WordData("QUEEN", "Q", English)
    case 17 => WordData("RABBIT", "R", English)
    case 18 => WordData("SUN", "S", English)
    case 19 => WordData("TREE", "T", English)
    case 20 => WordData("UMBRELLA", "U", English)
    case 21 => WordData("VAN", "V", English)
    case 22 => WordData("WATER", "W", English)
    case 23 => WordData("BOX", "X", English)
    case 24 => WordData("YELLOW", "Y", English)
    case 25 => WordData("ZEBRA", "Z", English)
  }

  /** The Telugu word list, one entry per index (from AMMA to BANDEERA). */
  function TeluguEntry(k: nat): WordData
    requires k < 49
  {
    match k
    case 0 => WordData("అమ్మ", "అ", Telugu)
    case 1 => WordData("ఆవు", "ఆ", Telugu)
    case 2 => WordData("ఇల్లు", "ఇ", Telugu)
    case 3 => WordData("ఈగ", "ఈ", Telugu)
    case 4 => WordData("ఉడుత", "ఉ", Telugu)
    case 5 => WordData("ఊరు", "ఊ", Telugu)
    case 6 => WordData("ఋషి", "ఋ", Telugu)
    case 7 => WordData("ఎలుక", "ఎ", Telugu)
    case 8 => WordData("ఏనుగు", "ఏ", Telugu)
    case 9 => WordData("ఐదు", "ఐ", Telugu)
    case 10 => WordData("ఒంటె", "ఒ", Telugu)
    case 11 => WordData("ఓడ", "ఓ", Telugu)
    case 12 => WordData("ఔషధం", "ఔ", Telugu)
    case 13 => WordData("అం", "అం", Telugu)
    case 14 => WordData("అః", "అః", Telugu)
    case 15 => WordData("కుక్క", "క", Telugu)
    case 16 => WordData("ఖడ్గం", "ఖ", Telugu)
    case 17 => WordData("గుర్రం", "గ", Telugu)
    case 18 => WordData("ఘంట", "ఘ", Telugu)
    case 19 => WordData("ఙాణం", "ఙ", Telugu)
    case 20 => WordData("చిట్టి", "చ", Telugu)
    case 21 => WordData("ఛత్రం", "ఛ", Telugu)
    case 22 => WordData("జెండా", "జ", Telugu)
    case 23 => WordData("ఝరి", "ఝ", Telugu)
    case 24 => WordData("టమాట", "ట", Telugu)
    case 25 => WordData("ఠాకు", "ఠ", Telugu)
    case 26 => WordData("డబ్బు", "డ", Telugu)
    case 27 => WordData("ఢక్కా", "ఢ", Telugu)
    case 28 => WordData("ణాణం", "ణ", Telugu)
    case 29 => WordData("తల", "త", Telugu)
    case 30 => WordData("థలం", "థ", Telugu)
    case 31 => WordData("దీపం", "ద", Telugu)
    case 32 => WordData("ధనం", "ధ", Telugu)
    case 33 => WordData("నీరు", "న", Telugu)
    case 34 => WordData("పిల్లి", "ప", Telugu)
    case 35 => WordData("ఫలం", "ఫ", Telugu)
    case 36 => WordData("బంతి", "బ", Telugu)
    case 37 => WordData("భారం", "భ", Telugu)
    case 38 => WordData("మంచు", "మ", Telugu)
    case 39 => WordData("యాత్ర", "య", Telugu)
    case 40 => WordData("రాజు", "ర", Telugu)
    case 41 => WordData("లేడి", "ల", Telugu)
    case 42 => WordData("వ్యాన్", "వ", Telugu)
    case 43 => WordData("శివుడు", "శ", Telugu)
    case 44 => WordData("షడ్జం", "ష", Telugu)
    case 45 => WordData("సింహం", "స", Telugu)
    case 46 => WordData("హంస", "హ", Telugu)
    case 47 => WordData("క్షత్రం", "క్ష", Telugu)
    case 48 => WordData("బండీర", "బం", Telugu)
  }


  /** The alphabet description table, looked up by key: `None` where the
      table has no entry. */
  function AlphabetInfoEntry(alphabet: string): Option<string>
  {
    match alphabet
    case "అ" => Some("Vowel - అచ్చు (a)")
    case "ఆ" => Some("Vowel - అచ్చు (aa)")
    case "ఇ" => Some("Vowel - అచ్చు (i)")
    case "ఈ" => Some("Vowel - అచ్చు (ii)")
    case "ఉ" => Some("Vowel - అచ్చు (u)")
    case "ఊ" => Some("Vowel - అచ్చు (uu)")
    case "ఋ" => Some("Vowel - అచ్చు (ru)")
    case "ఎ" => Some("Vowel - అచ్చు (e)")
    case "ఏ" => Some("Vowel - అచ్చు (ee)")
    case "ఐ" => Some("Vowel - అచ్చు (ai)")
    case "ఒ" => Some("Vowel - అచ్చు (o)")
    case "ఓ" => Some("Vowel - అచ్చు (oo)")
    case "ఔ" => Some("Vowel - అచ్చు (au)")
    case "అం" => Some("Anusvara - అనుస్వారం (am)")
    case "అః" => Some("Visarga - విసర్గ (ah)")
    case "క" => Some("Consonant - హల్లు (ka)")
    case "ఖ" => Some("Consonant - హల్లు (kha)")
    case "గ" => Some("Consonant - హల్లు (ga)")
    case "ఘ" => Some("Consonant - హల్లు (gha)")
    case "ఙ" => Some("Consonant - హల్లు (nga)")
    case "చ" => Some("Consonant - హల్లు (cha)")
    case "ఛ" => Some("Consonant - హల్లు (chha)")
    case "జ" => Some("Consonant - హల్లు (ja)")
    case "ఝ" => Some("Consonant - హల్లు (jha)")
    case "ట" => Some("Consonant - హల్లు (ta)")
    case "ఠ" => Some("Consonant - హల్లు (tha)")
    case "డ" => Some("Consonant - హల్లు (da)")
    case "ఢ" => Some("Consonant - హల్లు (dha)")
    case "ణ" => Some("Consonant - హల్లు (na)")
    case "త" => Some("Consonant - హల్లు (ta)")
    case "థ" => Some("Consonant - హల్లు (tha)")
    case "ద" => Some("Consonant - హల్లు (da)")
    case "ధ" => Some("Consonant - హల్లు (dha)")
    case "న" => Some("Consonant - హల్లు (na)")
    case "ప" => Some("Consonant - హల్లు (pa)")
    case "ఫ" => Some("Consonant - హల్లు (pha)")
    case "బ" => Some("Consonant - హల్లు (ba)")
    case "భ" => Some("Consonant - హల్లు (bha)")
    case "మ" => Some("Consonant - హల్లు (ma)")
    case "య" => Some("Consonant - హల్లు (ya)")
    case "ర" => Some("Consonant - హల్లు (ra)")
    case "ల" => Some("Consonant - హల్లు (la)")
    case "వ" => Some("Consonant - హల్లు (va)")
    case "శ" => Some("Consonant - హల్లు (sha)")
    case "ష" => Some("Consonant - హల్లు (sha)")
    case "స" => Some("Consonant - హల్లు (sa)")
    case "హ" => Some("Consonant - హల్లు (ha)")
    case "క్ష" => Some("Conjunct - సంయుక్తాక్షరం (ksha)")
    case "బం" => Some("Conjunct - సంయుక్తాక్షరం (bam)")
    case _ => None
  }

  /** The number of words on the list for `language`. */
  function ListLength(language: Language): nat
  {
    if language == English then 26 else 49
  }

  /** `getCurrentWordList()[index]`: the English list or the Telugu list,
      indexed. */
  function WordAt(language: Language, index: nat): (w: WordData)
    requires index < ListLength(language)
    ensures w.language == language
  {
    if language == English then EnglishEntry(index) else TeluguEntry(index)
  }

  /** Every entry of both lists starts with the first code unit of its
      alphabet, except the English entry BOX, whose alphabet X is its last
      letter; the English words and alphabets are upper-case letters. */
  lemma TeluguWordsStartWithAlphabet()
    ensures forall k :: 0 <= k < 49 ==>
      TeluguEntry(k).word != [] && TeluguEntry(k).alphabet != [] &&
      TeluguEntry(k).word[0] == TeluguEntry(k).alphabet[0]
  {
  }

  lemma EnglishWordsStartWithAlphabet()
    ensures forall k :: 0 <= k < 26 ==>
      IsUpperAscii(EnglishEntry(k).word) && |EnglishEntry(k).alphabet| == 1 &&
      IsUpperAscii(EnglishEntry(k).alphabet) &&
      (k != 23 <==> StartsWith(EnglishEntry(k).word, EnglishEntry(k).alphabet))
    ensures EnglishEntry(23).word[2] == EnglishEntry(23).alphabet[0]
  {
    EnglishEntriesUpper();
  }

  lemma EnglishEntriesUpper()
    ensures forall k :: 0 <= k < 26 ==>
      IsUpperAscii(EnglishEntry(k).word) && |EnglishEntry(k).alphabet| == 1 &&
      IsUpperAscii(EnglishEntry(k).alphabet)
  {
    EnglishEntriesUpperAToM();
    EnglishEntriesUpperNToZ();
  }

  lemma EnglishEntriesUpperAToM()
    ensures forall k :: 0 <= k < 13 ==>
      IsUpperAscii(EnglishEntry(k).word) && |EnglishEntry(k).alphabet| == 1 &&
      IsUpperAscii(EnglishEntry(k).alphabet)
  {
  }

  lemma EnglishEntriesUpperNToZ()
    ensures forall k :: 13 <= k < 26 ==>
      IsUpperAscii(EnglishEntry(k).word) && |EnglishEntry(k).alphabet| == 1 &&
      IsUpperAscii(EnglishEntry(k).alphabet)
  {
  }

  /** Every word on either list has at least one highlighted unit: the first
      unit of every Telugu word, the first letter of every English word but
      BOX, and the X of BOX. */
  lemma EveryWordHighlightsItsAlphabet(language: Language, k: nat)
    requires k < ListLength(language)
    ensures exists j ::
      0 <= j < |WordDisplay(WordAt(language, k))| && WordDisplay(WordAt(language, k))[j].1
  {
    TeluguWordsStartWithAlphabet();
    EnglishWordsStartWithAlphabet();
    var entry := WordAt(language, k);
    var d := WordDisplay(entry);
    if language == Telugu {
      TeluguFirstUnitHighlighted(entry.word, entry.alphabet);
      ClustersHead(entry.word);
      assert d[0].1;
    } else if k == 23 {
      EnglishHighlightedExactly(entry.word, entry.alphabet, 2);
      assert d[2].1;
    } else {
      EnglishFirstLetterHighlighted(entry.word, entry.alphabet);
      assert d[0].1;
    }
  }



  /** The alphabet caption of a Telugu word: its entry in the table, or
      "Telugu Alphabet: " followed by the alphabet when it has none. */
  function TeluguAlphabetInfo(alphabet: string): (r: string)
    ensures AlphabetInfoEntry(alphabet).Some? ==> r == AlphabetInfoEntry(alphabet).value
    ensures AlphabetInfoEntry(alphabet).None? ==> r == "Telugu Alphabet: " + alphabet
  {
    if AlphabetInfoEntry(alphabet).Some? && AlphabetInfoEntry(alphabet).value != "" then AlphabetInfoEntry(alphabet).value
    else "Telugu Alphabet: " + alphabet
  }

  /** No table entry looks like the fallback, so the caption shows the
      fallback exactly for alphabets missing from the table. */
  lemma AlphabetInfoFallbackExactly(alphabet: string)
    ensures StartsWith(TeluguAlphabetInfo(alphabet), "Telugu Alphabet: ") <==> AlphabetInfoEntry(alphabet).None?
  {
    var info := TeluguAlphabetInfo(alphabet);
    if AlphabetInfoEntry(alphabet).Some? {
      AlphabetInfoEntriesInitial(alphabet);
      assert info[0] != 'T';
    } else {
      assert info == "Telugu Alphabet: " + alphabet;
      assert info[..17] == "Telugu Alphabet: ";
    }
  }

  /** Every table entry is a vowel, anusvara, visarga, consonant or conjunct description. */
  lemma AlphabetInfoEntriesInitial(alphabet: string)
    requires AlphabetInfoEntry(alphabet).Some?
    ensures AlphabetInfoEntry(alphabet).value != "" && AlphabetInfoEntry(alphabet).value[0] in "VAC"
  {
  }

  /** Every alphabet of the Telugu word list has a table entry, so no Telugu
      word ever shows the fallback caption. */
  lemma TeluguAlphabetsAreKnown()
    ensures forall k :: 0 <= k < 49 ==> AlphabetInfoEntry(TeluguEntry(k).alphabet).Some?
  {
  }

  /** The trainer's navigation state. */
  class WordTrainer {
    var currentWordIndex: nat
    var gameStarted: bool
    var currentLanguage: Language
    var showMeaning: bool

    ghost predicate Valid()
      reads this
    {
      currentWordIndex < ListLength(currentLanguage)
    }

    /** The word on screen: a word of the current language that shows at
        least one highlighted unit. */
    function CurrentWord(): (w: WordData)
      reads this
      requires Valid()
      ensures w.language == currentLanguage
      ensures exists j :: 0 <= j < |WordDisplay(w)| && WordDisplay(w)[j].1
    {
      EveryWordHighlightsItsAlphabet(currentLanguage, currentWordIndex);
      WordAt(currentLanguage, currentWordIndex)
    }

    constructor ()
      ensures Valid()
      ensures currentWordIndex == 0 && !gameStarted && currentLanguage == English && !showMeaning
    {
      currentWordIndex, gameStarted, currentLanguage, showMeaning := 0, false, English, false;
    }

    method Start()
      modifies this
      ensures gameStarted && currentWordIndex == old(currentWordIndex)
      ensures currentLanguage == old(currentLanguage) && showMeaning == old(showMeaning)
    {
      gameStarted := true;
    }

    /** Next word; past the last word the game ends and returns to the first. */
    method HandleNext()
      requires Valid()
      modifies this
      ensures Valid() && !showMeaning && currentLanguage == old(currentLanguage)
      ensures old(currentWordIndex) < ListLength(currentLanguage) - 1 ==>
        currentWordIndex == old(currentWordIndex) + 1 && gameStarted == old(gameStarted)
      ensures old(currentWordIndex) == ListLength(currentLanguage) - 1 ==>
        currentWordIndex == 0 && !gameStarted
    {
      showMeaning := false;
      if currentWordIndex < ListLength(currentLanguage) - 1 {
        currentWordIndex := currentWordIndex + 1;
      } else {
        gameStarted := false;
        currentWordIndex := 0;
      }
    }

    /** Previous word; nothing moves at the first word. */
    method HandlePrevious()
      requires Valid()
      modifies this
      ensures Valid() && !showMeaning && currentLanguage == old(currentLanguage)
      ensures gameStarted == old(gameStarted)
      ensures currentWordIndex == if old(currentWordIndex) > 0 then old(currentWordIndex) - 1 else 0
    {
      showMeaning := false;
      if currentWordIndex > 0 {
        currentWordIndex := currentWordIndex - 1;
      }
    }

    method ToggleMeaning()
      modifies this
      ensures showMeaning == !old(showMeaning)
      ensures currentWordIndex == old(currentWordIndex) && gameStarted == old(gameStarted)
      ensures currentLanguage == old(currentLanguage)
    {
      showMeaning := !showMeaning;
    }

    method ResetGame()
      modifies this
      ensures Valid() && currentWordIndex == 0 && !showMeaning
      ensures gameStarted == old(gameStarted) && currentLanguage == old(currentLanguage)
    {
      currentWordIndex := 0;
      showMeaning := false;
    }

    method HandleLanguageChange(language: Language)
      modifies this
      ensures Valid() && currentWordIndex == 0 && !showMeaning
      ensures currentLanguage == language && gameStarted == old(gameStarted)
      ensures CurrentWord() == WordAt(language, 0)
    {
      currentLanguage := language;
      currentWordIndex := 0;
      showMeaning := false;
    }
  }
}
