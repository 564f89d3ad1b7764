/**
 * The OCR correction learner (generate_corrections.py): which low-confidence
 * words are counted, what correction is suggested for a word, and which
 * suggestions make it into the corrections file.
 *
 * The script's regular expressions are anchored character-class patterns.
 * Each is written here as a run of characters of one class after another;
 * neighbouring classes in every pattern are disjoint, so the longest run of
 * the first class is the only place where the next can start, and no
 * backtracking is needed.
 */
module Corrections {
  import opened Wrappers
  import opened Text

  const DefaultThreshold: real := 40.0
  const DefaultMinOccurrences := 2

  /** Corrections seeded by hand for common OCR misreadings. */
  const KnownCorrections: map<string, string> := map[
    "vou" := "you",
    "eves" := "eyes",
    "Jrom" := "from",
    "Jaction" := "faction",
    "rhe" := "the",
    "wilh" := "with",
    "thar" := "that",
    "bcrk" := "berk",
    "Ladv" := "Lady",
    "lll" := "III",
    "tev've" := "they've",
    "1ere's" := "here's",
    "Heen" := "been",
    "vue" := "you",
    "Facto1" := "Factol",
    "St+tAR+" := "START",
    "+ee" := "the",
    "Leer" := "beer",
    "eT" := "et",
    "vvho" := "who",
    "vvhat" := "what",
    "vvith" := "with",
    "rnore" := "more",
    "sorne" := "some",
    "tirne" := "time",
    "frorn" := "from"
  ]

  /** Planescape terms that are never counted as misreadings, compared in lower case. */
  const PreserveTerms: set<string> := {
    "berk", "basher", "cutter", "blood", "barmy", "factol", "dabus", "sigil",
    "tanar'ri", "baatezu", "yugoloth", "thac0", "godsmen", "harmonium",
    "hardheads", "mercykillers", "guvners", "xaositects", "athar", "sod",
    "cage", "multiverse", "planewalker", "prime", "portal", "modron",
    "tiefling", "aasimar", "githzerai", "githyanki"
  }

  // ---------------------------------------------------------------------------
  // Character classes and runs
  // ---------------------------------------------------------------------------

  datatype CharClass =
    | Digit          // `\d`
    | Letter         // `[a-z]` under IGNORECASE
    | Upper          // `[A-Z]`
    | PlusStar       // `[+*]`
    | GarbageSymbol  // `[¢®©™°±§¶]`
    | Punctuation    // `[^\w\s]`

  const GarbageSymbols: set<char> :=
    {'\U{A2}', '\U{AE}', '\U{A9}', '\U{2122}', '\U{B0}', '\U{B1}', '\U{A7}', '\U{B6}'}

  predicate InClass(c: char, cls: CharClass)
  {
    match cls
    case Digit => IsDigit(c)
    case Letter => IsLetter(c)
    case Upper => IsUpper(c)
    case PlusStar => c == '+' || c == '*'
    case GarbageSymbol => c in GarbageSymbols
    case Punctuation => !IsWordChar(c) && !IsSpace(c)
  }

  /** The end of the longest run of `cls` characters of `s` starting at `from`. */
  function Run(s: string, from: nat, cls: CharClass): (r: nat)
    requires from <= |s|
    ensures from <= r <= |s|
    ensures forall i :: from <= i < r ==> InClass(s[i], cls)
    ensures r < |s| ==> !InClass(s[r], cls)
    decreases |s| - from
  {
    if from < |s| && InClass(s[from], cls) then Run(s, from + 1, cls) else from
  }

  /** `^C+$`: one or more characters, all of class `cls`. */
  predicate AllOf(s: string, cls: CharClass)
  {
    |s| > 0 && Run(s, 0, cls) == |s|
  }

  /** `^C1+C2+$`. */
  predicate RunThenRun(s: string, c1: CharClass, c2: CharClass)
  {
    var j := Run(s, 0, c1);
    0 < j < |s| && Run(s, j, c2) == |s|
  }

  predicate StartsWith(s: string, prefix: string)
  {
    |prefix| <= |s| && s[..|prefix|] == prefix
  }

  // ---------------------------------------------------------------------------
  // Word classification
  // ---------------------------------------------------------------------------

  predicate IsPreservedTerm(word: string)
  {
    ToLower(word) in PreserveTerms
  }

  /** `^[+*]+[A-Z]+[+*]*$`: upper-case letters wrapped in plus signs or stars, as in "+HE+". */
  predicate IsStarredCaps(word: string)
  {
    var j := Run(word, 0, PlusStar);
    var k := Run(word, j, Upper);
    0 < j < k && Run(word, k, PlusStar) == |word|
  }

  /** Matches one of the six garbage patterns. */
  predicate IsGarbage(word: string)
  {
    || AllOf(word, GarbageSymbol)
    || IsStarredCaps(word)
    || word == "Pp."
    || word == "<p"
    || word == "wv"
    || word == "eT"
  }

  predicate IsPurePunctuation(word: string)
  {
    AllOf(word, Punctuation)
  }

  /** `^page-\d+$` under IGNORECASE: a page marker. */
  predicate IsPageMarker(word: string)
  {
    |word| > 5 && ToLower(word[..5]) == "page-" && Run(word, 5, Digit) == |word|
  }

  /** A number, a dice or ordinal form ("1d6", "2nd"), a stat ("AC5") or a page marker. */
  predicate IsLikelyNumberOrStat(word: string)
  {
    || AllOf(word, Digit)
    || RunThenRun(word, Digit, Letter)
    || RunThenRun(word, Letter, Digit)
    || IsPageMarker(word)
  }

  // ---------------------------------------------------------------------------
  // Rewrites
  // ---------------------------------------------------------------------------

  /** `^0[a-z]+$` under IGNORECASE. */
  predicate ZeroThenLetters(word: string)
  {
    |word| >= 2 && word[0] == '0' && Run(word, 1, Letter) == |word|
  }

  /** `^1[a-z]+$` under IGNORECASE. */
  predicate OneThenLetters(word: string)
  {
    |word| >= 2 && word[0] == '1' && Run(word, 1, Letter) == |word|
  }

  predicate IsVowelOrY(c: char)
  {
    c in "aeiouy"
  }

  /** An "rn" at `i` directly before a lower-case vowel or 'y'. */
  predicate RnAt(s: string, i: int)
  {
    0 <= i && i + 2 < |s| && s[i] == 'r' && s[i + 1] == 'n' && IsVowelOrY(s[i + 2])
  }

  predicate NoRnBeforeVowel(s: string)
  {
    forall i :: 0 <= i < |s| ==> !RnAt(s, i)
  }

  /** A "vv" at `i`. */
  predicate VvAt(s: string, i: int)
  {
    0 <= i && i + 1 < |s| && s[i] == 'v' && s[i + 1] == 'v'
  }

  predicate NoDoubleV(s: string)
  {
    forall i :: 0 <= i < |s| ==> !VvAt(s, i)
  }

  /** `re.sub(r'rn(?=[aeiouy])', 'm', s)`: left to right, the vowel itself is kept. */
  function FixRn(s: string): (r: string)
    ensures |r| <= |s|
    ensures s != [] ==> r != [] && r[0] == if RnAt(s, 0) then 'm' else s[0]
  {
    if |s| < 3 then s
    else if RnAt(s, 0) then "m" + FixRn(s[2..])
    else [s[0]] + FixRn(s[1..])
  }

  /** `re.sub(r'vv', 'w', s)`: non-overlapping, left to right. */
  function FixVv(s: string): (r: string)
    ensures |r| <= |s|
    ensures s != [] ==> r != [] && (r[0] == 'v' <==> s[0] == 'v' && !VvAt(s, 0))
  {
    if |s| < 2 then s
    else if VvAt(s, 0) then "w" + FixVv(s[2..])
    else [s[0]] + FixVv(s[1..])
  }

  /** A match one place into `s[1..]` is a match in `s`, and the other way round. */
  lemma ShiftedMatches(s: string, i: int)
    requires s != [] && i >= 0
    ensures RnAt(s[1..], i) <==> RnAt(s, i + 1)
    ensures VvAt(s[1..], i) <==> VvAt(s, i + 1)
  {
    if 0 <= i && i + 1 < |s| - 1 {
      assert s[1..][i] == s[i + 1] && s[1..][i + 1] == s[i + 2];
    }
    if 0 <= i && i + 2 < |s| - 1 {
      assert s[1..][i + 2] == s[i + 3];
    }
  }

  /**
   * The "rn" rewrite shortens a word exactly when some "rn" stands before a
   * vowel, and otherwise leaves it as it is.
   */
  lemma {:induction false} FixRnChanges(s: string)
    ensures |FixRn(s)| == |s| <==> NoRnBeforeVowel(s)
    ensures NoRnBeforeVowel(s) ==> FixRn(s) == s
    decreases |s|
  {
    if |s| < 3 {
      forall i ensures !RnAt(s, i) { }
    } else if RnAt(s, 0) {
      assert !NoRnBeforeVowel(s);
    } else {
      FixRnChanges(s[1..]);
      if NoRnBeforeVowel(s) {
        forall i | i >= 0 ensures !RnAt(s[1..], i) {
          ShiftedMatches(s, i);
        }
        assert s == [s[0]] + s[1..];
      } else {
        var i :| 0 <= i < |s| && RnAt(s, i);
        ShiftedMatches(s, i - 1);
        assert !NoRnBeforeVowel(s[1..]);
      }
    }
  }

  /** A character that starts no match is kept, and the rewrite goes on after it. */
  lemma FixRnStep(s: string)
    requires s != [] && !RnAt(s, 0)
    ensures FixRn(s) == [s[0]] + FixRn(s[1..])
  {
    if |s| < 3 {
      assert s == [s[0]] + s[1..];
    }
  }

  /** After the "rn" rewrite no "rn" before a vowel is left: the "m" it writes starts no new match. */
  lemma {:induction false} FixRnLeavesNone(s: string)
    ensures NoRnBeforeVowel(FixRn(s))
    decreases |s|
  {
    var r := FixRn(s);
    if |s| < 3 {
      forall i ensures !RnAt(r, i) { }
    } else {
      var t := if RnAt(s, 0) then s[2..] else s[1..];
      FixRnLeavesNone(t);
      var head := if RnAt(s, 0) then 'm' else s[0];
      assert r == [head] + FixRn(t);
      forall i
        ensures !RnAt(r, i)
      {
        if i > 0 {
          ShiftedMatches(r, i - 1);
        } else if i == 0 && head == 'r' && r[1] == 'n' {
          FixRnStep(s[1..]);
          assert s[1..][1..] == s[2..];
        }
      }
    }
  }

  /** After the "vv" rewrite no "vv" is left. */
  lemma {:induction false} FixVvLeavesNone(s: string)
    ensures NoDoubleV(FixVv(s))
    decreases |s|
  {
    var r := FixVv(s);
    if |s| < 2 {
      forall i ensures !VvAt(r, i) { }
    } else {
      var t := if VvAt(s, 0) then s[2..] else s[1..];
      FixVvLeavesNone(t);
      var head := if VvAt(s, 0) then 'w' else s[0];
      assert r == [head] + FixVv(t);
      forall i
        ensures !VvAt(r, i)
      {
        if i > 0 {
          ShiftedMatches(r, i - 1);
        }
      }
    }
  }

  /** Without a "vv" the rewrite changes nothing. */
  lemma {:induction false} FixVvKeeps(s: string)
    requires NoDoubleV(s)
    ensures FixVv(s) == s
    decreases |s|
  {
    if |s| >= 2 {
      forall i | i >= 0 ensures !VvAt(s[1..], i) {
        ShiftedMatches(s, i);
      }
      FixVvKeeps(s[1..]);
      assert s == [s[0]] + s[1..];
    }
  }

  /** Applying the "rn" rewrite twice is the same as applying it once. */
  lemma FixRnIdempotent(s: string)
    ensures FixRn(FixRn(s)) == FixRn(s)
  {
    FixRnLeavesNone(s);
    FixRnChanges(FixRn(s));
  }

  /** Applying the "vv" rewrite twice is the same as applying it once. */
  lemma FixVvIdempotent(s: string)
    ensures FixVv(FixVv(s)) == FixVv(s)
  {
    FixVvLeavesNone(s);
    FixVvKeeps(FixVv(s));
  }

  // ---------------------------------------------------------------------------
  // Suggestions
  // ---------------------------------------------------------------------------

  /**
   * `suggest_correction`: the hand-made table first, then `Some("")` (delete)
   * for garbage, then no suggestion for numbers, stats and words of at most
   * two characters, then the 0/1 and ligature rewrites, suggested only when
   * they change the word.
   */
  function SuggestCorrection(word: string): (r: Option<string>)
    ensures word in KnownCorrections ==> r == Some(KnownCorrections[word])
    ensures word !in KnownCorrections && IsGarbage(word) ==> r == Some("")
    ensures word !in KnownCorrections && !IsGarbage(word) && (IsLikelyNumberOrStat(word) || |word| <= 2)
      ==> r.None?
  {
    if word in KnownCorrections then Some(KnownCorrections[word])
    else if IsGarbage(word) then Some("")
    else if IsLikelyNumberOrStat(word) then None
    else if |word| <= 2 then None
    else
      var suggestion := Rewrite(word);
      if suggestion != word then Some(suggestion) else None
  }

  /**
   * The pattern-based rewrites in order: a leading 0 or 1, then "rn" before
   * a vowel, then "vv". They never lengthen the word, and a word that does
   * not look like a number or a statistic only gets the ligature rewrites.
   */
  function Rewrite(word: string): (r: string)
    ensures |r| <= |word|
    ensures !IsLikelyNumberOrStat(word) ==> r == FixVv(FixRn(word))
  {
    var afterZero := if ZeroThenLetters(word) then "o" + word[1..] else word;
    var afterOne :=
      if OneThenLetters(word) && !StartsWith(word, "1st") && !StartsWith(word, "1d")
      then "l" + word[1..] else afterZero;
    FixVv(FixRn(afterOne))
  }

  /** The ligature rewrites change a word exactly when it has an "rn" before a vowel, or a "vv" after that. */
  lemma LigaturesChange(word: string)
    ensures FixVv(FixRn(word)) != word <==> !NoRnBeforeVowel(word) || !NoDoubleV(FixRn(word))
  {
    FixRnChanges(word);
    var fixed := FixRn(word);
    if NoDoubleV(fixed) {
      FixVvKeeps(fixed);
    } else {
      FixVvLeavesNone(fixed);
    }
  }

  /** "eT" is both garbage and in the table; the table wins, so it is corrected, not deleted. */
  lemma KnownBeatsGarbage()
    ensures IsGarbage("eT") && SuggestCorrection("eT") == Some("et")
  {
  }

  /** No suggestion is ever the word itself. */
  lemma NeverSuggestsItself(word: string)
    ensures SuggestCorrection(word) != Some(word)
  {
    if word in KnownCorrections {
      assert forall k :: k in KnownCorrections ==> KnownCorrections[k] != k;
    } else if IsGarbage(word) {
      assert word != "" by {
        if IsStarredCaps(word) {
          assert Run(word, 0, PlusStar) > 0;
        }
      }
    }
  }

  /** Numbers, ordinals, stats and page markers are number-like. */
  lemma NumberLikeExamples()
    ensures IsLikelyNumberOrStat("250") && IsLikelyNumberOrStat("2nd")
    ensures IsLikelyNumberOrStat("AC5") && IsLikelyNumberOrStat("Page-12")
  {
    assert Run("250", 0, Digit) == 3 by { assert Run("250", 3, Digit) == 3; }
    assert RunThenRun("2nd", Digit, Letter) by {
      assert Run("2nd", 0, Digit) == 1 by { assert Run("2nd", 1, Digit) == 1; }
      assert Run("2nd", 1, Letter) == 3 by { assert Run("2nd", 3, Letter) == 3; }
    }
    assert RunThenRun("AC5", Letter, Digit) by {
      assert Run("AC5", 0, Letter) == 2 by { assert Run("AC5", 2, Letter) == 2; }
      assert Run("AC5", 2, Digit) == 3;
    }
    assert IsPageMarker("Page-12") by {
      assert Run("Page-12", 5, Digit) == 7 by { assert Run("Page-12", 7, Digit) == 7; }
      assert ToLower("Page-12"[..5]) == "page-";
    }
  }

  /**
   * A dice expression such as "1d6" is not number-like, since it ends in a
   * digit after letters; neither is a plain word.
   */
  lemma NotNumberLikeExamples()
    ensures !IsLikelyNumberOrStat("1d6") && !IsLikelyNumberOrStat("ogre")
  {
    assert Run("1d6", 0, Digit) == 1 by { assert Run("1d6", 1, Digit) == 1; }
    assert Run("1d6", 1, Letter) == 2;
    assert Run("1d6", 0, Letter) == 0;
    assert Run("ogre", 0, Digit) == 0;
    assert Run("ogre", 0, Letter) == 4 by { assert Run("ogre", 4, Letter) == 4; }
  }

  /** A word of a digit followed by letters is already a number-like word. */
  lemma ZeroOneAreNumberLike(word: string)
    requires ZeroThenLetters(word) || OneThenLetters(word)
    ensures IsLikelyNumberOrStat(word)
  {
    assert InClass(word[0], Digit) && !InClass(word[1], Digit);
    assert Run(word, 0, Digit) == 1 by {
      assert Run(word, 1, Digit) == 1;
    }
    assert RunThenRun(word, Digit, Letter);
  }

  /**
   * The 0/1 rewrites never take effect: a word they would rewrite gets no
   * suggestion unless the table or a garbage pattern already decides it.
   */
  lemma ZeroOneRewritesShadowed(word: string)
    requires ZeroThenLetters(word) || OneThenLetters(word)
    requires word !in KnownCorrections && !IsGarbage(word)
    ensures SuggestCorrection(word).None?
  {
    ZeroOneAreNumberLike(word);
  }

  /**
   * A word that gets past the guards is suggested a correction exactly when
   * it has an "rn" before a vowel, or a "vv" once those are rewritten.
   */
  lemma LigatureSuggestion(word: string)
    requires word !in KnownCorrections && !IsGarbage(word)
    requires !IsLikelyNumberOrStat(word) && |word| > 2
    ensures SuggestCorrection(word).Some? <==> !NoRnBeforeVowel(word) || !NoDoubleV(FixRn(word))
    ensures SuggestCorrection(word).Some? ==> SuggestCorrection(word).value == FixVv(FixRn(word))
  {
    PastTheGuards(word);
    LigaturesChange(word);
  }

  /** Past the table, the garbage check and the length and number guards, the rewrite decides. */
  lemma PastTheGuards(word: string)
    requires word !in KnownCorrections && !IsGarbage(word)
    requires !IsLikelyNumberOrStat(word) && |word| > 2
    ensures SuggestCorrection(word) == if Rewrite(word) != word then Some(Rewrite(word)) else None
  {
  }

  // ---------------------------------------------------------------------------
  // Counting low-confidence words
  // ---------------------------------------------------------------------------

  /** One recognised word of a `-lowconf.txt` file, with the chapter the file belongs to. */
  datatype Entry = Entry(chapter: string, word: string, conf: real)

  /** An entry is counted when below the threshold, not blank, not punctuation and not a preserved term. */
  predicate Counted(e: Entry, threshold: real)
  {
    && e.conf < threshold
    && Strip(e.word) != ""
    && !IsPurePunctuation(e.word)
    && !IsPreservedTerm(e.word)
  }

  /** Lower-casing twice is lower-casing once. */
  lemma ToLowerIdempotent(word: string)
    ensures ToLower(ToLower(word)) == ToLower(word)
  {
    var once := ToLower(word);
    forall i | 0 <= i < |word|
      ensures ToLower(once)[i] == once[i]
    {
    }
  }

  /** Whether a word is a preserved term does not depend on its case. */
  lemma PreservedTermIgnoresCase(word: string)
    ensures IsPreservedTerm(word) <==> IsPreservedTerm(ToLower(word))
  {
    ToLowerIdempotent(word);
  }

  /**
   * A word made only of the garbage symbols is garbage, but it is also pure
   * punctuation, so it is filtered out before counting and never counted.
   */
  lemma SymbolGarbageNeverCounted(entries: seq<Entry>, threshold: real, word: string)
    requires AllOf(word, GarbageSymbol)
    ensures IsGarbage(word) && IsPurePunctuation(word)
    ensures CountOf(Kept(entries, threshold), word) == 0
  {
    assert forall i :: 0 <= i < |word| ==> InClass(word[i], Punctuation);
    var j := Run(word, 0, Punctuation);
    FilteredNeverCounted(entries, threshold, word);
  }

  /** The counted entries, in order: exactly the entries that pass the filters are kept. */
  function Kept(entries: seq<Entry>, threshold: real): (r: seq<Entry>)
    ensures |r| <= |entries|
    ensures forall e :: e in r <==> e in entries && Counted(e, threshold)
  {
    if entries == [] then []
    else
      var e := entries[|entries| - 1];
      assert entries == entries[..|entries| - 1] + [e];
      Kept(entries[..|entries| - 1], threshold) + if Counted(e, threshold) then [e] else []
  }

  /** The filter works piecewise, so the kept entries are in input order. */
  lemma {:induction false} KeptConcat(a: seq<Entry>, b: seq<Entry>, threshold: real)
    ensures Kept(a + b, threshold) == Kept(a, threshold) + Kept(b, threshold)
    decreases |b|
  {
    if b == [] {
      assert a + b == a;
    } else {
      var pre := b[..|b| - 1];
      assert (a + b)[..|a + b| - 1] == a + pre;
      KeptConcat(a, pre, threshold);
    }
  }

  /** How many of `entries` hold `word` and pass the filters. */
  function CountedWith(entries: seq<Entry>, threshold: real, word: string): nat
  {
    if entries == [] then 0
    else
      var e := entries[|entries| - 1];
      CountedWith(entries[..|entries| - 1], threshold, word) + if e.word == word && Counted(e, threshold) then 1 else 0
  }

  /** The count of a word is the number of input entries with that word that pass the filters. */
  lemma {:induction false} KeptCount(entries: seq<Entry>, threshold: real, word: string)
    ensures CountOf(Kept(entries, threshold), word) == CountedWith(entries, threshold, word)
    decreases |entries|
  {
    if entries != [] {
      var e := entries[|entries| - 1];
      var k := Kept(entries[..|entries| - 1], threshold);
      KeptCount(entries[..|entries| - 1], threshold, word);
      if Counted(e, threshold) {
        assert Kept(entries, threshold) == k + [e];
        assert (k + [e])[..|k|] == k;
      } else {
        assert Kept(entries, threshold) == k + [];
        assert k + [] == k;
      }
    }
  }

  /** How many of `kept` hold `word`. */
  function CountOf(kept: seq<Entry>, word: string): nat
  {
    if kept == [] then 0
    else CountOf(kept[..|kept| - 1], word) + if kept[|kept| - 1].word == word then 1 else 0
  }

  /** The confidences of those of `kept` that hold `word`, in order. */
  function ConfidencesOf(kept: seq<Entry>, word: string): seq<real>
  {
    if kept == [] then []
    else ConfidencesOf(kept[..|kept| - 1], word) + if kept[|kept| - 1].word == word then [kept[|kept| - 1].conf] else []
  }

  /** How many of `kept` come from `chapter`. */
  function ChapterCount(kept: seq<Entry>, chapter: string): nat
  {
    if kept == [] then 0
    else ChapterCount(kept[..|kept| - 1], chapter) + if kept[|kept| - 1].chapter == chapter then 1 else 0
  }

  /** One confidence per count, each one a confidence of a kept entry holding the word. */
  lemma {:induction false} ConfidencesMatchCount(kept: seq<Entry>, word: string)
    ensures |ConfidencesOf(kept, word)| == CountOf(kept, word)
    ensures forall c :: c in ConfidencesOf(kept, word) ==> exists e :: e in kept && e.word == word && e.conf == c
  {
    if kept != [] {
      ConfidencesMatchCount(kept[..|kept| - 1], word);
      forall e | e in kept[..|kept| - 1] ensures e in kept { }
    }
  }

  /** A word none of `kept` holds has no count. */
  lemma {:induction false} AbsentNotCounted(kept: seq<Entry>, word: string)
    requires forall e :: e in kept ==> e.word != word
    ensures CountOf(kept, word) == 0
  {
    if kept != [] {
      forall e | e in kept[..|kept| - 1] ensures e.word != word {
        assert e in kept;
      }
      AbsentNotCounted(kept[..|kept| - 1], word);
    }
  }

  /** Preserved terms (in any letter case), blanks and pure punctuation are never counted. */
  lemma FilteredNeverCounted(entries: seq<Entry>, threshold: real, word: string)
    requires IsPreservedTerm(word) || Strip(word) == "" || IsPurePunctuation(word)
    ensures CountOf(Kept(entries, threshold), word) == 0
  {
    AbsentNotCounted(Kept(entries, threshold), word);
  }

  /** Every recorded confidence lies below the threshold. */
  lemma ConfidencesBelowThreshold(entries: seq<Entry>, threshold: real, word: string)
    ensures forall c :: c in ConfidencesOf(Kept(entries, threshold), word) ==> c < threshold
  {
    ConfidencesMatchCount(Kept(entries, threshold), word);
  }

  /** `m` holds, under each word, how many kept entries hold it, and no other key. */
  ghost predicate WordCountsAre(m: map<string, nat>, kept: seq<Entry>)
  {
    forall w :: (w in m <==> CountOf(kept, w) > 0) && (w in m ==> m[w] == CountOf(kept, w))
  }

  /** `m` holds, under each counted word, the confidences of its kept entries, and no other key. */
  ghost predicate WordConfidencesAre(m: map<string, seq<real>>, kept: seq<Entry>)
  {
    forall w :: (w in m <==> CountOf(kept, w) > 0) && (w in m ==> m[w] == ConfidencesOf(kept, w))
  }

  /** `m` holds, under each chapter, how many kept entries come from it, and no other key. */
  ghost predicate ChapterStatsAre(m: map<string, nat>, kept: seq<Entry>)
  {
    forall c :: (c in m <==> ChapterCount(kept, c) > 0) && (c in m ==> m[c] == ChapterCount(kept, c))
  }

  /** `counter[key] += 1`. */
  function Increment(m: map<string, nat>, key: string): map<string, nat>
  {
    m[key := (if key in m then m[key] else 0) + 1]
  }

  /** One more entry is kept exactly when it is counted. */
  lemma KeptStep(entries: seq<Entry>, i: nat, threshold: real)
    requires i < |entries|
    ensures Kept(entries[..i + 1], threshold)
      == Kept(entries[..i], threshold) + if Counted(entries[i], threshold) then [entries[i]] else []
  {
    assert entries[..i + 1][..i] == entries[..i];
  }

  lemma WordCountsStep(m: map<string, nat>, kept: seq<Entry>, e: Entry)
    requires WordCountsAre(m, kept)
    ensures WordCountsAre(Increment(m, e.word), kept + [e])
  {
    assert (kept + [e])[..|kept|] == kept;
  }

  lemma WordConfidencesStep(m: map<string, seq<real>>, kept: seq<Entry>, e: Entry)
    requires WordConfidencesAre(m, kept)
    ensures WordConfidencesAre(m[e.word := (if e.word in m then m[e.word] else []) + [e.conf]], kept + [e])
  {
    assert (kept + [e])[..|kept|] == kept;
    ConfidencesMatchCount(kept, e.word);
  }

  lemma ChapterStatsStep(m: map<string, nat>, kept: seq<Entry>, e: Entry)
    requires ChapterStatsAre(m, kept)
    ensures ChapterStatsAre(Increment(m, e.chapter), kept + [e])
  {
    assert (kept + [e])[..|kept|] == kept;
  }

  /**
   * The filtering loop of `analyze_lowconf_words`: per-word counts, per-word
   * confidence lists and per-chapter counts of the counted entries; a key
   * is present exactly when something was counted under it.
   */
  method CountLowConfWords(entries: seq<Entry>, threshold: real)
    returns (wordCounts: map<string, nat>, wordConfidences: map<string, seq<real>>, chapterStats: map<string, nat>)
    ensures WordCountsAre(wordCounts, Kept(entries, threshold))
    ensures WordConfidencesAre(wordConfidences, Kept(entries, threshold))
    ensures ChapterStatsAre(chapterStats, Kept(entries, threshold))
  {
    wordCounts, wordConfidences, chapterStats := map[], map[], map[];
    var i := 0;
    while i < |entries|
      invariant i <= |entries|
      invariant WordCountsAre(wordCounts, Kept(entries[..i], threshold))
      invariant WordConfidencesAre(wordConfidences, Kept(entries[..i], threshold))
      invariant ChapterStatsAre(chapterStats, Kept(entries[..i], threshold))
    {
      var e := entries[i];
      KeptStep(entries, i, threshold);
      if Counted(e, threshold) {
        var kept := Kept(entries[..i], threshold);
        WordCountsStep(wordCounts, kept, e);
        WordConfidencesStep(wordConfidences, kept, e);
        ChapterStatsStep(chapterStats, kept, e);
        wordCounts := Increment(wordCounts, e.word);
        wordConfidences := wordConfidences[e.word :=
          (if e.word in wordConfidences then wordConfidences[e.word] else []) + [e.conf]];
        chapterStats := Increment(chapterStats, e.chapter);
      } else {
        assert Kept(entries[..i + 1], threshold) == Kept(entries[..i], threshold);
      }
      i := i + 1;
    }
    assert entries[..i] == entries;
  }

  // ---------------------------------------------------------------------------
  // The corrections file
  // ---------------------------------------------------------------------------

  /** Whether a counted word earns an entry in the corrections file. */
  predicate Selected(wordCounts: map<string, nat>, minOccurrences: int, w: string)
  {
    w in wordCounts && wordCounts[w] >= minOccurrences && SuggestCorrection(w).Some?
  }

  /**
   * `generate_corrections_json`: every word seen at least `minOccurrences`
   * times that has a suggestion, mapped to it; `wordCount` is the number of
   * distinct counted words, `correctionsCount` the number of corrections.
   */
  method GenerateCorrections(wordCounts: map<string, nat>, minOccurrences: int)
    returns (corrections: map<string, string>, wordCount: nat, correctionsCount: nat)
    ensures forall w :: w in corrections <==> Selected(wordCounts, minOccurrences, w)
    ensures forall w :: w in corrections ==> SuggestCorrection(w) == Some(corrections[w])
    ensures wordCount == |wordCounts|
    ensures correctionsCount == |corrections|
  {
    corrections := map[];
    var remaining := wordCounts.Keys;
    while remaining != {}
      invariant remaining <= wordCounts.Keys
      invariant forall w :: w in corrections <==> w !in remaining && Selected(wordCounts, minOccurrences, w)
      invariant forall w :: w in corrections ==> SuggestCorrection(w) == Some(corrections[w])
      decreases remaining
    {
      var word :| word in remaining;
      remaining := remaining - {word};
      if wordCounts[word] >= minOccurrences {
        var suggestion := SuggestCorrection(word);
        if suggestion.Some? {
          corrections := corrections[word := suggestion.value];
        }
      }
    }
    wordCount := |wordCounts|;
    correctionsCount := |corrections|;
  }
}
