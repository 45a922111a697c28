/**
 * The keyword emotion classifier of `emotion_analyzer.py`: text normalisation,
 * keyword scoring with a first-declared-wins argmax, the polarity fallback, and the
 * opposite-emotion and search-term tables.
 */
module EmotionAnalyzer {
  import opened Wrappers
  import opened Strings

  // ---------------------------------------------------------------------------
  // Tables (EmotionAnalyzer.__init__)
  // ---------------------------------------------------------------------------

  /** One row of the keyword table: an emotion and the keywords that signal it. */
  datatype KeywordEntry = KeywordEntry(emotion: string, keywords: seq<string>)

  /** The keyword table, in declaration order (which decides ties). */
  const EmotionKeywords: seq<KeywordEntry> := [
    KeywordEntry("sad", ["sad", "depressed", "down", "blue", "melancholy", "gloomy", "dejected", "miserable"]),
    KeywordEntry("angry", ["angry", "mad", "furious", "rage", "irritated", "annoyed", "frustrated", "enraged"]),
    KeywordEntry("anxious", ["anxious", "worried", "nervous", "stressed", "panic", "fear", "scared", "overwhelmed"]),
    KeywordEntry("lonely", ["lonely", "isolated", "alone", "abandoned", "rejected", "excluded"]),
    KeywordEntry("tired", ["tired", "exhausted", "drained", "weary", "fatigued", "worn out"]),
    KeywordEntry("confused", ["confused", "lost", "uncertain", "puzzled", "bewildered", "perplexed"]),
    KeywordEntry("disappointed", ["disappointed", "let down", "discouraged", "disillusioned"]),
    KeywordEntry("guilty", ["guilty", "ashamed", "regretful", "remorseful"])
  ]

  /** The classifier's opposite-emotion table. */
  const OppositeEmotions: map<string, string> := map[
    "sad" := "happy",
    "angry" := "calm",
    "anxious" := "relaxed",
    "lonely" := "connected",
    "tired" := "energized",
    "confused" := "clear",
    "disappointed" := "hopeful",
    "guilty" := "forgiven",
    "negative" := "positive",
    "neutral" := "uplifted"
  ]

  /** Search terms for each opposite emotion. */
  const GiphyTerms: map<string, seq<string>> := map[
    "happy" := ["happy", "joy", "celebration", "smile", "laughter", "fun"],
    "calm" := ["calm", "peaceful", "zen", "meditation", "tranquil", "serene"],
    "relaxed" := ["relaxed", "chill", "peaceful", "zen", "breathing"],
    "connected" := ["friendship", "love", "together", "connection", "hug"],
    "energized" := ["energy", "power", "motivation", "excited", "pumped up"],
    "clear" := ["clarity", "understanding", "lightbulb", "eureka", "solution"],
    "hopeful" := ["hope", "optimism", "bright future", "possibility", "dreams"],
    "forgiven" := ["forgiveness", "peace", "self love", "acceptance", "healing"],
    "positive" := ["positive", "good vibes", "optimism", "sunshine", "rainbow"],
    "uplifted" := ["uplifting", "inspiration", "motivation", "encouragement"]
  ]

  const DefaultSearchTerms: seq<string> := ["happy", "positive", "good vibes"]

  // ---------------------------------------------------------------------------
  // Normalisation (_preprocess_text)
  // ---------------------------------------------------------------------------

  /** Every whitespace character is a plain space and no two of them are adjacent. */
  predicate Collapsed(s: string) {
    && (forall i :: 0 <= i < |s| && IsPySpace(s[i]) ==> s[i] == ' ')
    && (forall i :: 0 <= i < |s| - 1 ==> !(IsPySpace(s[i]) && IsPySpace(s[i + 1])))
  }

  /** The shape `_preprocess_text` promises: lower case, collapsed, trimmed. */
  predicate Normalized(s: string) {
    NoUpper(s) && Collapsed(s) && (s == [] || (!IsPySpace(s[0]) && !IsPySpace(s[|s| - 1])))
  }

  /** `re.sub(r'\s+', ' ', s)`: every maximal run of whitespace becomes one space. */
  function CollapseSpaces(s: string): string
    decreases |s|
  {
    if s == [] then []
    else if IsPySpace(s[0]) then [' '] + CollapseSpaces(DropLeadingSpaces(s, IsPySpace))
    else [s[0]] + CollapseSpaces(s[1..])
  }

  /**
   * The collapsed text has only plain spaces for whitespace and never two in a row; it is
   * empty exactly when the input is, starts with whitespace exactly when the input does,
   * and adds no upper-case letter.
   */
  lemma {:induction false} CollapseSpacesShape(s: string)
    ensures var r := CollapseSpaces(s);
      && Collapsed(r)
      && (r == [] <==> s == [])
      && (r != [] ==> (IsPySpace(r[0]) <==> IsPySpace(s[0])))
      && (NoUpper(s) ==> NoUpper(r))
    decreases |s|
  {
    if s != [] {
      var rest := if IsPySpace(s[0]) then DropLeadingSpaces(s, IsPySpace) else s[1..];
      CollapseSpacesShape(rest);
      var tail := CollapseSpaces(rest);
      assert NoUpper(s) ==> NoUpper(rest) by {
        if NoUpper(s) {
          forall i | 0 <= i < |rest| ensures !IsUpper(rest[i]) { assert rest[i] == s[|s| - |rest| + i]; }
        }
      }
      var r := CollapseSpaces(s);
      var c := if IsPySpace(s[0]) then ' ' else s[0];
      assert r == [c] + tail;
      assert IsPySpace(s[0]) ==> tail == [] || !IsPySpace(tail[0]);
      forall i | 0 <= i < |r| - 1 ensures !(IsPySpace(r[i]) && IsPySpace(r[i + 1])) {
        if i > 0 {
          assert r[i] == tail[i - 1] && r[i + 1] == tail[i];
        }
      }
      forall i | 0 <= i < |r| && IsPySpace(r[i]) ensures r[i] == ' ' {
        if i > 0 {
          assert r[i] == tail[i - 1];
        }
      }
      forall i | 0 <= i < |r| && NoUpper(s) ensures !IsUpper(r[i]) {
        if i > 0 {
          assert r[i] == tail[i - 1];
        }
      }
    }
  }

  /** `_preprocess_text`: lower-case, collapse whitespace runs, strip. */
  function Preprocess(text: string): (r: string)
    ensures Normalized(r)
  {
    PreprocessShape(text);
    Strip(CollapseSpaces(Lower(text)), IsPySpace)
  }

  lemma PreprocessShape(text: string)
    ensures Normalized(Strip(CollapseSpaces(Lower(text)), IsPySpace))
  {
    var l := Lower(text);
    assert NoUpper(l);
    var c := CollapseSpaces(l);
    CollapseSpacesShape(l);
    var r := Strip(c, IsPySpace);
    StripShape(c, IsPySpace);
    PieceKeepsShape(c, r);
  }

  /** A contiguous piece of a collapsed lower-case string is collapsed and lower-case. */
  lemma PieceKeepsShape(c: string, r: string)
    requires exists a :: OccursAt(c, r, a)
    requires Collapsed(c) && NoUpper(c)
    ensures Collapsed(r) && NoUpper(r)
  {
    var a :| OccursAt(c, r, a);
    forall i | 0 <= i < |r| ensures r[i] == c[a + i] {
      assert c[a..a + |r|][i] == c[a + i];
    }
  }

  /** Dropping the first character keeps a string collapsed. */
  lemma CollapsedTail(s: string)
    requires s != [] && Collapsed(s)
    ensures Collapsed(s[1..])
  {
    var t := s[1..];
    forall i | 0 <= i < |t| && IsPySpace(t[i]) ensures t[i] == ' ' { assert t[i] == s[i + 1]; }
    forall i | 0 <= i < |t| - 1 ensures !(IsPySpace(t[i]) && IsPySpace(t[i + 1])) {
      assert t[i] == s[i + 1] && t[i + 1] == s[i + 2];
    }
  }

  lemma {:induction false} CollapseFixpoint(s: string)
    requires Collapsed(s)
    ensures CollapseSpaces(s) == s
    decreases |s|
  {
    if s != [] {
      var t := s[1..];
      assert CollapseSpaces(t) == t by {
        CollapsedTail(s);
        CollapseFixpoint(t);
      }
      if IsPySpace(s[0]) {
        assert DropLeadingSpaces(s, IsPySpace) == t by {
          assert t == [] || !IsPySpace(t[0]) by {
            if t != [] {
              assert !(IsPySpace(s[0]) && IsPySpace(s[1]));
            }
          }
        }
        assert s == [' '] + t;
      } else {
        assert s == [s[0]] + t;
      }
    }
  }

  /** A normalised string is left as it is. */
  lemma NormalizedFixpoint(s: string)
    requires Normalized(s)
    ensures Preprocess(s) == s
  {
    assert Lower(s) == s;
    CollapseFixpoint(s);
    assert DropLeadingSpaces(s, IsPySpace) == s;
    assert DropTrailingSpaces(s, IsPySpace) == s;
  }

  /** Normalising twice is normalising once. */
  lemma PreprocessIdempotent(text: string)
    ensures Preprocess(Preprocess(text)) == Preprocess(text)
  {
    NormalizedFixpoint(Preprocess(text));
  }

  // ---------------------------------------------------------------------------
  // What normalisation keeps: `' '.join(text.lower().split())`
  // ---------------------------------------------------------------------------

  /** A word of `str.split()`: a non-empty run of non-whitespace characters. */
  predicate IsWord(w: string) {
    w != [] && forall i :: 0 <= i < |w| ==> !IsPySpace(w[i])
  }

  /** The longest prefix of `s` without whitespace. */
  function LeadingWord(s: string): (w: string)
    ensures |w| <= |s| && w == s[..|w|]
    ensures forall i :: 0 <= i < |w| ==> !IsPySpace(w[i])
    ensures |w| == |s| || IsPySpace(s[|w|])
    ensures s != [] && !IsPySpace(s[0]) ==> w != []
    decreases |s|
  {
    if s == [] || IsPySpace(s[0]) then [] else [s[0]] + LeadingWord(s[1..])
  }

  /** `str.split()` with no separator: the maximal runs of non-whitespace, in order. */
  function Split(s: string): (words: seq<string>)
    decreases |s|
  {
    var t := DropLeadingSpaces(s, IsPySpace);
    if t == [] then []
    else
      var w := LeadingWord(t);
      [w] + Split(t[|w|..])
  }

  /** Every piece `Split` returns is a word. */
  lemma {:induction false} SplitGivesWords(s: string)
    ensures forall k :: 0 <= k < |Split(s)| ==> IsWord(Split(s)[k])
    decreases |s|
  {
    var t := DropLeadingSpaces(s, IsPySpace);
    if t != [] {
      var w := LeadingWord(t);
      SplitGivesWords(t[|w|..]);
      assert IsWord(w) by {
        assert !IsPySpace(t[0]);
      }
      var words := Split(s);
      assert words == [w] + Split(t[|w|..]);
      forall k | 0 <= k < |words| ensures IsWord(words[k]) {
        if k > 0 {
          assert words[k] == Split(t[|w|..])[k - 1];
        }
      }
    }
  }

  /** `' '.join(words)`. */
  function JoinWithSpaces(words: seq<string>): string {
    if words == [] then []
    else if |words| == 1 then words[0]
    else words[0] + " " + JoinWithSpaces(words[1..])
  }

  /** Joined words neither start nor end with whitespace, and are empty only for no words. */
  lemma {:induction false} JoinedEnds(words: seq<string>)
    requires forall k :: 0 <= k < |words| ==> IsWord(words[k])
    ensures var j := JoinWithSpaces(words);
      (j == [] <==> words == []) && (j != [] ==> !IsPySpace(j[0]) && !IsPySpace(j[|j| - 1]))
  {
    if |words| > 1 {
      JoinedEnds(words[1..]);
      assert IsWord(words[0]);
    } else if |words| == 1 {
      assert IsWord(words[0]);
    }
  }

  /** Leading whitespace does not change the split. */
  lemma SplitSkipsLeading(s: string)
    ensures Split(s) == Split(DropLeadingSpaces(s, IsPySpace))
  {
    var t := DropLeadingSpaces(s, IsPySpace);
    assert DropLeadingSpaces(t, IsPySpace) == t;
  }

  /** Regrouping a three-part concatenation. */
  lemma Regroup(a: string, b: string, c: string)
    ensures a + (b + c) == a + b + c
  {
  }

  /** Collapsing a word followed by more text keeps the word. */
  lemma {:induction false} CollapseKeepsWord(w: string, rest: string)
    requires forall i :: 0 <= i < |w| ==> !IsPySpace(w[i])
    ensures CollapseSpaces(w + rest) == w + CollapseSpaces(rest)
    decreases |w|
  {
    if w == [] {
      assert w + rest == rest;
    } else {
      var x := w + rest;
      var c := CollapseSpaces(rest);
      assert CollapseSpaces(x) == [w[0]] + CollapseSpaces(w[1..] + rest) by {
        assert x[0] == w[0];
        assert x[1..] == w[1..] + rest;
      }
      assert CollapseSpaces(w[1..] + rest) == w[1..] + c by {
        assert forall i :: 0 <= i < |w[1..]| ==> w[1..][i] == w[i + 1];
        CollapseKeepsWord(w[1..], rest);
      }
      assert [w[0]] + (w[1..] + c) == w + c by {
        assert [w[0]] + w[1..] == w;
        Regroup([w[0]], w[1..], c);
      }
    }
  }

  /** One space when `s` ends in whitespace. */
  function TrailingSpace(s: string): string {
    if s != [] && IsPySpace(s[|s| - 1]) then " " else ""
  }

  /** A non-empty suffix ends where the whole string ends. */
  lemma TrailingOfSuffix(s: string, t: string)
    requires t != [] && |t| <= |s| && t == s[|s| - |t|..]
    ensures TrailingSpace(s) == TrailingSpace(t)
  {
    assert s[|s| - 1] == t[|t| - 1];
  }

  /** From a non-whitespace start, the first word is split off first. */
  lemma SplitFromWord(s: string)
    requires s != [] && !IsPySpace(s[0])
    ensures Split(s) == [LeadingWord(s)] + Split(s[|LeadingWord(s)|..])
  {
    assert DropLeadingSpaces(s, IsPySpace) == s;
  }

  /** `' '.join([w] + words)` for at least one further word. */
  lemma JoinCons(w: string, words: seq<string>)
    requires words != []
    ensures JoinWithSpaces([w] + words) == w + " " + JoinWithSpaces(words)
  {
    assert ([w] + words)[1..] == words;
  }

  /** What follows the first word of `s`, with the whitespace after that word dropped. */
  function AfterWord(s: string): (t: string)
    requires s != []
    ensures |t| < |s| && t == s[|s| - |t|..]
  {
    var w := LeadingWord(s);
    DropLeadingSpaces(s[|w|..], IsPySpace)
  }

  /** A non-whitespace start: the first word is split off and the whitespace after it skipped. */
  lemma SplitWordStep(s: string)
    requires s != [] && !IsPySpace(s[0])
    ensures Split(s) == [LeadingWord(s)] + Split(AfterWord(s))
  {
    var w := LeadingWord(s);
    var rest := s[|w|..];
    assert Split(s) == [w] + Split(rest) by {
      SplitFromWord(s);
    }
    assert Split(rest) == Split(AfterWord(s)) by {
      SplitSkipsLeading(rest);
    }
  }

  /** A non-whitespace start: the first word, then the collapsed rest with its leading run as one space. */
  lemma CollapseWordStep(s: string)
    requires s != [] && !IsPySpace(s[0])
    ensures |LeadingWord(s)| == |s| ==> CollapseSpaces(s) == LeadingWord(s) && TrailingSpace(s) == ""
    ensures |LeadingWord(s)| < |s| ==> CollapseSpaces(s) == LeadingWord(s) + " " + CollapseSpaces(AfterWord(s))
  {
    var w := LeadingWord(s);
    var rest := s[|w|..];
    assert s == w + rest;
    assert CollapseSpaces(s) == w + CollapseSpaces(rest) by {
      CollapseKeepsWord(w, rest);
    }
    if rest == [] {
      assert TrailingSpace(s) == "" by {
        assert s[|s| - 1] == w[|w| - 1];
      }
    } else {
      var t := AfterWord(s);
      assert CollapseSpaces(rest) == " " + CollapseSpaces(t) by {
        assert IsPySpace(rest[0]);
      }
      Regroup(w, " ", CollapseSpaces(t));
    }
  }

  /** Whitespace after the first word with nothing beyond it is one trailing space. */
  lemma TrailingAfterWord(s: string)
    requires s != [] && !IsPySpace(s[0])
    requires |LeadingWord(s)| < |s| && AfterWord(s) == []
    ensures TrailingSpace(s) == " "
  {
    var rest := s[|LeadingWord(s)|..];
    assert DropLeadingSpaces(rest, IsPySpace) == [];
    assert IsPySpace(rest[|rest| - 1]) by {
      DroppedLeadingAreSpaces(rest, IsPySpace);
    }
    assert s[|s| - 1] == rest[|rest| - 1];
  }

  /** A single word, possibly followed by whitespace. */
  lemma CollapseLastWord(s: string)
    requires s != [] && !IsPySpace(s[0]) && AfterWord(s) == []
    ensures CollapseSpaces(s) == JoinWithSpaces(Split(s)) + TrailingSpace(s)
  {
    var w := LeadingWord(s);
    assert Split(s) == [w] by {
      SplitWordStep(s);
      assert Split(AfterWord(s)) == [];
    }
    assert CollapseSpaces(s) == w + TrailingSpace(s) by {
      CollapseWordStep(s);
      if |w| < |s| {
        TrailingAfterWord(s);
      }
    }
  }

  /** A word followed by whitespace and further words, given the claim for what follows. */
  lemma CollapseFollowingWord(s: string)
    requires s != [] && !IsPySpace(s[0]) && AfterWord(s) != []
    requires var t := AfterWord(s); CollapseSpaces(t) == JoinWithSpaces(Split(t)) + TrailingSpace(t)
    ensures CollapseSpaces(s) == JoinWithSpaces(Split(s)) + TrailingSpace(s)
  {
    var w := LeadingWord(s);
    var t := AfterWord(s);
    var words := Split(t);
    var j := JoinWithSpaces(words);
    assert Split(s) == [w] + words by {
      SplitWordStep(s);
    }
    assert words != [] by {
      SplitFromWord(t);
    }
    assert TrailingSpace(s) == TrailingSpace(t) by {
      TrailingOfSuffix(s, t);
    }
    assert JoinWithSpaces(Split(s)) == w + " " + j by {
      JoinCons(w, words);
    }
    assert CollapseSpaces(s) == w + " " + j + TrailingSpace(t) by {
      assert |w| < |s|;
      CollapseWordStep(s);
      Regroup(w + " ", j, TrailingSpace(t));
    }
  }

  /** From a non-whitespace start, collapsing gives the joined words and one space for trailing whitespace. */
  lemma {:induction false} CollapseFromWord(s: string)
    requires s == [] || !IsPySpace(s[0])
    ensures CollapseSpaces(s) == JoinWithSpaces(Split(s)) + TrailingSpace(s)
    decreases |s|
  {
    if s != [] {
      if AfterWord(s) == [] {
        CollapseLastWord(s);
      } else {
        CollapseFromWord(AfterWord(s));
        CollapseFollowingWord(s);
      }
    }
  }

  /** Whitespace only: the run becomes one space and there are no words. */
  lemma CollapseOnlySpaces(s: string)
    requires s != [] && IsPySpace(s[0]) && DropLeadingSpaces(s, IsPySpace) == []
    ensures Split(s) == [] && CollapseSpaces(s) == " "
  {
  }

  /** Leading whitespace, then words: one space, the joined words, one space for trailing whitespace. */
  lemma CollapseSpacesThenWord(s: string)
    requires s != [] && IsPySpace(s[0]) && DropLeadingSpaces(s, IsPySpace) != []
    ensures Split(s) != []
    ensures CollapseSpaces(s) == " " + JoinWithSpaces(Split(s)) + TrailingSpace(s)
  {
    var t := DropLeadingSpaces(s, IsPySpace);
    var j := JoinWithSpaces(Split(t));
    assert Split(s) == Split(t) by {
      SplitSkipsLeading(s);
    }
    assert Split(t) != [] by {
      SplitFromWord(t);
    }
    assert TrailingSpace(s) == TrailingSpace(t) by {
      TrailingOfSuffix(s, t);
    }
    assert CollapseSpaces(s) == " " + j + TrailingSpace(t) by {
      assert CollapseSpaces(s) == " " + CollapseSpaces(t);
      CollapseFromWord(t);
      Regroup(" ", j, TrailingSpace(t));
    }
  }

  /**
   * `re.sub(r'\s+', ' ', s)` in words: the words of `s` joined by single spaces, with one
   * space kept for leading and one for trailing whitespace (a single space when `s` is
   * non-empty whitespace only).
   */
  lemma CollapseSpacesWords(s: string)
    ensures Split(s) == [] ==> CollapseSpaces(s) == (if s == [] then "" else " ")
    ensures Split(s) != [] ==>
      CollapseSpaces(s) == (if IsPySpace(s[0]) then " " else "") + JoinWithSpaces(Split(s)) + TrailingSpace(s)
  {
    if s == [] {
    } else if IsPySpace(s[0]) {
      if DropLeadingSpaces(s, IsPySpace) == [] {
        CollapseOnlySpaces(s);
      } else {
        CollapseSpacesThenWord(s);
      }
    } else {
      assert Split(s) != [] by {
        SplitFromWord(s);
      }
      CollapseFromWord(s);
      assert "" + JoinWithSpaces(Split(s)) == JoinWithSpaces(Split(s));
    }
  }

  /** At most one space before a non-whitespace start is all that stripping drops at the front. */
  lemma DropLeadingPad(before: string, y: string)
    requires before == "" || before == " "
    requires y != [] && !IsPySpace(y[0])
    ensures DropLeadingSpaces(before + y, IsPySpace) == y
  {
    if before == " " {
      assert (before + y)[1..] == y;
    } else {
      assert before + y == y;
    }
  }

  /** At most one space after a non-whitespace end is all that stripping drops at the back. */
  lemma DropTrailingPad(j: string, after: string)
    requires j != [] && !IsPySpace(j[|j| - 1])
    requires after == "" || after == " "
    ensures DropTrailingSpaces(j + after, IsPySpace) == j
  {
    assert DropTrailingSpaces(j, IsPySpace) == j;
    if after == " " {
      assert (j + after)[..|j|] == j;
    } else {
      assert j + after == j;
    }
  }

  /** Stripping a piece with non-whitespace ends, padded by at most one space each side, gives the piece. */
  lemma StripPadded(j: string, before: string, after: string)
    requires j != [] && !IsPySpace(j[0]) && !IsPySpace(j[|j| - 1])
    requires before == "" || before == " "
    requires after == "" || after == " "
    ensures Strip(before + j + after, IsPySpace) == j
  {
    assert before + j + after == before + (j + after);
    DropLeadingPad(before, j + after);
    DropTrailingPad(j, after);
  }

  /** No words: collapsing leaves at most one space, and stripping removes it. */
  lemma StripCollapsedNoWords(s: string)
    requires Split(s) == []
    ensures Strip(CollapseSpaces(s), IsPySpace) == []
  {
    var c := CollapseSpaces(s);
    assert c == "" || c == " " by {
      CollapseSpacesWords(s);
    }
  }

  /** Joined words start and end with non-whitespace. */
  lemma JoinedSplitEnds(s: string)
    requires Split(s) != []
    ensures var j := JoinWithSpaces(Split(s)); j != [] && !IsPySpace(j[0]) && !IsPySpace(j[|j| - 1])
  {
    SplitGivesWords(s);
    JoinedEnds(Split(s));
  }

  /** Some words: stripping removes exactly the spaces kept for leading and trailing whitespace. */
  lemma StripCollapsedSomeWords(s: string)
    requires Split(s) != []
    ensures Strip(CollapseSpaces(s), IsPySpace) == JoinWithSpaces(Split(s))
  {
    CollapseSpacesWords(s);
    JoinedSplitEnds(s);
    StripPadded(JoinWithSpaces(Split(s)), if IsPySpace(s[0]) then " " else "", TrailingSpace(s));
  }

  /** Collapsing then stripping is `' '.join(s.split())`. */
  lemma StripCollapsedWords(s: string)
    ensures Strip(CollapseSpaces(s), IsPySpace) == JoinWithSpaces(Split(s))
  {
    if Split(s) == [] {
      StripCollapsedNoWords(s);
    } else {
      StripCollapsedSomeWords(s);
    }
  }

  /** `_preprocess_text` is `' '.join(text.lower().split())`: the lower-cased words, single-spaced. */
  lemma PreprocessJoinsWords(text: string)
    ensures Preprocess(text) == JoinWithSpaces(Split(Lower(text)))
  {
    StripCollapsedWords(Lower(text));
  }

  // ---------------------------------------------------------------------------
  // Keyword scoring (_detect_emotion_keywords)
  // ---------------------------------------------------------------------------

  /** `f" {s} "`: the string padded with one space on each side. */
  function Padded(s: string): string { " " + s + " " }

  /** A space-delimited occurrence is in particular a substring occurrence. */
  lemma DelimitedImpliesSubstring(text: string, keyword: string)
    ensures Contains(Padded(text), Padded(keyword)) ==> Contains(text, keyword)
  {
    if Contains(Padded(text), Padded(keyword)) {
      var i :| OccursAt(Padded(text), Padded(keyword), i);
      forall j | 0 <= j < |keyword| ensures text[i + j] == keyword[j] {
        assert Padded(text)[i..i + |Padded(keyword)|][j + 1] == Padded(keyword)[j + 1];
      }
      assert text[i..i + |keyword|] == keyword;
      assert OccursAt(text, keyword, i);
    }
  }

  /** What one keyword adds to its emotion's score. */
  function KeywordHit(keyword: string, text: string): (r: nat)
    ensures r == 2 <==> Contains(Padded(text), Padded(keyword))
    ensures r == 1 <==> Contains(text, keyword) && !Contains(Padded(text), Padded(keyword))
    ensures r == 0 <==> !Contains(text, keyword)
  {
    DelimitedImpliesSubstring(text, keyword);
    if Contains(text, keyword) then
      if Contains(Padded(text), Padded(keyword)) then 2 else 1
    else 0
  }

  /** The score of a keyword list: the sum of its keywords' hits. */
  function KeywordScore(keywords: seq<string>, text: string): (r: nat)
    ensures r <= 2 * |keywords|
    decreases |keywords|
  {
    if keywords == [] then 0
    else KeywordScore(keywords[..|keywords| - 1], text) + KeywordHit(keywords[|keywords| - 1], text)
  }

  /** Every keyword's hit is part of its list's score. */
  lemma {:induction false} ScoreCoversKeyword(keywords: seq<string>, text: string, k: nat)
    requires k < |keywords|
    ensures KeywordScore(keywords, text) >= KeywordHit(keywords[k], text)
    decreases |keywords|
  {
    if k < |keywords| - 1 {
      ScoreCoversKeyword(keywords[..|keywords| - 1], text, k);
    }
  }

  /** The score of every emotion, in table order (the `emotion_scores` dict). */
  function Scores(text: string): (s: seq<nat>)
    ensures |s| == |EmotionKeywords|
    ensures forall i :: 0 <= i < |s| ==> s[i] <= 2 * |EmotionKeywords[i].keywords|
  {
    seq(|EmotionKeywords|, i requires 0 <= i < |EmotionKeywords| => KeywordScore(EmotionKeywords[i].keywords, text))
  }

  /** A keyword found space-delimited gives its emotion a score of at least 2. */
  lemma DelimitedKeywordScoresTwo(text: string, e: nat, k: nat)
    requires e < |EmotionKeywords| && k < |EmotionKeywords[e].keywords|
    requires Contains(Padded(text), Padded(EmotionKeywords[e].keywords[k]))
    ensures Scores(text)[e] >= 2
  {
    ScoreCoversKeyword(EmotionKeywords[e].keywords, text, k);
  }

  /** `k` holds a maximal score and no earlier index holds that score. */
  predicate IsFirstMax(s: seq<nat>, k: int) {
    && 0 <= k < |s|
    && (forall i :: 0 <= i < |s| ==> s[i] <= s[k])
    && (forall i :: 0 <= i < k ==> s[i] < s[k])
  }

  /** Python's `max(d, key=d.get)`: a scan that replaces the best only on a strictly larger value. */
  function FirstMax(s: seq<nat>): (k: nat)
    requires |s| > 0
    ensures IsFirstMax(s, k)
    decreases |s|
  {
    if |s| == 1 then 0
    else
      var k := FirstMax(s[..|s| - 1]);
      assert forall i :: 0 <= i < |s| - 1 ==> s[..|s| - 1][i] == s[i];
      if s[|s| - 1] > s[k] then |s| - 1 else k
  }

  /** The keyword verdict: `'neutral'` when nothing scores, else the first emotion with the top score. */
  function KeywordEmotion(text: string): (e: string)
    ensures e == "neutral" <==> forall i :: 0 <= i < |EmotionKeywords| ==> Scores(text)[i] == 0
    ensures e != "neutral" ==>
      exists k :: 0 <= k < |EmotionKeywords| && e == EmotionKeywords[k].emotion && IsFirstMax(Scores(text), k)
  {
    var s := Scores(text);
    var k := FirstMax(s);
    if s[k] > 0 then EmotionKeywords[k].emotion else "neutral"
  }

  /** The inner loop of `_detect_emotion_keywords`: one emotion's score over its keywords. */
  method ScoreKeywords(keywords: seq<string>, text: string) returns (score: nat)
    ensures score == KeywordScore(keywords, text)
  {
    score := 0;
    var j := 0;
    while j < |keywords|
      invariant 0 <= j <= |keywords|
      invariant score == KeywordScore(keywords[..j], text)
    {
      var keyword := keywords[j];
      if Contains(text, keyword) {
        if Contains(Padded(text), Padded(keyword)) {
          score := score + 2;
        } else {
          score := score + 1;
        }
      }
      assert keywords[..j + 1][..j] == keywords[..j];
      j := j + 1;
    }
    assert keywords[..j] == keywords;
  }

  /** `_detect_emotion_keywords`: fill the score table in table order, then the first maximum wins. */
  method DetectEmotionKeywords(text: string) returns (emotion: string)
    ensures emotion == KeywordEmotion(text)
  {
    var scores: seq<nat> := [];
    var e := 0;
    while e < |EmotionKeywords|
      invariant 0 <= e <= |EmotionKeywords|
      invariant |scores| == e
      invariant forall i :: 0 <= i < e ==> scores[i] == KeywordScore(EmotionKeywords[i].keywords, text)
    {
      var score := ScoreKeywords(EmotionKeywords[e].keywords, text);
      scores := scores + [score];
      e := e + 1;
    }
    assert scores == Scores(text);
    // `max(emotion_scores.values()) > 0` and `max(emotion_scores, key=emotion_scores.get)`
    var best := FirstMax(scores);
    if scores[best] > 0 {
      emotion := EmotionKeywords[best].emotion;
    } else {
      emotion := "neutral";
    }
  }

  // ---------------------------------------------------------------------------
  // Decision and lookups (analyze, get_giphy_search_terms)
  // ---------------------------------------------------------------------------

  /** The polarity fallback: only a `'neutral'` keyword verdict is overridden. */
  function ResolveEmotion(keywordEmotion: string, polarity: real): (e: string)
    ensures keywordEmotion != "neutral" ==> e == keywordEmotion
    ensures keywordEmotion == "neutral" ==>
      && (e == "negative" <==> polarity < -0.1)
      && (e == "positive" <==> polarity > 0.1)
      && (e == "neutral" <==> -0.1 <= polarity <= 0.1)
  {
    if keywordEmotion == "neutral" then
      if polarity < -0.1 then "negative"
      else if polarity > 0.1 then "positive"
      else "neutral"
    else keywordEmotion
  }

  /** `opposite_emotions.get(label, 'positive')`: total, and always a key of the search-term table. */
  function OppositeOf(emotion: string): (r: string)
    ensures emotion in OppositeEmotions ==> r == OppositeEmotions[emotion]
    ensures emotion !in OppositeEmotions ==> r == "positive"
    ensures r in GiphyTerms
  {
    if emotion in OppositeEmotions then OppositeEmotions[emotion] else "positive"
  }

  /** `get_giphy_search_terms`: the opposite's terms, or the generic default list; never empty. */
  function GetGiphySearchTerms(emotion: string): (r: seq<string>)
    ensures emotion in GiphyTerms ==> r == GiphyTerms[emotion]
    ensures emotion !in GiphyTerms ==> r == DefaultSearchTerms
    ensures |r| > 0
  {
    if emotion in GiphyTerms then GiphyTerms[emotion] else DefaultSearchTerms
  }

  /** The search-term default is never reached for an opposite the analyser produces. */
  lemma AnalyzerOppositeHasTerms(emotion: string)
    ensures GetGiphySearchTerms(OppositeOf(emotion)) == GiphyTerms[OppositeOf(emotion)]
  {
  }

  /** The classification result returned by `analyze`. */
  datatype Analysis = Analysis(emotion: string, sentimentScore: real, oppositeEmotion: string, confidence: real)

  /** The result of the fault path. */
  const FaultAnalysis := Analysis("neutral", 0.0, "positive", 0.0)

  function Abs(x: real): (r: real)
    ensures r >= 0.0 && (r == x || r == -x)
  {
    if x < 0.0 then -x else x
  }

  /**
   * `analyze`. `polarity` is the sentiment polarity of the normalised text as the
   * lexicon library reports it, or `None` when computing it raised.
   */
  method Analyze(text: string, polarity: Option<real>) returns (r: Analysis)
    ensures polarity.None? ==> r == FaultAnalysis
    ensures polarity.Some? ==>
      && r.sentimentScore == polarity.value
      && r.emotion == ResolveEmotion(KeywordEmotion(Preprocess(text)), polarity.value)
      && r.oppositeEmotion == OppositeOf(r.emotion)
      && r.confidence == Abs(r.sentimentScore)
    ensures r.confidence >= 0.0 && r.oppositeEmotion in GiphyTerms
  {
    if polarity.None? {
      return FaultAnalysis;
    }
    var cleaned := Preprocess(text);
    var score := polarity.value;
    var keywordEmotion := DetectEmotionKeywords(cleaned);
    var detected := keywordEmotion;
    if detected == "neutral" {
      if score < -0.1 {
        detected := "negative";
      } else if score > 0.1 {
        detected := "positive";
      }
    }
    assert detected == ResolveEmotion(keywordEmotion, score);
    var opposite := OppositeOf(detected);
    r := Analysis(detected, score, opposite, Abs(score));
  }
}
