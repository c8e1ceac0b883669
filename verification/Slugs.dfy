/** Slugs of spaces, buildings and tenants: normalisation of a name, and the search for a free one. */
module Slugs {

  // ----- Decimal suffixes ---------------------------------------------------------------------

  function Digit(n: nat): (c: char)
    requires n < 10
    ensures '0' <= c <= '9'
  {
    ['0', '1', '2', '3', '4', '5', '6', '7', '8', '9'][n]
  }

  function Decimal(n: nat): (s: string)
    ensures s != [] && forall k :: 0 <= k < |s| ==> '0' <= s[k] <= '9'
  {
    if n < 10 then [Digit(n)] else Decimal(n / 10) + [Digit(n % 10)]
  }

  function DigitValue(c: char): int {
    c as int - '0' as int
  }

  function Value(s: string): int {
    if s == [] then 0 else 10 * Value(s[..|s| - 1]) + DigitValue(s[|s| - 1])
  }

  lemma {:induction false} ValueOfDecimal(n: nat)
    ensures Value(Decimal(n)) == n
  {
    DigitIsItsValue(n % 10);
    if n < 10 {
      ValueOfAppended([], Digit(n));
      assert [] + [Digit(n)] == Decimal(n);
    } else {
      ValueOfDecimal(n / 10);
      ValueOfAppended(Decimal(n / 10), Digit(n % 10));
    }
  }

  lemma DigitIsItsValue(n: nat)
    requires n < 10
    ensures DigitValue(Digit(n)) == n
  {
  }

  lemma ValueOfAppended(s: string, c: char)
    ensures Value(s + [c]) == 10 * Value(s) + DigitValue(c)
  {
    assert (s + [c])[..|s|] == s;
  }

  // ----- Normalisation ------------------------------------------------------------------------

  predicate Plain(c: char) {
    'a' <= c <= 'z' || '0' <= c <= '9'
  }

  /** The letters and digits of ASCII, by their codes. */
  lemma PlainIs(c: char)
    ensures Plain(c) <==> 97 <= c as int <= 122 || 48 <= c as int <= 57
  {
  }

  predicate Space(c: char) {
    c == ' ' || c == '\t' || c == '\n' || c == '\r'
  }

  function TrimStart(s: string): string {
    if s != [] && Space(s[0]) then TrimStart(s[1..]) else s
  }

  function TrimEnd(s: string): string {
    if s != [] && Space(s[|s| - 1]) then TrimEnd(s[..|s| - 1]) else s
  }

  /** Every maximal run of other characters becomes one hyphen. */
  function Hyphenate(s: string, inRun: bool): string {
    if s == [] then []
    else if Plain(s[0]) then [s[0]] + Hyphenate(s[1..], false)
    else if inRun then Hyphenate(s[1..], true)
    else ['-'] + Hyphenate(s[1..], true)
  }

  function StripStart(s: string): string {
    if s != [] && s[0] == '-' then StripStart(s[1..]) else s
  }

  function StripEnd(s: string): string {
    if s != [] && s[|s| - 1] == '-' then StripEnd(s[..|s| - 1]) else s
  }

  function Cut(s: string, n: nat): string {
    if |s| <= n then s else s[..n]
  }

  /** `toSlug` on a name that has been lower-cased. Spaces keep 70 characters, buildings 60, tenants 48;
      the fallback serves names without a single usable character. */
  function ToSlug(lowered: string, cap: nat, fallback: string): string {
    var slug := Cut(Uncut(lowered), cap);
    if slug == [] then fallback else slug
  }

  function Uncut(lowered: string): string {
    StripEnd(StripStart(Hyphenate(TrimEnd(TrimStart(lowered)), false)))
  }

  predicate SlugChars(s: string) {
    forall k :: 0 <= k < |s| ==> Plain(s[k]) || s[k] == '-'
  }

  predicate NoDoubleHyphen(s: string) {
    forall k :: 0 <= k < |s| - 1 ==> s[k] != '-' || s[k + 1] != '-'
  }

  predicate WellFormed(s: string) {
    s != [] && SlugChars(s) && s[0] != '-' && NoDoubleHyphen(s)
  }

  lemma {:induction false} HyphenateIsClean(s: string, inRun: bool)
    ensures var h := Hyphenate(s, inRun);
            && SlugChars(h) && NoDoubleHyphen(h)
            && (inRun && h != [] ==> h[0] != '-')
    decreases |s|
  {
    if s != [] {
      var rest := Hyphenate(s[1..], !Plain(s[0]));
      HyphenateIsClean(s[1..], !Plain(s[0]));
      var h := Hyphenate(s, inRun);
      if h != rest {
        assert h[1..] == rest;
        assert forall k :: 0 < k < |h| ==> h[k] == rest[k - 1];
      }
    }
  }

  lemma {:induction false} StripStartIsSuffix(s: string) returns (k: nat)
    ensures k <= |s| && StripStart(s) == s[k..]
    ensures StripStart(s) != [] ==> StripStart(s)[0] != '-'
    decreases |s|
  {
    if s != [] && s[0] == '-' {
      var j := StripStartIsSuffix(s[1..]);
      k := j + 1;
      assert s[1..][j..] == s[k..];
    } else {
      k := 0;
    }
  }

  lemma {:induction false} StripEndIsPrefix(s: string) returns (k: nat)
    ensures k <= |s| && StripEnd(s) == s[..k]
    decreases |s|
  {
    if s != [] && s[|s| - 1] == '-' {
      k := StripEndIsPrefix(s[..|s| - 1]);
      assert s[..|s| - 1][..k] == s[..k];
    } else {
      k := |s|;
      assert s[..k] == s;
    }
  }

  /** A slug is never empty, uses only lower-case letters, digits and hyphens, does not start with a
      hyphen, has no two hyphens in a row, and respects the cap unless the fallback was needed. */
  lemma ToSlugIsWellFormed(lowered: string, cap: nat, fallback: string)
    requires cap > 0 && WellFormed(fallback)
    ensures WellFormed(ToSlug(lowered, cap, fallback))
    ensures |ToSlug(lowered, cap, fallback)| <= cap || ToSlug(lowered, cap, fallback) == fallback
  {
    var h := Hyphenate(TrimEnd(TrimStart(lowered)), false);
    HyphenateIsClean(TrimEnd(TrimStart(lowered)), false);
    var j := StripStartIsSuffix(h);
    var t := StripStart(h);
    assert t == h[j..];
    var k := StripEndIsPrefix(t);
    var slug := Cut(StripEnd(t), cap);
    forall i | 0 <= i < |slug|
      ensures slug[i] == t[i] == h[j + i]
    {
    }
  }

  /** The usable characters of a name, in order. */
  function Letters(s: string): string {
    if s == [] then [] else (if Plain(s[0]) then [s[0]] else []) + Letters(s[1..])
  }

  lemma {:induction false} LettersOfConcat(a: string, b: string)
    ensures Letters(a + b) == Letters(a) + Letters(b)
    decreases |a|
  {
    if a == [] {
      assert a + b == b;
    } else {
      LettersOfConcat(a[1..], b);
      var whole := a + b;
      assert whole[1..] == a[1..] + b && whole[0] == a[0];
      LettersUnfold(whole);
    }
  }

  lemma LettersUnfold(s: string)
    requires s != []
    ensures Letters(s) == (if Plain(s[0]) then [s[0]] else []) + Letters(s[1..])
  {
  }

  lemma DroppingLast(s: string)
    requires s != [] && !Plain(s[|s| - 1])
    ensures Letters(s) == Letters(s[..|s| - 1])
  {
    LettersOfConcat(s[..|s| - 1], [s[|s| - 1]]);
    assert s[..|s| - 1] + [s[|s| - 1]] == s;
  }

  lemma {:induction false} TrimStartKeepsLetters(s: string)
    ensures Letters(TrimStart(s)) == Letters(s)
    decreases |s|
  {
    if s != [] && Space(s[0]) { TrimStartKeepsLetters(s[1..]); }
  }

  lemma {:induction false} TrimEndKeepsLetters(s: string)
    ensures Letters(TrimEnd(s)) == Letters(s)
    decreases |s|
  {
    if s != [] && Space(s[|s| - 1]) {
      DroppingLast(s);
      TrimEndKeepsLetters(s[..|s| - 1]);
    }
  }

  lemma {:induction false} StripStartKeepsLetters(s: string)
    ensures Letters(StripStart(s)) == Letters(s)
    decreases |s|
  {
    if s != [] && s[0] == '-' { StripStartKeepsLetters(s[1..]); }
  }

  lemma {:induction false} StripEndKeepsLetters(s: string)
    ensures Letters(StripEnd(s)) == Letters(s)
    decreases |s|
  {
    if s != [] && s[|s| - 1] == '-' {
      DroppingLast(s);
      StripEndKeepsLetters(s[..|s| - 1]);
    }
  }

  lemma {:induction false} HyphenatingKeepsLetters(s: string, inRun: bool)
    ensures Letters(Hyphenate(s, inRun)) == Letters(s)
    decreases |s|
  {
    if s != [] {
      HyphenatingKeepsLetters(s[1..], !Plain(s[0]));
      var h := Hyphenate(s, inRun);
      if h != Hyphenate(s[1..], !Plain(s[0])) { assert h[1..] == Hyphenate(s[1..], !Plain(s[0])); }
    }
  }

  /** The slug spells the usable characters of the name in their order, cut short only by the cap, and
      the fallback is used exactly for names that have none. */
  lemma SlugSpellsTheName(lowered: string, cap: nat, fallback: string)
    requires cap > 0
    ensures Letters(lowered) == [] ==> ToSlug(lowered, cap, fallback) == fallback
    ensures Letters(lowered) != [] ==>
              && Letters(ToSlug(lowered, cap, fallback)) <= Letters(lowered)
              && (|ToSlug(lowered, cap, fallback)| < cap ==>
                    Letters(ToSlug(lowered, cap, fallback)) == Letters(lowered))
  {
    var trimmed := TrimEnd(TrimStart(lowered));
    TrimStartKeepsLetters(lowered);
    TrimEndKeepsLetters(TrimStart(lowered));
    var h := Hyphenate(trimmed, false);
    HyphenatingKeepsLetters(trimmed, false);
    HyphenateIsClean(trimmed, false);
    StripStartKeepsLetters(h);
    StripEndKeepsLetters(StripStart(h));
    var j := StripStartIsSuffix(h);
    var full := StripEnd(StripStart(h));
    var k := StripEndIsPrefix(StripStart(h));
    assert Letters(full) == Letters(lowered);
    if full != [] {
      assert full[0] == StripStart(h)[0] == h[j];
      assert Plain(full[0]);
    }
    var slug := Cut(full, cap);
    LettersOfConcat(slug, full[|slug|..]);
    assert slug + full[|slug|..] == full;
  }

  // ----- The words of a name ------------------------------------------------------------------

  /** The maximal runs of usable characters. */
  function Words(s: string): (ws: seq<string>)
    ensures forall k :: 0 <= k < |ws| ==> ws[k] != []
    ensures s != [] && Plain(s[0]) ==> ws != []
  {
    if s == [] then []
    else if !Plain(s[0]) then Words(s[1..])
    else if |s| > 1 && Plain(s[1]) then
      var rest := Words(s[1..]);
      [[s[0]] + rest[0]] + rest[1..]
    else [[s[0]]] + Words(s[1..])
  }

  function Hyphenated(words: seq<string>): string {
    if words == [] then []
    else if |words| == 1 then words[0]
    else words[0] + "-" + Hyphenated(words[1..])
  }

  /** With a run of other characters before it, a text becomes its words joined by hyphens, and one
      more hyphen if other characters close it. */
  lemma {:induction false} HyphenateJoinsWords(s: string)
    ensures Hyphenate(s, true) == Hyphenated(Words(s)) + Tail(s)
    decreases |s|
  {
    if s != [] {
      HyphenateJoinsWords(s[1..]);
      if Plain(s[0]) {
        PlainHeadJoins(s);
      } else if |s| == 1 {
        assert Words(s) == [];
      }
    }
  }

  lemma {:induction false} PlainLastMakesWords(s: string)
    requires s != [] && Plain(s[|s| - 1])
    ensures Words(s) != []
    decreases |s|
  {
    if |s| > 1 { PlainLastMakesWords(s[1..]); }
  }

  /** The hyphen that closes a text whose last run is not a word. */
  function Tail(s: string): string {
    if Words(s) != [] && s != [] && !Plain(s[|s| - 1]) then "-" else ""
  }

  lemma PlainHeadJoins(s: string)
    requires s != [] && Plain(s[0])
    requires Hyphenate(s[1..], true) == Hyphenated(Words(s[1..])) + Tail(s[1..])
    ensures Hyphenate(s, true) == Hyphenated(Words(s)) + Tail(s)
  {
    if |s| == 1 {
      assert Hyphenate(s, true) == [s[0]] + Hyphenate([], false);
      assert Words(s) == [[s[0]]];
    } else if Plain(s[1]) {
      LongerWord(s);
    } else {
      OneLetterWord(s);
    }
  }

  lemma LongerWord(s: string)
    requires |s| > 1 && Plain(s[0]) && Plain(s[1])
    requires Hyphenate(s[1..], true) == Hyphenated(Words(s[1..])) + Tail(s[1..])
    ensures Hyphenate(s, true) == Hyphenated(Words(s)) + Tail(s)
  {
    var rest := s[1..];
    assert Hyphenate(s, true) == [s[0]] + Hyphenate(rest, false);
    assert Hyphenate(rest, false) == Hyphenate(rest, true);
    LongerFirstWord(s[0], Words(rest));
    assert Words(s) == [[s[0]] + Words(rest)[0]] + Words(rest)[1..];
    assert Tail(s) == Tail(rest);
    assert [s[0]] + (Hyphenated(Words(rest)) + Tail(rest)) == [s[0]] + Hyphenated(Words(rest)) + Tail(rest);
  }

  lemma OneLetterWord(s: string)
    requires |s| > 1 && Plain(s[0]) && !Plain(s[1])
    requires Hyphenate(s[1..], true) == Hyphenated(Words(s[1..])) + Tail(s[1..])
    ensures Hyphenate(s, true) == Hyphenated(Words(s)) + Tail(s)
  {
    var rest := s[1..];
    var words := Words(rest);
    assert Hyphenate(s, true) == [s[0]] + (['-'] + Hyphenate(rest, true));
    assert Words(s) == [[s[0]]] + words;
    assert Words(s)[1..] == words;
    if words == [] {
      if Plain(rest[|rest| - 1]) { PlainLastMakesWords(rest); }
      assert Tail(s) == "-";
      assert Hyphenate(rest, true) == [];
    } else {
      OneLetterFirst(s[0], words);
      assert Tail(s) == Tail(rest);
    }
  }

  lemma OneLetterFirst(c: char, words: seq<string>)
    requires words != []
    ensures Hyphenated([[c]] + words) == [c] + (['-'] + Hyphenated(words))
  {
    assert ([[c]] + words)[1..] == words;
  }

  lemma LongerFirstWord(c: char, words: seq<string>)
    requires words != []
    ensures Hyphenated([[c] + words[0]] + words[1..]) == [c] + Hyphenated(words)
  {
    var longer := [[c] + words[0]] + words[1..];
    assert longer[1..] == words[1..];
  }

  lemma {:induction false} TrimmingKeepsWords(s: string)
    ensures Words(TrimStart(s)) == Words(s)
    decreases |s|
  {
    if s != [] && Space(s[0]) { TrimmingKeepsWords(s[1..]); }
  }

  lemma {:induction false} DroppingKeepsWords(s: string)
    requires s != [] && !Plain(s[|s| - 1])
    ensures Words(s[..|s| - 1]) == Words(s)
    decreases |s|
  {
    if |s| > 1 {
      DroppingKeepsWords(s[1..]);
      assert s[1..][..|s| - 2] == s[..|s| - 1][1..];
    }
  }

  lemma {:induction false} TrimmingEndKeepsWords(s: string)
    ensures Words(TrimEnd(s)) == Words(s)
    decreases |s|
  {
    if s != [] && Space(s[|s| - 1]) {
      DroppingKeepsWords(s);
      TrimmingEndKeepsWords(s[..|s| - 1]);
    }
  }

  lemma {:induction false} WordsArePlain(s: string)
    ensures PlainWords(Words(s))
    decreases |s|
  {
    if s != [] { WordsArePlain(s[1..]); }
  }

  predicate PlainWords(words: seq<string>) {
    forall k :: 0 <= k < |words| ==> PlainWord(words[k])
  }

  predicate PlainWord(w: string) {
    w != [] && forall i :: 0 <= i < |w| ==> Plain(w[i])
  }

  lemma {:induction false} HyphenatedEnds(words: seq<string>)
    requires words != [] && PlainWords(words)
    ensures var h := Hyphenated(words); h != [] && Plain(h[0]) && Plain(h[|h| - 1])
    decreases |words|
  {
    assert PlainWord(words[0]);
    if |words| > 1 { HyphenatedEnds(words[1..]); }
  }

  /** Before the cut, the slug is the words of the name joined by hyphens. */
  lemma UncutJoinsWords(lowered: string)
    ensures Uncut(lowered) == Hyphenated(Words(lowered))
  {
    var t := TrimEnd(TrimStart(lowered));
    TrimmingKeepsWords(lowered);
    TrimmingEndKeepsWords(TrimStart(lowered));
    WordsArePlain(t);
    HyphenateJoinsWords(t);
    if Words(t) != [] { HyphenatedEnds(Words(t)); }
    StripsTo(t, Hyphenated(Words(t)));
  }

  lemma LeadingHyphen(t: string)
    ensures Hyphenate(t, false) == (if t != [] && !Plain(t[0]) then "-" else "") + Hyphenate(t, true)
  {
  }

  lemma StripStartDrops(lead: string, body: string)
    requires lead == "" || lead == "-"
    requires body != [] ==> body[0] != '-'
    ensures StripStart(lead + body) == body
  {
    if lead == "" { assert lead + body == body; } else { assert (lead + body)[1..] == body; }
  }

  lemma StripEndDrops(body: string, tail: string)
    requires tail == "" || tail == "-"
    requires body != [] && body[|body| - 1] != '-'
    ensures StripEnd(body + tail) == body
  {
    if tail == "" { assert body + tail == body; } else { assert (body + tail)[..|body|] == body; }
  }

  lemma StripsTo(t: string, h: string)
    requires h != [] ==> Plain(h[0]) && Plain(h[|h| - 1])
    requires Hyphenate(t, true) == h + Tail(t)
    requires Words(t) == [] <==> h == []
    ensures StripEnd(StripStart(Hyphenate(t, false))) == h
  {
    LeadingHyphen(t);
    if h == [] {
      assert Hyphenate(t, true) == "";
      StripStartDrops(if t != [] && !Plain(t[0]) then "-" else "", "");
    } else {
      StripStartDrops(if t != [] && !Plain(t[0]) then "-" else "", h + Tail(t));
      StripEndDrops(h, Tail(t));
    }
  }

  /** Length of the first `j` words joined. */
  function PrefixLength(words: seq<string>, j: nat): nat
    requires j <= |words|
  {
    |Hyphenated(words[..j])|
  }

  lemma {:induction false} HyphenatedSplits(words: seq<string>, j: nat)
    requires 0 < j < |words|
    ensures Hyphenated(words) == Hyphenated(words[..j]) + "-" + Hyphenated(words[j..])
    decreases |words|
  {
    var front, back := Hyphenated(words[..j]), Hyphenated(words[j..]);
    if j == 1 {
      assert words[..1] == [words[0]];
    } else {
      var rest := words[1..];
      HyphenatedSplits(rest, j - 1);
      assert rest[..j - 1] == words[..j][1..];
      assert rest[j - 1..] == words[j..];
      assert front == words[0] + "-" + Hyphenated(rest[..j - 1]);
      assert Hyphenated(words) == words[0] + "-" + (Hyphenated(rest[..j - 1]) + "-" + back);
    }
  }

  /** The hyphens of the joined words sit exactly behind the proper prefixes. */
  lemma {:induction false} HyphenAtIff(words: seq<string>, p: nat)
    requires PlainWords(words) && p < |Hyphenated(words)|
    ensures Hyphenated(words)[p] == '-' <==> exists j :: 0 < j < |words| && PrefixLength(words, j) == p
    decreases |words|
  {
    var h := Hyphenated(words);
    if |words| == 1 {
      assert PlainWord(words[0]);
    } else if |words| > 1 {
      var rest := words[1..];
      assert PlainWord(words[0]);
      assert words[..1] == [words[0]];
      assert PrefixLength(words, 1) == |words[0]|;
      forall j | 1 < j < |words|
        ensures PrefixLength(words, j) == |words[0]| + 1 + PrefixLength(rest, j - 1)
      {
        assert words[..j][1..] == rest[..j - 1];
      }
      if p > |words[0]| {
        var q := p - |words[0]| - 1;
        HyphenAtIff(rest, q);
        assert h[p] == Hyphenated(rest)[q];
        if j :| 0 < j < |rest| && PrefixLength(rest, j) == q { assert PrefixLength(words, j + 1) == p; }
        if j :| 0 < j < |words| && PrefixLength(words, j) == p { assert j > 1 && PrefixLength(rest, j - 1) == q; }
      } else if p == |words[0]| {
        assert h[p] == '-';
      } else {
        assert h[p] == words[0][p];
      }
    }
  }

  /** A name's slug ends in a hyphen exactly when some of its words, but not all, fill the cap but for
      one character. */
  lemma SlugEndsInHyphenIff(lowered: string, cap: nat, fallback: string)
    requires cap > 0 && Words(lowered) != []
    ensures var slug := ToSlug(lowered, cap, fallback);
            && slug != []
            && (slug[|slug| - 1] == '-' <==>
                  exists j :: 0 < j < |Words(lowered)| && PrefixLength(Words(lowered), j) == cap - 1)
  {
    var words := Words(lowered);
    var h := Hyphenated(words);
    UncutJoinsWords(lowered);
    WordsArePlain(lowered);
    HyphenatedEnds(words);
    if cap <= |h| { HyphenAtIff(words, cap - 1); }
    if cap >= |h| {
      forall j | 0 < j < |words|
        ensures PrefixLength(words, j) < |h| - 1
      {
        HyphenatedSplits(words, j);
        WordsFrom(words, j);
        HyphenatedEnds(words[j..]);
      }
    }
  }

  lemma WordsFrom(words: seq<string>, j: nat)
    requires PlainWords(words) && j < |words|
    ensures PlainWords(words[j..]) && words[j..] != []
  {
    forall k | 0 <= k < |words[j..]|
      ensures PlainWord(words[j..][k])
    {
      assert PlainWord(words[j + k]);
    }
  }

  /** It happens at every cap: a first word one shorter than the cap, then another word. */
  lemma CutLeavesHyphen(cap: nat, fallback: string) returns (lowered: string)
    requires cap >= 2
    ensures ToSlug(lowered, cap, fallback) == seq(cap - 1, _ => 'a') + "-"
    ensures forall k: nat | k > 0 :: !NoDoubleHyphen(Candidate(ToSlug(lowered, cap, fallback), k))
  {
    var first: string := seq(cap - 1, _ => 'a');
    lowered := first + " b";
    TwoWords(first);
    UncutJoinsWords(lowered);
    assert Hyphenated([first, "b"]) == first + "-b" by { assert [first, "b"][1..] == ["b"]; }
    var slug := ToSlug(lowered, cap, fallback);
    assert slug == first + "-";
    forall k: nat | k > 0
      ensures !NoDoubleHyphen(Candidate(slug, k))
    {
      var c := Candidate(slug, k);
      assert c == slug + "-" + Decimal(k + 1);
      assert c[|slug| - 1] == '-' && c[|slug|] == '-';
    }
  }

  lemma {:induction false} TwoWords(first: string)
    requires PlainWord(first)
    ensures Words(first + " b") == [first, "b"]
    decreases |first|
  {
    var s := first + " b";
    if |first| == 1 {
      assert s[1..] == " b" && " b"[1..] == "b" && "b"[1..] == "";
      assert Words("b") == ["b"];
      assert Words(" b") == Words("b");
      assert Words(s) == [[s[0]]] + ["b"];
      assert [s[0]] == first;
    } else {
      assert s[1..] == first[1..] + " b";
      TwoWords(first[1..]);
      assert [s[0]] + first[1..] == first;
    }
  }

  /** The fallbacks in use: a prefix and the time, or a fixed word. */
  lemma FallbacksAreWellFormed(now: nat)
    ensures WellFormed("space-" + Decimal(now)) && WellFormed("building-" + Decimal(now)) && WellFormed("guest")
  {
    AppendDigits("space-", Decimal(now));
    AppendDigits("building-", Decimal(now));
  }

  lemma AppendDigits(word: string, digits: string)
    requires WellFormed(word)
    requires forall k :: 0 <= k < |digits| ==> '0' <= digits[k] <= '9'
    ensures WellFormed(word + digits)
  {
    var w := word + digits;
    forall i | 0 <= i < |w|
      ensures w[i] == if i < |word| then word[i] else digits[i - |word|]
    {
    }
  }

  // ----- The search for a free slug -----------------------------------------------------------

  /** The slugs probed, in order: the base, then the base with suffixes 2, 3, 4, ... */
  function Candidate(base: string, k: nat): string {
    if k == 0 then base else base + "-" + Decimal(k + 1)
  }

  /** The first probe is the base itself, the second ends in 2, the third in 3, and so on. */
  lemma CandidateIs(base: string, k: nat)
    ensures Candidate(base, 0) == base
    ensures k > 0 ==>
              var c := Candidate(base, k);
              |c| > |base| + 1 && c[..|base|] == base && c[|base|] == '-' && Value(c[|base| + 1..]) == k + 1
  {
    if k > 0 {
      ValueOfDecimal(k + 1);
      assert Candidate(base, k)[|base| + 1..] == Decimal(k + 1);
    }
  }

  lemma CandidatesDiffer(base: string, j: nat, k: nat)
    requires j != k
    ensures Candidate(base, j) != Candidate(base, k)
  {
    if j > 0 && k > 0 {
      DecimalsDiffer(j + 1, k + 1);
      SuffixDiffers(base + "-", Decimal(j + 1), Decimal(k + 1));
    } else if j > 0 {
      SuffixedIsLonger(base, Decimal(j + 1));
    } else {
      SuffixedIsLonger(base, Decimal(k + 1));
    }
  }

  lemma DecimalsDiffer(m: nat, n: nat)
    requires m != n
    ensures Decimal(m) != Decimal(n)
  {
    ValueOfDecimal(m);
    ValueOfDecimal(n);
  }

  lemma SuffixedIsLonger(base: string, suffix: string)
    ensures base != base + "-" + suffix
  {
    assert |base + "-" + suffix| > |base|;
  }

  lemma SuffixDiffers(stem: string, a: string, b: string)
    requires a != b
    ensures stem + a != stem + b
  {
    assert (stem + a)[|stem|..] == a && (stem + b)[|stem|..] == b;
  }

  function Probed(base: string, k: nat): set<string> {
    if k == 0 then {} else Probed(base, k - 1) + {Candidate(base, k - 1)}
  }

  lemma {:induction false} ProbedIsLarge(base: string, k: nat)
    ensures |Probed(base, k)| == k
    ensures forall s :: s in Probed(base, k) <==> exists j :: 0 <= j < k && s == Candidate(base, j)
  {
    if k > 0 {
      ProbedIsLarge(base, k - 1);
      forall j | 0 <= j < k - 1
        ensures Candidate(base, j) != Candidate(base, k - 1)
      {
        CandidatesDiffer(base, j, k - 1);
      }
    }
  }

  lemma SubsetIsSmaller(a: set<string>, b: set<string>)
    requires a <= b
    ensures |a| <= |b|
  {
    assert |b| == |a| + |b - a| by { assert b == a + (b - a); }
  }

  /** As many distinct taken candidates as probes: there can be no more probes than slugs. */
  lemma Pigeonhole(base: string, taken: set<string>, k: nat)
    requires forall j :: 0 <= j < k ==> Candidate(base, j) in taken
    ensures k <= |taken|
  {
    ProbedIsLarge(base, k);
    assert Probed(base, k) <= taken;
    SubsetIsSmaller(Probed(base, k), taken);
  }

  /** Terminates after at most one probe more than there are slugs, with the first candidate that is
      free. */
  method BuildUniqueSlug(base: string, taken: set<string>) returns (slug: string, probes: nat)
    ensures slug !in taken
    ensures 1 <= probes <= |taken| + 1
    ensures slug == Candidate(base, probes - 1)
    ensures forall j :: 0 <= j < probes - 1 ==> Candidate(base, j) in taken
  {
    slug := base;
    var i := 2;
    while slug in taken
      invariant i >= 2 && slug == Candidate(base, i - 2)
      invariant forall j :: 0 <= j < i - 2 ==> Candidate(base, j) in taken
      invariant i - 2 <= |taken|
      decreases |taken| + 3 - i
    {
      Pigeonhole(base, taken, i - 1);
      slug := base + "-" + Decimal(i);
      i := i + 1;
    }
    probes := i - 1;
  }

  /** `slug` is the candidate of `base` with the smallest number that is not taken, found within
      `limit` refusals. */
  ghost predicate FirstFree(base: string, taken: set<string>, slug: string, limit: int) {
    && slug !in taken
    && exists k: nat :: k <= limit && slug == Candidate(base, k) && forall j: nat | j < k :: Candidate(base, j) in taken
  }

  lemma SuffixedIsWellFormed(base: string, k: nat)
    requires WellFormed(base)
    ensures SlugChars(Candidate(base, k)) && Candidate(base, k) != [] && Candidate(base, k)[0] != '-'
    ensures NoDoubleHyphen(Candidate(base, k)) <==> k == 0 || base[|base| - 1] != '-'
  {
    if k > 0 {
      var d := Decimal(k + 1);
      var c := Candidate(base, k);
      assert c == base + "-" + d;
      assert c[|base|] == '-' && c[|base| - 1] == base[|base| - 1];
      assert forall i :: |base| < i < |c| ==> c[i] == d[i - |base| - 1];
      assert forall i :: 0 <= i < |base| ==> c[i] == base[i];
    }
  }

  // ----- The registry -------------------------------------------------------------------------

  predicate Distinct(rows: map<nat, string>) {
    forall i, j :: i in rows && j in rows && rows[i] == rows[j] ==> i == j
  }

  /** The slugs of all rows but the one being renamed. */
  function Others(rows: map<nat, string>, id: nat): set<string> {
    set i | i in rows && i != id :: rows[i]
  }

  class Registry {
    var rows: map<nat, string>
    var next: nat

    predicate Valid()
      reads this
    {
      Distinct(rows) && forall i :: i in rows ==> i < next
    }

    method Create(lowered: string, cap: nat, fallback: string) returns (id: nat)
      requires Valid()
      modifies this
      ensures Valid()
      ensures id !in old(rows) && id in rows && rows == old(rows)[id := rows[id]]
      ensures FirstFree(ToSlug(lowered, cap, fallback), Others(old(rows), id), rows[id], |old(rows)|)
    {
      id := next;
      var slug, probes := BuildUniqueSlug(ToSlug(lowered, cap, fallback), Others(rows, id));
      NoMoreSlugsThanRows(rows, id);
      assert slug == Candidate(ToSlug(lowered, cap, fallback), probes - 1);
      rows := rows[id := slug];
      next := next + 1;
    }

    method Rename(id: nat, lowered: string, cap: nat, fallback: string)
      requires Valid() && id in rows
      modifies this`rows
      ensures Valid()
      ensures id in rows && rows == old(rows)[id := rows[id]]
      ensures FirstFree(ToSlug(lowered, cap, fallback), Others(old(rows), id), rows[id], |old(rows)| - 1)
    {
      var slug, probes := BuildUniqueSlug(ToSlug(lowered, cap, fallback), Others(rows, id));
      NoMoreSlugsThanRows(rows, id);
      assert slug == Candidate(ToSlug(lowered, cap, fallback), probes - 1);
      rows := rows[id := slug];
    }

    method Remove(id: nat)
      requires Valid()
      modifies this`rows
      ensures Valid() && rows == old(rows) - {id}
    {
      rows := rows - {id};
    }
  }

  lemma {:induction false} NoMoreSlugsThanRows(rows: map<nat, string>, id: nat)
    ensures |Others(rows, id)| <= if id in rows then |rows| - 1 else |rows|
    decreases |rows|
  {
    if i :| i in rows && i != id {
      var fewer := rows - {i};
      NoMoreSlugsThanRows(fewer, id);
      forall j | j in rows && j != id && j != i
        ensures j in fewer && fewer[j] == rows[j]
      {
      }
      assert Others(rows, id) <= Others(fewer, id) + {rows[i]};
      SubsetIsSmaller(Others(rows, id), Others(fewer, id) + {rows[i]});
    } else {
      assert Others(rows, id) == {};
    }
  }
}
