/**
 * Public addresses: rewriting a name or an e-mail address step by step lands in the slug grammar,
 * within its length and outside the reserved words. Lower-casing and Unicode decomposition are
 * parameters of which only this much is used: they leave slug characters alone.
 */
module Slugs {
  const ALPHABET := "abcdefghjkmnpqrstuvwxyz23456789"
  const TOKEN_LENGTH := 7
  const MAX_NAME := 40
  const MAX_BASE := 32
  const FALLBACK_BASE := "card"
  const MIN_WORKSPACE := 3
  const MAX_WORKSPACE := 32
  const FALLBACK_WORKSPACE := "workspace"

  const RESERVED_ENTRY: seq<string> := ["api", "admin", "dashboard", "auth", "login", "logout", "signup", "settings", "org", "organization"]
  const RESERVED_PAGES: seq<string> := ["ar", "en", "static", "_next", "assets", "about", "pricing", "privacy", "terms", "support"]
  const RESERVED_CARDS: seq<string> := ["c", "cards", "card", "qr", "vcard", "contacts", "analytics"]
  const RESERVED_SHARING: seq<string> := ["t", "nfc", "wallet", "signature", "campaigns"]
  const RESERVED_EVENTS: seq<string> := ["events", "event", "scan", "integrations", "webhooks"]
  const RESERVED: seq<string> := RESERVED_ENTRY + RESERVED_PAGES + RESERVED_CARDS + RESERVED_SHARING + RESERVED_EVENTS

  predicate IsAlnum(c: char) {
    'a' <= c <= 'z' || '0' <= c <= '9'
  }

  predicate SlugChars(s: string) {
    forall i | 0 <= i < |s| :: IsAlnum(s[i]) || s[i] == '-'
  }

  // ---- The grammar ----

  /** `^[a-z0-9]+(?:-[a-z0-9]+)*$`, read from left to right; `start`: a letter or digit must come next. */
  predicate MatchesFrom(s: string, start: bool) {
    if s == [] then !start
    else if IsAlnum(s[0]) then MatchesFrom(s[1..], false)
    else s[0] == '-' && !start && MatchesFrom(s[1..], true)
  }

  predicate Matches(s: string) {
    MatchesFrom(s, true)
  }

  /** Slug characters, no two hyphens in a row. */
  predicate Clean(s: string) {
    SlugChars(s) && forall i | 0 <= i < |s| - 1 :: s[i] == '-' ==> s[i + 1] != '-'
  }

  /** The grammar in other words: not empty, no hyphen at either end, no two hyphens in a row, nothing else. */
  lemma MatchesExactly(s: string)
    ensures Matches(s) <==> s != [] && Clean(s) && s[0] != '-' && s[|s| - 1] != '-'
  {
    MatchesFromExactly(s, true);
  }

  lemma {:induction false} MatchesFromExactly(s: string, start: bool)
    ensures MatchesFrom(s, start) <==>
            if s == [] then !start else Clean(s) && (start ==> s[0] != '-') && s[|s| - 1] != '-'
  {
    if s != [] {
      MatchesFromExactly(s[1..], !IsAlnum(s[0]));
      CleanTail(s);
    }
  }

  lemma CleanTail(s: string)
    requires s != []
    ensures Clean(s) <==> (IsAlnum(s[0]) || s[0] == '-') && Clean(s[1..]) && (s[0] == '-' && |s| > 1 ==> s[1] != '-')
    ensures |s| > 1 ==> s[1..][0] == s[1] && s[1..][|s| - 2] == s[|s| - 1]
  {
  }

  /** What the schema accepts as it stands. */
  predicate ValidSlug(s: string) {
    3 <= |s| <= 48 && Matches(s) && s !in RESERVED
  }

  lemma ReservedShape(s: string)
    requires s in RESERVED
    ensures |s| <= 12 && '-' !in s && s != FALLBACK_WORKSPACE
  {
    if s in RESERVED_ENTRY {
      EntryShape(s);
    } else if s in RESERVED_PAGES {
      PagesShape(s);
    } else {
      OthersShape(s);
    }
  }

  lemma EntryShape(s: string)
    requires s in RESERVED_ENTRY
    ensures |s| <= 12 && '-' !in s && s != FALLBACK_WORKSPACE
  {
  }

  lemma PagesShape(s: string)
    requires s in RESERVED_PAGES
    ensures |s| <= 12 && '-' !in s && s != FALLBACK_WORKSPACE
  {
  }

  lemma OthersShape(s: string)
    requires s in RESERVED_CARDS + RESERVED_SHARING + RESERVED_EVENTS
    ensures |s| <= 12 && '-' !in s && s != FALLBACK_WORKSPACE
  {
    assert |s| == |FALLBACK_WORKSPACE| ==> s[0] in "asc";
    assert FALLBACK_WORKSPACE[0] == 'w';
  }

  // ---- The rewriting steps ----

  function DropOthers(s: string): (r: string)
    ensures |r| <= |s| && (r != [] ==> IsAlnum(r[0]))
  {
    if s == [] || IsAlnum(s[0]) then s else DropOthers(s[1..])
  }

  /** Every run of other characters becomes one hyphen. */
  function Hyphenate(s: string): string
    decreases |s|
  {
    if s == [] then [] else if IsAlnum(s[0]) then [s[0]] + Hyphenate(s[1..]) else ['-'] + Hyphenate(DropOthers(s[1..]))
  }

  function DropHyphens(s: string): (r: string)
    ensures exists k :: 0 <= k <= |s| && r == s[k..]
    ensures r != [] ==> r[0] != '-'
  {
    if s != [] && s[0] == '-' then
      var r := DropHyphens(s[1..]);
      var k :| 0 <= k <= |s[1..]| && r == s[1..][k..];
      assert s[1..][k..] == s[k + 1..];
      r
    else
      assert s == s[0..];
      s
  }

  function CutHyphens(s: string): (r: string)
    ensures r <= s && (r != [] ==> r[|r| - 1] != '-')
  {
    if s != [] && s[|s| - 1] == '-' then CutHyphens(s[..|s| - 1]) else s
  }

  function Take(s: string, n: nat): (r: string)
    ensures r <= s && |r| <= n
  {
    if |s| <= n then s else s[..n]
  }

  /** From the run replacement on, both rewritings go the same way, to a different length. */
  function Slugify(s: string, max: nat): string {
    CutHyphens(Take(CutHyphens(DropHyphens(Hyphenate(s))), max))
  }

  // ---- They land in the grammar ----

  lemma {:induction false} HyphenateClean(s: string)
    ensures Clean(Hyphenate(s))
    ensures Hyphenate(s) != [] && s != [] && IsAlnum(s[0]) ==> Hyphenate(s)[0] == s[0]
    decreases |s|
  {
    if s == [] {
    } else if IsAlnum(s[0]) {
      HyphenateClean(s[1..]);
      CleanTail(Hyphenate(s));
      assert Hyphenate(s)[1..] == Hyphenate(s[1..]);
    } else {
      var rest := DropOthers(s[1..]);
      HyphenateClean(rest);
      CleanTail(Hyphenate(s));
      assert Hyphenate(s)[1..] == Hyphenate(rest);
      assert rest == [] ==> Hyphenate(rest) == [];
    }
  }

  lemma PrefixClean(s: string, t: string)
    requires Clean(s) && t <= s
    ensures Clean(t)
  {
  }

  lemma DropHyphensClean(s: string)
    requires Clean(s)
    ensures Clean(DropHyphens(s))
  {
  }

  lemma PrefixStart(s: string, t: string)
    requires t <= s && t != []
    ensures t[0] == s[0]
  {
  }

  /** The result is empty or in the grammar, and no longer than asked. */
  lemma SlugifyInGrammar(s: string, max: nat)
    ensures var r := Slugify(s, max);
            |r| <= max && (r != [] ==> Matches(r))
  {
    var a := Hyphenate(s);
    var b := DropHyphens(a);
    var c := CutHyphens(b);
    var d := Take(c, max);
    var r := CutHyphens(d);
    HyphenateClean(s);
    DropHyphensClean(a);
    PrefixClean(b, c);
    PrefixClean(c, d);
    PrefixClean(d, r);
    if r != [] {
      PrefixStart(d, r);
      PrefixStart(c, d);
      PrefixStart(b, c);
      MatchesExactly(r);
    }
  }

  // ---- They leave the grammar alone ----

  lemma {:induction false} HyphenateFixes(s: string)
    requires Clean(s)
    ensures Hyphenate(s) == s
    decreases |s|
  {
    if s != [] {
      CleanTail(s);
      HyphenateFixes(s[1..]);
      assert !IsAlnum(s[0]) && |s| > 1 ==> IsAlnum(s[1..][0]);
    }
  }

  /** A slug within the length is its own slug. */
  lemma SlugifyFixes(s: string, max: nat)
    requires s == [] || (Matches(s) && |s| <= max)
    ensures Slugify(s, max) == s
  {
    if s != [] {
      MatchesExactly(s);
      HyphenateFixes(s);
    }
  }

  // ---- Nothing is lost but what must be ----

  predicate HasAlnum(s: string) {
    exists i | 0 <= i < |s| :: IsAlnum(s[i])
  }

  lemma {:induction false} DropOthersKeeps(s: string)
    ensures HasAlnum(s) <==> DropOthers(s) != []
  {
    if s != [] && !IsAlnum(s[0]) {
      DropOthersKeeps(s[1..]);
      AlnumTail(s);
    }
  }

  lemma AlnumTail(s: string)
    requires s != [] && !IsAlnum(s[0])
    ensures HasAlnum(s) <==> HasAlnum(s[1..])
  {
  }

  /** What is left after the hyphens in front have gone begins with the first letter or digit. */
  lemma DropHyphensAlnum(s: string)
    ensures if HasAlnum(s) then DropHyphens(Hyphenate(s)) != [] && IsAlnum(DropHyphens(Hyphenate(s))[0])
            else DropHyphens(Hyphenate(s)) == []
  {
    DropOthersKeeps(s);
    if s != [] {
      if IsAlnum(s[0]) {
        assert Hyphenate(s)[0] == s[0];
      } else {
        DropOthersKeeps(s[1..]);
        AlnumTail(s);
        var rest := DropOthers(s[1..]);
        assert Hyphenate(s)[1..] == Hyphenate(rest);
        if rest != [] {
          assert Hyphenate(rest)[0] == rest[0];
        }
      }
    }
  }

  lemma {:induction false} CutKeepsStart(s: string)
    requires s != [] && s[0] != '-'
    ensures CutHyphens(s) != [] && CutHyphens(s)[0] == s[0]
  {
    if s[|s| - 1] == '-' {
      CutKeepsStart(s[..|s| - 1]);
    }
  }

  /** The result is empty exactly when there was no letter and no digit. */
  lemma EmptyExactly(s: string, max: nat)
    requires max > 0
    ensures Slugify(s, max) == [] <==> !HasAlnum(s)
  {
    var b := DropHyphens(Hyphenate(s));
    DropHyphensAlnum(s);
    if HasAlnum(s) {
      CutKeepsStart(b);
      var d := Take(CutHyphens(b), max);
      CutKeepsStart(d);
    }
  }

  // ---- The words of the text ----

  /** The runs of letters and digits, in order. */
  function Words(s: string): (r: seq<string>)
    ensures s != [] && IsAlnum(s[0]) ==> r != []
  {
    if s == [] then []
    else if !IsAlnum(s[0]) then Words(s[1..])
    else if |s| > 1 && IsAlnum(s[1]) then [[s[0]] + Words(s[1..])[0]] + Words(s[1..])[1..]
    else [[s[0]]] + Words(s[1..])
  }

  function Hyphenated(words: seq<string>): string {
    if words == [] then [] else if |words| == 1 then words[0] else words[0] + "-" + Hyphenated(words[1..])
  }

  lemma {:induction false} DropOthersWords(s: string)
    ensures Words(DropOthers(s)) == Words(s)
  {
    if s != [] && !IsAlnum(s[0]) {
      DropOthersWords(s[1..]);
    }
  }

  lemma HyphenatedHead(c: char, words: seq<string>)
    requires words != []
    ensures Hyphenated([[c] + words[0]] + words[1..]) == [c] + Hyphenated(words)
  {
    var longer := [[c] + words[0]] + words[1..];
    assert longer[1..] == words[1..];
  }

  /** A hyphen at the end only if the text goes on after its last word. */
  function Trail(s: string): string {
    if HasAlnum(s) && !IsAlnum(s[|s| - 1]) then "-" else ""
  }

  lemma TrailOfTail(s: string)
    requires |s| > 1
    ensures HasAlnum(s[1..]) ==> Trail(s) == Trail(s[1..])
  {
    assert s[1..][|s| - 2] == s[|s| - 1];
    if HasAlnum(s[1..]) {
      var i :| 0 <= i < |s[1..]| && IsAlnum(s[1..][i]);
      assert IsAlnum(s[i + 1]);
    }
  }

  lemma {:induction false} DropOthersTrail(s: string)
    ensures HasAlnum(s) ==> Trail(DropOthers(s)) == Trail(s)
  {
    if s != [] && !IsAlnum(s[0]) {
      AlnumTail(s);
      DropOthersTrail(s[1..]);
      if HasAlnum(s) {
        assert |s| > 1;
        TrailOfTail(s);
      }
    }
  }

  lemma {:induction false} NoWords(s: string)
    ensures Words(s) == [] <==> !HasAlnum(s)
  {
    if s != [] && !IsAlnum(s[0]) {
      NoWords(s[1..]);
      AlnumTail(s);
    }
  }

  lemma {:induction false} HyphenateWords(s: string)
    requires s != [] && IsAlnum(s[0])
    ensures Hyphenate(s) == Hyphenated(Words(s)) + Trail(s)
    decreases |s|
  {
    var tail := s[1..];
    if tail == [] {
      assert s == [s[0]] && Words(s) == [[s[0]]];
    } else if IsAlnum(tail[0]) {
      HyphenateWords(tail);
      HyphenatedHead(s[0], Words(tail));
      TrailOfTail(s);
      assert [s[0]] + Hyphenated(Words(tail)) + Trail(tail) == [s[0]] + (Hyphenated(Words(tail)) + Trail(tail));
    } else {
      HyphenateGap(s);
    }
  }

  lemma {:induction false} HyphenateGap(s: string)
    requires |s| > 1 && IsAlnum(s[0]) && !IsAlnum(s[1])
    ensures Hyphenate(s) == Hyphenated(Words(s)) + Trail(s)
    decreases |s|, 0
  {
    var tail, rest := s[1..], DropOthers(s[2..]);
    assert tail[1..] == s[2..] && Hyphenate(tail) == "-" + Hyphenate(rest);
    DropOthersWords(s[2..]);
    assert Words(tail) == Words(s[2..]) == Words(rest);
    NoWords(s[2..]);
    DropOthersKeeps(s[2..]);
    if rest == [] {
      assert Words(s) == [[s[0]]];
      LastIsOther(s);
    } else {
      HyphenateWords(rest);
      DropOthersTrail(s[2..]);
      AlnumTail(tail);
      TrailOfTail(s);
      TrailOfTail(tail);
      assert Words(s) == [[s[0]]] + Words(rest) && Words(s)[1..] == Words(rest);
      assert [s[0]] + ("-" + (Hyphenated(Words(rest)) + Trail(s))) == [s[0]] + "-" + Hyphenated(Words(rest)) + Trail(s);
    }
  }

  lemma LastIsOther(s: string)
    requires |s| > 1 && IsAlnum(s[0]) && !IsAlnum(s[1]) && !HasAlnum(s[2..])
    ensures Trail(s) == "-"
  {
    if |s| > 2 {
      assert s[2..][|s| - 3] == s[|s| - 1];
    }
  }

  /** A slug is the text's words with hyphens between them, cut to the length and freed of hyphens at the cut. */
  lemma SlugIsTheWords(s: string, max: nat)
    ensures Slugify(s, max) == CutHyphens(Take(Hyphenated(Words(s)), max))
  {
    NoWords(s);
    DropOthersKeeps(s);
    DropHyphensAlnum(s);
    if HasAlnum(s) {
      var rest := DropOthers(s);
      DropOthersWords(s);
      HyphenateWords(rest);
      LeadDropped(s);
      WordsEnd(rest);
      TrailCut(Hyphenated(Words(rest)), Trail(rest));
    }
  }

  lemma LeadDropped(s: string)
    requires HasAlnum(s)
    ensures DropOthers(s) != [] && DropHyphens(Hyphenate(s)) == Hyphenate(DropOthers(s))
  {
    DropOthersKeeps(s);
    if !IsAlnum(s[0]) {
      assert DropOthers(s) == DropOthers(s[1..]);
      assert Hyphenate(s)[1..] == Hyphenate(DropOthers(s));
    }
  }

  lemma {:induction false} WordsEnd(s: string)
    requires s != [] && IsAlnum(s[0])
    ensures var r := Hyphenated(Words(s)); r != [] && r[|r| - 1] != '-'
    decreases |s|
  {
    if |s| > 1 {
      if IsAlnum(s[1]) {
        WordsEnd(s[1..]);
        HyphenatedHead(s[0], Words(s[1..]));
      } else {
        WordsEndGap(s);
      }
    }
  }

  lemma {:induction false} WordsEndGap(s: string)
    requires |s| > 1 && IsAlnum(s[0]) && !IsAlnum(s[1])
    ensures var r := Hyphenated(Words(s)); r != [] && r[|r| - 1] != '-'
    decreases |s|, 0
  {
    var tail := s[1..];
    DropOthersWords(tail);
    DropOthersKeeps(tail);
    NoWords(tail);
    assert Words(s) == [[s[0]]] + Words(tail) && Words(s)[1..] == Words(tail);
    if Words(tail) != [] {
      WordsEnd(DropOthers(tail));
      var r := Hyphenated(Words(tail));
      assert Hyphenated(Words(s)) == [s[0]] + "-" + r;
    }
  }

  lemma TrailCut(r: string, trail: string)
    requires r != [] && r[|r| - 1] != '-' && (trail == "-" || trail == "")
    ensures CutHyphens(r + trail) == r
  {
    if trail == "-" {
      assert (r + trail)[..|r|] == r;
    } else {
      assert r + trail == r;
    }
  }

  // ---- Names of cards ----

  /** Combining marks U+0300 to U+036F go. */
  function DropMarks(s: string): string {
    if s == [] then [] else (if '\U{0300}' <= s[0] <= '\U{036F}' then [] else [s[0]]) + DropMarks(s[1..])
  }

  lemma {:induction false} NoMarks(s: string)
    requires SlugChars(s)
    ensures DropMarks(s) == s
  {
    if s != [] {
      NoMarks(s[1..]);
    }
  }

  /** `fold` lower-cases and decomposes. */
  function SlugifyName(fold: string -> string, value: string): string {
    Slugify(DropMarks(fold(value)), MAX_NAME)
  }

  ghost predicate LeavesSlugs(fold: string -> string) {
    forall s :: SlugChars(s) ==> fold(s) == s
  }

  /** The empty string and the slugs of at most 40 characters are exactly the results, and each is its own. */
  lemma NamesExactly(fold: string -> string, s: string)
    requires LeavesSlugs(fold)
    ensures (s == [] || (Matches(s) && |s| <= MAX_NAME)) <==> SlugifyName(fold, s) == s
    ensures (exists value :: SlugifyName(fold, value) == s) <==> SlugifyName(fold, s) == s
  {
    SlugifyInGrammar(DropMarks(fold(s)), MAX_NAME);
    if s == [] || (Matches(s) && |s| <= MAX_NAME) {
      MatchesExactly(s);
      NoMarks(s);
      SlugifyFixes(s, MAX_NAME);
    }
    if exists value :: SlugifyName(fold, value) == s {
      var value :| SlugifyName(fold, value) == s;
      SlugifyInGrammar(DropMarks(fold(value)), MAX_NAME);
    }
  }

  lemma SlugifyNameIdempotent(fold: string -> string, value: string)
    requires LeavesSlugs(fold)
    ensures var r := SlugifyName(fold, value);
            SlugifyName(fold, r) == r && (r == [] || (Matches(r) && |r| <= MAX_NAME))
  {
    NamesExactly(fold, SlugifyName(fold, value));
    SlugifyInGrammar(DropMarks(fold(value)), MAX_NAME);
  }

  function SlugBase(fold: string -> string, fullName: string): string {
    var base := CutHyphens(Take(SlugifyName(fold, fullName), MAX_BASE));
    if base != [] then base else FALLBACK_BASE
  }

  lemma {:induction false} CutOnlyHyphens(s: string)
    ensures forall i | |CutHyphens(s)| <= i < |s| :: s[i] == '-'
  {
    if s != [] && s[|s| - 1] == '-' {
      CutOnlyHyphens(s[..|s| - 1]);
      assert forall i | 0 <= i < |s| - 1 :: s[..|s| - 1][i] == s[i];
    }
  }

  /**
   * An address begins with the name's own slug: its first 32 characters but for hyphens at the cut. Only a
   * name without a letter or digit gets the fallback.
   */
  lemma BaseIsTheName(fold: string -> string, fullName: string)
    ensures var name, base := SlugifyName(fold, fullName), SlugBase(fold, fullName);
            if HasAlnum(DropMarks(fold(fullName)))
            then
              && base != [] && base <= name && |base| <= 32 && base[|base| - 1] != '-'
              && forall i | |base| <= i < |name| && i < 32 :: name[i] == '-'
            else base == FALLBACK_BASE
  {
    EmptyExactly(DropMarks(fold(fullName)), MAX_NAME);
    SlugifyInGrammar(DropMarks(fold(fullName)), MAX_NAME);
    if HasAlnum(DropMarks(fold(fullName))) {
      CutName(SlugifyName(fold, fullName));
    }
  }

  lemma CutName(name: string)
    requires Matches(name)
    ensures var base := CutHyphens(Take(name, MAX_BASE));
            && base != [] && base <= name && |base| <= 32 && base[|base| - 1] != '-'
            && forall i | |base| <= i < |name| && i < 32 :: name[i] == '-'
  {
    var start := Take(name, MAX_BASE);
    CutOnlyHyphens(start);
    MatchesExactly(name);
    PrefixStart(name, start);
    CutKeepsStart(start);
    assert forall i | 0 <= i < |start| :: start[i] == name[i];
  }

  predicate IsToken(token: string) {
    |token| == TOKEN_LENGTH && forall i | 0 <= i < |token| :: token[i] in ALPHABET
  }

  /** `picks` are the random numbers drawn. */
  method RandomSlugToken(picks: seq<nat>) returns (token: string)
    requires |picks| == TOKEN_LENGTH && forall i | 0 <= i < |picks| :: picks[i] < |ALPHABET|
    ensures IsToken(token) && forall i | 0 <= i < TOKEN_LENGTH :: token[i] == ALPHABET[picks[i]]
  {
    token := "";
    for i := 0 to TOKEN_LENGTH
      invariant |token| == i && forall j | 0 <= j < i :: token[j] == ALPHABET[picks[j]]
    {
      token := token + [ALPHABET[picks[i]]];
    }
  }

  function BuildCardSlug(fold: string -> string, fullName: string, token: string): string {
    SlugBase(fold, fullName) + "-" + token
  }

  lemma AlphabetIsAlnum(c: char)
    requires c in ALPHABET
    ensures IsAlnum(c)
  {
    var i :| 0 <= i < |ALPHABET| && ALPHABET[i] == c;
  }

  /** Two slugs joined by a hyphen are a slug, and not a reserved word. */
  lemma JoinedMatches(a: string, b: string)
    requires Matches(a) && Matches(b)
    ensures Matches(a + "-" + b) && a + "-" + b !in RESERVED
  {
    MatchesExactly(a);
    MatchesExactly(b);
    var s := a + "-" + b;
    forall i | 0 <= i < |s| ensures IsAlnum(s[i]) || s[i] == '-' {
      assert s[i] == if i < |a| then a[i] else if i == |a| then '-' else b[i - |a| - 1];
    }
    forall i | 0 <= i < |s| - 1 && s[i] == '-' ensures s[i + 1] != '-' {
      assert s[i] == if i < |a| then a[i] else if i == |a| then '-' else b[i - |a| - 1];
      assert s[i + 1] == if i + 1 < |a| then a[i + 1] else if i + 1 == |a| then '-' else b[i - |a|];
    }
    MatchesExactly(s);
    assert s[|a|] == '-';
    if s in RESERVED {
      ReservedShape(s);
    }
  }

  lemma CutMatches(name: string, base: string)
    requires Matches(name) && base == CutHyphens(Take(name, MAX_BASE)) && base != []
    ensures Matches(base) && |base| <= MAX_BASE
  {
    MatchesExactly(name);
    PrefixClean(name, base);
    PrefixStart(name, base);
    MatchesExactly(base);
  }

  lemma SlugBaseMatches(fold: string -> string, fullName: string)
    ensures Matches(SlugBase(fold, fullName)) && |SlugBase(fold, fullName)| <= MAX_BASE
  {
    var name := SlugifyName(fold, fullName);
    var base := CutHyphens(Take(name, MAX_BASE));
    SlugifyInGrammar(DropMarks(fold(fullName)), MAX_NAME);
    if base != [] {
      CutMatches(name, base);
    } else {
      MatchesExactly(FALLBACK_BASE);
    }
  }

  /** Every generated address is one the schema accepts, whatever the name. */
  lemma CardSlugValid(fold: string -> string, fullName: string, token: string)
    requires IsToken(token)
    ensures ValidSlug(BuildCardSlug(fold, fullName, token))
  {
    SlugBaseMatches(fold, fullName);
    forall i | 0 <= i < |token| ensures IsAlnum(token[i]) {
      AlphabetIsAlnum(token[i]);
    }
    MatchesExactly(token);
    JoinedMatches(SlugBase(fold, fullName), token);
    MatchesExactly(SlugBase(fold, fullName));
  }

  // ---- Names of workspaces ----

  /** `split('@')[0]`. */
  function LocalPart(email: string): string {
    if email == [] || email[0] == '@' then [] else [email[0]] + LocalPart(email[1..])
  }

  function DeriveSlugBase(lower: string -> string, email: string): string {
    var normalized := Slugify(lower(LocalPart(email)), MAX_WORKSPACE);
    if |normalized| < MIN_WORKSPACE then FALLBACK_WORKSPACE
    else if normalized in RESERVED then Take(normalized + "-" + FALLBACK_WORKSPACE, MAX_WORKSPACE)
    else normalized
  }

  lemma SuffixedValid(name: string)
    requires name in RESERVED && Matches(name)
    ensures var suffixed := name + "-" + FALLBACK_WORKSPACE;
            ValidSlug(suffixed) && |suffixed| <= MAX_WORKSPACE && Take(suffixed, MAX_WORKSPACE) == suffixed
  {
    ReservedShape(name);
    FallbackValid();
    JoinedMatches(name, FALLBACK_WORKSPACE);
  }

  /** Whatever the address, the workspace gets a name the schema accepts, of at most 32 characters. */
  lemma WorkspaceSlugValid(lower: string -> string, email: string)
    ensures ValidSlug(DeriveSlugBase(lower, email)) && |DeriveSlugBase(lower, email)| <= MAX_WORKSPACE
  {
    var normalized := Slugify(lower(LocalPart(email)), MAX_WORKSPACE);
    SlugifyInGrammar(lower(LocalPart(email)), MAX_WORKSPACE);
    if |normalized| < MIN_WORKSPACE {
      FallbackValid();
    } else if normalized in RESERVED {
      SuffixedValid(normalized);
    }
  }

  lemma FallbackValid()
    ensures ValidSlug(FALLBACK_WORKSPACE)
  {
    MatchesExactly(FALLBACK_WORKSPACE);
    if FALLBACK_WORKSPACE in RESERVED {
      ReservedShape(FALLBACK_WORKSPACE);
    }
  }
}
