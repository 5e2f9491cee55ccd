/** Recognising a failed fetch of a code-split chunk.

    `src/components/ErrorBoundary.tsx` and `src/utils/lazyWithRetry.ts` each
    carry the same four case-insensitive patterns and the same `isChunkError`;
    this module is that one predicate.  The patterns are tested with
    JavaScript's `RegExp.prototype.test` under the `i` flag and without the
    `u` flag.  In that mode a character above U+007F never matches an ASCII
    letter case-insensitively, and every pattern here is ASCII, so folding
    only `A`-`Z` onto `a`-`z` decides a match exactly. */
module ChunkErrors {

  /** A value thrown by a failing render or a failing dynamic import. */
  datatype Thrown =
    | ErrorObject(message: string)  // an `Error` instance; only its message is consulted
    | NonError(text: string)        // any other non-nullish value, object or primitive, `text` being `String(value)`
    | Null
    | Undefined

  /** `error instanceof Error ? error.message : String(error)` */
  function MessageOf(e: Thrown): string {
    match e
    case ErrorObject(m) => m
    case NonError(t) => t
    case Null => "null"
    case Undefined => "undefined"
  }

  /** The values that `??` replaces. */
  predicate IsNullish(e: Thrown) {
    e.Null? || e.Undefined?
  }

  // The literal parts of the four patterns.
  const ChunkLoadErrorSignature := "ChunkLoadError"
  const LoadingChunkPrefix := "Loading chunk "
  const LoadingChunkSuffix := " failed"
  const DynamicImportSignature := "Failed to fetch dynamically imported module"
  const ModuleScriptSignature := "Importing a module script failed"

  function Lower(c: char): char {
    if 'A' <= c <= 'Z' then (c as int + 32) as char else c
  }

  predicate SameIgnoringCase(a: char, b: char) {
    Lower(a) == Lower(b)
  }

  /** The class `\d`. */
  predicate IsDigit(c: char) {
    '0' <= c <= '9'
  }

  // ---------------------------------------------------------------------------
  // What a match is: occurrences at explicit positions.

  /** `lit` occurs, ignoring case, in `s` starting at position `i`. */
  ghost predicate OccursAt(s: string, lit: string, i: int) {
    0 <= i && i + |lit| <= |s| &&
    forall k :: 0 <= k < |lit| ==> SameIgnoringCase(s[i + k], lit[k])
  }

  /** `lit` occurs, ignoring case, somewhere in `s`. */
  ghost predicate Mentions(s: string, lit: string) {
    exists i :: OccursAt(s, lit, i)
  }

  /** Every character of `s[i..j]` is a decimal digit. */
  ghost predicate DigitsBetween(s: string, i: int, j: int) {
    0 <= i <= j <= |s| && forall k :: i <= k < j ==> IsDigit(s[k])
  }

  /** `/Loading chunk [\d]+ failed/i` matches starting at position `i`. */
  ghost predicate LoadingChunkOccursAt(s: string, i: int) {
    exists j ::
      && i + |LoadingChunkPrefix| < j
      && OccursAt(s, LoadingChunkPrefix, i)
      && DigitsBetween(s, i + |LoadingChunkPrefix|, j)
      && OccursAt(s, LoadingChunkSuffix, j)
  }

  /** The message carries one of the four chunk-failure signatures. */
  ghost predicate HasChunkSignature(m: string) {
    || Mentions(m, ChunkLoadErrorSignature)
    || (exists i :: LoadingChunkOccursAt(m, i))
    || Mentions(m, DynamicImportSignature)
    || Mentions(m, ModuleScriptSignature)
  }

  /** The two shapes the four patterns take: a plain text, and the text with
      a chunk number in it. */
  datatype Pattern = Literal(text: string) | NumberedChunk

  /** `CHUNK_ERROR_PATTERNS`, in the source's order. */
  const ChunkErrorPatterns: seq<Pattern> := [
    Literal(ChunkLoadErrorSignature),
    NumberedChunk,
    Literal(DynamicImportSignature),
    Literal(ModuleScriptSignature)
  ]

  /** `p` matches somewhere in `m`. */
  ghost predicate PatternOccurs(p: Pattern, m: string) {
    match p
    case Literal(t) => Mentions(m, t)
    case NumberedChunk => exists i :: LoadingChunkOccursAt(m, i)
  }

  // ---------------------------------------------------------------------------
  // The matcher: a left-to-right scan, as the regular-expression engine does.

  /** Compares `lit[k..]` with `s` from position `i + k` on, one character
      at a time. */
  function MatchesFrom(s: string, lit: string, i: nat, k: nat): bool
    decreases |lit| - k
  {
    if k >= |lit| then i + |lit| <= |s|
    else i + k < |s| && SameIgnoringCase(s[i + k], lit[k]) && MatchesFrom(s, lit, i, k + 1)
  }

  /** Tries `lit` at position `i` of `s`. */
  function MatchesAt(s: string, lit: string, i: nat): bool {
    MatchesFrom(s, lit, i, 0)
  }

  lemma {:induction false} MatchesFromCorrect(s: string, lit: string, i: nat, k: nat)
    requires k <= |lit|
    ensures MatchesFrom(s, lit, i, k) <==>
              i + |lit| <= |s| && forall j :: k <= j < |lit| ==> SameIgnoringCase(s[i + j], lit[j])
    decreases |lit| - k
  {
    if k < |lit| {
      MatchesFromCorrect(s, lit, i, k + 1);
    }
  }

  lemma MatchesAtCorrect(s: string, lit: string, i: nat)
    ensures MatchesAt(s, lit, i) <==> OccursAt(s, lit, i)
  {
    MatchesFromCorrect(s, lit, i, 0);
  }

  /** Searches for `lit` at every position from `i` on. */
  function SearchFrom(s: string, lit: string, i: nat): bool
    decreases |s| - i
  {
    if MatchesAt(s, lit, i) then true
    else if i >= |s| then false
    else SearchFrom(s, lit, i + 1)
  }

  lemma {:induction false} SearchFromCorrect(s: string, lit: string, i: nat)
    ensures SearchFrom(s, lit, i) <==> exists j :: i <= j && OccursAt(s, lit, j)
    decreases |s| - i
  {
    MatchesAtCorrect(s, lit, i);
    if !MatchesAt(s, lit, i) && i < |s| {
      SearchFromCorrect(s, lit, i + 1);
      if exists j :: i <= j && OccursAt(s, lit, j) {
        var j :| i <= j && OccursAt(s, lit, j);
        assert j != i;
      }
    }
  }

  /** `new RegExp(lit, 'i').test(s)` for a pattern without metacharacters. */
  function Contains(s: string, lit: string): bool {
    SearchFrom(s, lit, 0)
  }

  lemma ContainsCorrect(s: string, lit: string)
    ensures Contains(s, lit) <==> Mentions(s, lit)
  {
    SearchFromCorrect(s, lit, 0);
    if Mentions(s, lit) {
      var j :| OccursAt(s, lit, j);
      assert 0 <= j;
    }
  }

  /** The end of the run of digits that starts at `i` (the greedy `[\d]+`). */
  function DigitsEnd(s: string, i: nat): (e: nat)
    requires i <= |s|
    decreases |s| - i
    ensures i <= e <= |s|
  {
    if i < |s| && IsDigit(s[i]) then DigitsEnd(s, i + 1) else i
  }

  lemma {:induction false} DigitsEndCorrect(s: string, i: nat)
    requires i <= |s|
    ensures DigitsBetween(s, i, DigitsEnd(s, i))
    ensures DigitsEnd(s, i) < |s| ==> !IsDigit(s[DigitsEnd(s, i)])
    decreases |s| - i
  {
    if i < |s| && IsDigit(s[i]) {
      DigitsEndCorrect(s, i + 1);
    }
  }

  /** A digit run that is followed by a non-digit ends exactly where the
      greedy run ends, so backtracking inside `[\d]+` can never help. */
  lemma {:induction false} DigitRunIsMaximal(s: string, p: nat, j: int)
    requires DigitsBetween(s, p, j) && j < |s| && !IsDigit(s[j])
    ensures DigitsEnd(s, p) == j
    decreases j - p
  {
    if p < j {
      assert IsDigit(s[p]);
      DigitRunIsMaximal(s, p + 1, j);
    }
  }

  /** Tries `/Loading chunk [\d]+ failed/i` at position `i`. */
  function LoadingChunkAt(s: string, i: nat): bool {
    var p := i + |LoadingChunkPrefix|;
    MatchesAt(s, LoadingChunkPrefix, i) && p <= |s| &&
      var e := DigitsEnd(s, p);
      p < e && MatchesAt(s, LoadingChunkSuffix, e)
  }

  /** A character that matches the space of " failed" is not a digit. */
  lemma SuffixStartIsNotDigit(s: string, j: int)
    requires OccursAt(s, LoadingChunkSuffix, j)
    ensures j < |s| && !IsDigit(s[j])
  {
    assert SameIgnoringCase(s[j + 0], LoadingChunkSuffix[0]);
  }

  lemma LoadingChunkAtSound(s: string, i: nat)
    requires LoadingChunkAt(s, i)
    ensures LoadingChunkOccursAt(s, i)
  {
    var p := i + |LoadingChunkPrefix|;
    var e := DigitsEnd(s, p);
    MatchesAtCorrect(s, LoadingChunkPrefix, i);
    DigitsEndCorrect(s, p);
    MatchesAtCorrect(s, LoadingChunkSuffix, e);
    assert p < e && OccursAt(s, LoadingChunkPrefix, i) && DigitsBetween(s, p, e) && OccursAt(s, LoadingChunkSuffix, e);
  }

  lemma LoadingChunkAtComplete(s: string, i: nat)
    requires LoadingChunkOccursAt(s, i)
    ensures LoadingChunkAt(s, i)
  {
    var p := i + |LoadingChunkPrefix|;
    var j :| && p < j
             && OccursAt(s, LoadingChunkPrefix, i)
             && DigitsBetween(s, p, j)
             && OccursAt(s, LoadingChunkSuffix, j);
    SuffixStartIsNotDigit(s, j);
    DigitRunIsMaximal(s, p, j);
    MatchesAtCorrect(s, LoadingChunkPrefix, i);
    MatchesAtCorrect(s, LoadingChunkSuffix, j);
  }

  lemma LoadingChunkAtCorrect(s: string, i: nat)
    ensures LoadingChunkAt(s, i) <==> LoadingChunkOccursAt(s, i)
  {
    if LoadingChunkAt(s, i) {
      LoadingChunkAtSound(s, i);
    }
    if LoadingChunkOccursAt(s, i) {
      LoadingChunkAtComplete(s, i);
    }
  }

  /** Tries the numbered-chunk pattern at every position from `i` on. */
  function SearchLoadingChunkFrom(s: string, i: nat): bool
    decreases |s| - i
  {
    if LoadingChunkAt(s, i) then true
    else if i >= |s| then false
    else SearchLoadingChunkFrom(s, i + 1)
  }

  lemma {:induction false} SearchLoadingChunkFromCorrect(s: string, i: nat)
    ensures SearchLoadingChunkFrom(s, i) <==> exists j :: i <= j && LoadingChunkOccursAt(s, j)
    decreases |s| - i
  {
    LoadingChunkAtCorrect(s, i);
    if !LoadingChunkAt(s, i) {
      if i >= |s| {
        forall j | i <= j ensures !LoadingChunkOccursAt(s, j) {
          assert LoadingChunkOccursAt(s, j) ==> OccursAt(s, LoadingChunkPrefix, j);
        }
      } else {
        SearchLoadingChunkFromCorrect(s, i + 1);
        if exists j :: i <= j && LoadingChunkOccursAt(s, j) {
          var j :| i <= j && LoadingChunkOccursAt(s, j);
          assert j != i;
        }
      }
    }
  }

  /** `pattern.test(m)` */
  function Test(p: Pattern, m: string): bool {
    match p
    case Literal(t) => Contains(m, t)
    case NumberedChunk => SearchLoadingChunkFrom(m, 0)
  }

  lemma TestCorrect(p: Pattern, m: string)
    ensures Test(p, m) <==> PatternOccurs(p, m)
  {
    match p
    case Literal(t) =>
      ContainsCorrect(m, t);
    case NumberedChunk =>
      SearchLoadingChunkFromCorrect(m, 0);
      if exists i :: LoadingChunkOccursAt(m, i) {
        var i :| LoadingChunkOccursAt(m, i);
        assert OccursAt(m, LoadingChunkPrefix, i);
      }
  }

  /** `patterns.some((pattern) => pattern.test(m))` */
  function SomePatternMatches(patterns: seq<Pattern>, m: string): bool {
    if patterns == [] then false
    else Test(patterns[0], m) || SomePatternMatches(patterns[1..], m)
  }

  lemma {:induction false} SomePatternMatchesCorrect(patterns: seq<Pattern>, m: string)
    ensures SomePatternMatches(patterns, m) <==> exists k :: 0 <= k < |patterns| && PatternOccurs(patterns[k], m)
  {
    if patterns != [] {
      TestCorrect(patterns[0], m);
      SomePatternMatchesCorrect(patterns[1..], m);
      if exists k :: 0 <= k < |patterns| && PatternOccurs(patterns[k], m) {
        var k :| 0 <= k < |patterns| && PatternOccurs(patterns[k], m);
        if k != 0 {
          assert patterns[1..][k - 1] == patterns[k];
        }
      }
      if exists k :: 0 <= k < |patterns[1..]| && PatternOccurs(patterns[1..][k], m) {
        var k :| 0 <= k < |patterns[1..]| && PatternOccurs(patterns[1..][k], m);
        assert patterns[k + 1] == patterns[1..][k];
      }
    }
  }

  /** `isChunkError` */
  function IsChunkError(e: Thrown): bool {
    SomePatternMatches(ChunkErrorPatterns, MessageOf(e))
  }

  /** An error is a chunk failure exactly when its message contains, ignoring
      case, "ChunkLoadError", "Loading chunk <digits> failed", "Failed to
      fetch dynamically imported module" or "Importing a module script
      failed". */
  lemma IsChunkErrorIffSignature(e: Thrown)
    ensures IsChunkError(e) <==> HasChunkSignature(MessageOf(e))
  {
    var m := MessageOf(e);
    var ps := ChunkErrorPatterns;
    SomePatternMatchesCorrect(ps, m);
    assert PatternOccurs(ps[0], m) <==> Mentions(m, ChunkLoadErrorSignature);
    assert PatternOccurs(ps[1], m) <==> exists i :: LoadingChunkOccursAt(m, i);
    assert PatternOccurs(ps[2], m) <==> Mentions(m, DynamicImportSignature);
    assert PatternOccurs(ps[3], m) <==> Mentions(m, ModuleScriptSignature);
  }

  // ---------------------------------------------------------------------------
  // Consequences.

  /** Every signature is at least 14 characters long, so a shorter message,
      and in particular a thrown `null` or `undefined`, is never taken for a
      chunk failure. */
  lemma ShortMessageIsNotChunkError(e: Thrown)
    requires |MessageOf(e)| < |ChunkLoadErrorSignature|
    ensures !IsChunkError(e)
  {
    IsChunkErrorIffSignature(e);
    var m := MessageOf(e);
    forall i ensures !LoadingChunkOccursAt(m, i) {
      assert LoadingChunkOccursAt(m, i) ==> OccursAt(m, LoadingChunkPrefix, i);
    }
  }

  lemma NullishIsNotChunkError(e: Thrown)
    requires IsNullish(e)
    ensures !IsChunkError(e)
  {
    ShortMessageIsNotChunkError(e);
  }

  /** The message webpack gives a failed chunk, "Loading chunk <n> failed",
      is recognised for every chunk number `n`, whatever surrounds it. */
  lemma NumberedChunkMessageIsChunkError(before: string, n: string, after: string)
    requires |n| > 0 && forall k :: 0 <= k < |n| ==> IsDigit(n[k])
    ensures IsChunkError(ErrorObject(before + LoadingChunkPrefix + n + LoadingChunkSuffix + after))
  {
    var m := before + LoadingChunkPrefix + n + LoadingChunkSuffix + after;
    var i := |before|;
    var p := i + |LoadingChunkPrefix|;
    var j := p + |n|;
    IsChunkErrorIffSignature(ErrorObject(m));
    assert OccursAt(m, LoadingChunkPrefix, i) by {
      forall k | 0 <= k < |LoadingChunkPrefix| ensures m[i + k] == LoadingChunkPrefix[k] {
      }
    }
    assert DigitsBetween(m, p, j) by {
      forall k | p <= k < j ensures m[k] == n[k - p] {
      }
    }
    assert OccursAt(m, LoadingChunkSuffix, j) by {
      forall k | 0 <= k < |LoadingChunkSuffix| ensures m[j + k] == LoadingChunkSuffix[k] {
      }
    }
    assert LoadingChunkOccursAt(m, i);
  }

  /** The message with every ASCII capital replaced by its small letter. */
  function LowerCase(m: string): (r: string)
    ensures |r| == |m|
    ensures forall k :: 0 <= k < |m| ==> r[k] == Lower(m[k])
  {
    seq(|m|, k requires 0 <= k < |m| => Lower(m[k]))
  }

  lemma LowerCaseOccurs(m: string, lit: string, i: int)
    ensures OccursAt(LowerCase(m), lit, i) <==> OccursAt(m, lit, i)
  {
  }

  lemma LowerCaseDigits(m: string, i: int, j: int)
    ensures DigitsBetween(LowerCase(m), i, j) <==> DigitsBetween(m, i, j)
  {
  }

  /** The `i` flag: the classification of a message does not depend on the
      ASCII letter case it is written in.  (`toLowerCase` is not this: it
      maps KELVIN SIGN U+212A onto `k`, which `/i` without `u` never does.) */
  lemma {:induction false} ChunkErrorIgnoresCase(m: string)
    ensures IsChunkError(NonError(LowerCase(m))) <==> IsChunkError(NonError(m))
  {
    var l := LowerCase(m);
    IsChunkErrorIffSignature(NonError(l));
    IsChunkErrorIffSignature(NonError(m));
    forall lit, i ensures OccursAt(l, lit, i) <==> OccursAt(m, lit, i) {
      LowerCaseOccurs(m, lit, i);
    }
    forall i, j ensures DigitsBetween(l, i, j) <==> DigitsBetween(m, i, j) {
      LowerCaseDigits(m, i, j);
    }
    assert forall i :: LoadingChunkOccursAt(l, i) <==> LoadingChunkOccursAt(m, i);
    assert Mentions(l, ChunkLoadErrorSignature) <==> Mentions(m, ChunkLoadErrorSignature);
    assert Mentions(l, DynamicImportSignature) <==> Mentions(m, DynamicImportSignature);
    assert Mentions(l, ModuleScriptSignature) <==> Mentions(m, ModuleScriptSignature);
  }
}
