/** Conversion of an entity id to snake_case: two regular-expression
    substitutions, then "-" to "_", then lower case. */
module EntityIdFormat {
  import opened Text

  /** Length of the run of upper-case letters that starts `s`. */
  function UpperRun(s: string): (n: nat)
    ensures n <= |s|
    ensures forall i :: 0 <= i < n ==> IsUpper(s[i])
    ensures n < |s| ==> !IsUpper(s[n])
  {
    if s != [] && IsUpper(s[0]) then 1 + UpperRun(s[1..]) else 0
  }

  /** The run of `j` capitals that starts `s` is the `[A-Z]+[A-Z]` of a
      match: it has at least two capitals and a lower-case letter follows. */
  predicate AcronymEnds(s: string, j: nat) {
    j >= 2 && j < |s| && IsLower(s[j])
  }

  /** First substitution, `([A-Z]+)([A-Z][a-z])` to `\1_\2`: a run of two or
      more capitals followed by a lower-case letter gets "_" before its last
      capital. Scanning resumes after the lower-case letter. Only "_" is
      added (SplitAcronymsLetters), exactly there (SplitAcronymsBoundary,
      SplitAcronymsOnlyThere). */
  function SplitAcronyms(s: string): string
    decreases |s|
  {
    if s == [] then []
    else if IsUpper(s[0]) then
      var j := UpperRun(s);
      if AcronymEnds(s, j) then s[..j - 1] + "_" + s[j - 1..j + 1] + SplitAcronyms(s[j + 1..])
      else s[..j] + SplitAcronyms(s[j..])
    else [s[0]] + SplitAcronyms(s[1..])
  }

  predicate LowerOrDigit(c: char) { IsLower(c) || IsDigit(c) }

  /** Second substitution, `([a-z\d])([A-Z])` to `\1_\2`: "_" between a
      lower-case letter or digit and the capital after it. Only "_" is
      added (SplitWordsLetters), exactly there (SplitWordsBoundary,
      SplitWordsOnlyThere). */
  function SplitWords(s: string): string
    decreases |s|
  {
    if |s| < 2 then s
    else if LowerOrDigit(s[0]) && IsUpper(s[1]) then [s[0], '_', s[1]] + SplitWords(s[2..])
    else [s[0]] + SplitWords(s[1..])
  }

  /** `s.replace("-", "_")`. */
  function DashesToUnderscores(s: string): (r: string)
    ensures |r| == |s|
    ensures forall i :: 0 <= i < |s| ==> r[i] == if s[i] == '-' then '_' else s[i]
  {
    if s == [] then [] else [if s[0] == '-' then '_' else s[0]] + DashesToUnderscores(s[1..])
  }

  /** `format_entity_id`: the result has no capitals and no "-", and with
      separators dropped and case ignored it is the id it came from, so
      formatting only inserts and rewrites separators and lowers letters. */
  function FormatEntityId(id: string): (r: string)
    ensures NoUpper(r)
    ensures '-' !in r
    ensures Letters(r) == Letters(id)
  {
    var a := SplitAcronyms(id);
    var w := SplitWords(a);
    var d := DashesToUnderscores(w);
    SplitAcronymsLetters(id);
    SplitWordsLetters(a);
    DashesLetters(w);
    LowerLetters(d);
    assert forall i :: 0 <= i < |d| ==> d[i] != '-';
    Lower(d)
  }

  lemma {:induction false} SplitAcronymsNoUpper(s: string)
    requires NoUpper(s)
    ensures SplitAcronyms(s) == s
    decreases |s|
  {
    if s != [] {
      SplitAcronymsNoUpper(s[1..]);
      assert [s[0]] + s[1..] == s;
    }
  }

  lemma {:induction false} SplitWordsNoUpper(s: string)
    requires NoUpper(s)
    ensures SplitWords(s) == s
    decreases |s|
  {
    if |s| >= 2 {
      SplitWordsNoUpper(s[1..]);
      assert [s[0]] + s[1..] == s;
    }
  }

  lemma DashesNone(s: string)
    requires '-' !in s
    ensures DashesToUnderscores(s) == s
  {
  }

  lemma LowerNoUpper(s: string)
    requires NoUpper(s)
    ensures Lower(s) == s
  {
  }

  /** Formatting an already formatted id changes nothing. */
  lemma FormatIdempotent(id: string)
    ensures FormatEntityId(FormatEntityId(id)) == FormatEntityId(id)
  {
    var f := FormatEntityId(id);
    SplitAcronymsNoUpper(f);
    SplitWordsNoUpper(f);
    DashesNone(f);
    LowerNoUpper(f);
  }

  /** An id already in snake_case (no capitals, no "-") is left as it is. */
  lemma FormatKeepsSnakeCase(id: string)
    requires NoUpper(id) && '-' !in id
    ensures FormatEntityId(id) == id
  {
    SplitAcronymsNoUpper(id);
    SplitWordsNoUpper(id);
    DashesNone(id);
    LowerNoUpper(id);
  }

  /** The id with every "_" and "-" removed and letters lowered. */
  function Letters(s: string): (r: string)
  {
    if s == [] then []
    else if s[0] == '_' || s[0] == '-' then Letters(s[1..])
    else [LowerChar(s[0])] + Letters(s[1..])
  }

  lemma {:induction false} LettersAppend(a: string, b: string)
    ensures Letters(a + b) == Letters(a) + Letters(b)
    decreases |a|
  {
    if a == [] {
      assert a + b == b;
    } else {
      assert (a + b)[0] == a[0];
      assert (a + b)[1..] == a[1..] + b;
      LettersAppend(a[1..], b);
    }
  }

  lemma LettersUnderscore(x: string, y: string)
    ensures Letters(x + "_" + y) == Letters(x + y)
  {
    LettersAppend(x + "_", y);
    LettersAppend(x, "_");
    LettersAppend(x, y);
  }

  /** Keeping the letters of a suffix keeps the letters of the whole. */
  lemma LettersPrefix(p: string, x: string, t: string)
    requires Letters(x) == Letters(t)
    ensures Letters(p + x) == Letters(p + t)
  {
    LettersAppend(p, x);
    LettersAppend(p, t);
  }

  /** An inserted "_" does not change the letters. */
  lemma LettersSplice(p: string, q: string, x: string, t: string)
    requires Letters(x) == Letters(t)
    ensures Letters(p + "_" + q + x) == Letters(p + q + t)
  {
    calc {
      Letters(p + "_" + q + x);
      { LettersAppend(p + "_" + q, x); }
      Letters(p + "_" + q) + Letters(x);
      { LettersUnderscore(p, q); }
      Letters(p + q) + Letters(t);
      { LettersAppend(p + q, t); }
      Letters(p + q + t);
    }
  }

  /** The letters of `s` survive a "_" inserted before position `k`, given
      that the part after `k + 2` keeps its letters. */
  lemma LettersInsert(s: string, k: nat, x: string, r: string)
    requires k + 2 <= |s|
    requires r == s[..k] + "_" + s[k..k + 2] + x
    requires Letters(x) == Letters(s[k + 2..])
    ensures Letters(r) == Letters(s)
  {
    SliceThree(s, k);
    LettersSplice(s[..k], s[k..k + 2], x, s[k + 2..]);
  }

  lemma SliceThree(s: string, k: nat)
    requires k + 2 <= |s|
    ensures s[..k] + s[k..k + 2] + s[k + 2..] == s
  {
  }

  /** A run of capitals not followed by a lower-case letter, or of a single
      capital, is copied as it is. */
  lemma SplitAcronymsPlain(s: string, j: nat)
    requires s != [] && IsUpper(s[0]) && j == UpperRun(s)
    requires !AcronymEnds(s, j)
    ensures SplitAcronyms(s) == s[..j] + SplitAcronyms(s[j..])
  {
  }

  /** Rewriting the part of `s` after its first `j` characters, without
      changing its letters, keeps the letters of `s`. */
  lemma LettersKept(s: string, j: nat, a: string, b: string)
    requires j <= |s| && a == s[..j] + b
    requires Letters(b) == Letters(s[j..])
    ensures Letters(a) == Letters(s)
  {
    LettersPrefix(s[..j], b, s[j..]);
    assert s[..j] + s[j..] == s;
  }

  lemma SplitAcronymsRunStep(s: string, j: nat)
    requires s != [] && IsUpper(s[0]) && j == UpperRun(s) && AcronymEnds(s, j)
    requires Letters(SplitAcronyms(s[j + 1..])) == Letters(s[j + 1..])
    ensures Letters(SplitAcronyms(s)) == Letters(s)
  {
    LettersInsert(s, j - 1, SplitAcronyms(s[j + 1..]), SplitAcronyms(s));
  }

  lemma SplitAcronymsOtherStep(s: string)
    requires s != [] && !IsUpper(s[0])
    requires Letters(SplitAcronyms(s[1..])) == Letters(s[1..])
    ensures Letters(SplitAcronyms(s)) == Letters(s)
  {
    LettersKept(s, 1, SplitAcronyms(s), SplitAcronyms(s[1..]));
  }

  /** The first substitution only inserts "_": with separators dropped and
      case ignored, the text is unchanged. */
  lemma {:induction false} SplitAcronymsLetters(s: string)
    ensures Letters(SplitAcronyms(s)) == Letters(s)
    decreases |s|
  {
    if s == [] {
    } else if IsUpper(s[0]) {
      var j := UpperRun(s);
      if AcronymEnds(s, j) {
        SplitAcronymsLetters(s[j + 1..]);
        SplitAcronymsRunStep(s, j);
      } else {
        SplitAcronymsLetters(s[j..]);
        SplitAcronymsPlain(s, j);
        LettersKept(s, j, SplitAcronyms(s), SplitAcronyms(s[j..]));
      }
    } else {
      SplitAcronymsLetters(s[1..]);
      SplitAcronymsOtherStep(s);
    }
  }

  /** The second substitution only inserts "_": with separators dropped and
      case ignored, the text is unchanged. */
  lemma {:induction false} SplitWordsLetters(s: string)
    ensures Letters(SplitWords(s)) == Letters(s)
    decreases |s|
  {
    if |s| >= 2 {
      if LowerOrDigit(s[0]) && IsUpper(s[1]) {
        SplitWordsLetters(s[2..]);
        LettersAppend([s[0], '_', s[1]], SplitWords(s[2..]));
        LettersAppend([s[0], s[1]], s[2..]);
        assert [s[0], s[1]] + s[2..] == s;
      } else {
        SplitWordsLetters(s[1..]);
        LettersAppend([s[0]], SplitWords(s[1..]));
        LettersAppend([s[0]], s[1..]);
        assert [s[0]] + s[1..] == s;
      }
    }
  }

  lemma {:induction false} DashesLetters(s: string)
    ensures Letters(DashesToUnderscores(s)) == Letters(s)
    decreases |s|
  {
    if s != [] {
      DashesLetters(s[1..]);
      assert DashesToUnderscores(s)[1..] == DashesToUnderscores(s[1..]);
    }
  }

  lemma {:induction false} LowerLetters(s: string)
    ensures Letters(Lower(s)) == Letters(s)
    decreases |s|
  {
    if s != [] {
      LowerLetters(s[1..]);
      assert Lower(s)[1..] == Lower(s[1..]);
    }
  }

  // ------------------------------------------------ where "_" is inserted

  /** The first `n` characters of `t` are capitals and the next one, if
      any, is not: the leading run has length `n`. */
  lemma UpperRunExact(t: string, n: nat)
    requires n <= |t|
    requires forall i :: 0 <= i < n ==> IsUpper(t[i])
    requires n < |t| ==> !IsUpper(t[n])
    ensures UpperRun(t) == n
  {
  }

  /** Cutting `s` after its first `k` characters, where `k` lies past the
      leading run of capitals, keeps that run and what follows it. */
  lemma PrefixRun(s: string, k: nat)
    requires s != [] && IsUpper(s[0]) && UpperRun(s) < k <= |s|
    ensures UpperRun(s[..k]) == UpperRun(s)
    ensures AcronymEnds(s[..k], UpperRun(s)) == AcronymEnds(s, UpperRun(s))
  {
    UpperRunExact(s[..k], UpperRun(s));
  }

  /** One step of the scan at a run of capitals: what it writes, and where it
      resumes. */
  function RunOut(s: string, j: nat): string
    requires 1 <= j <= |s|
  {
    if AcronymEnds(s, j) then s[..j - 1] + "_" + s[j - 1..j + 1] else s[..j]
  }

  /** Where the scan resumes after a run of `j` capitals. */
  function RunTail(s: string, j: nat): nat {
    if AcronymEnds(s, j) then j + 1 else j
  }

  /** The scan at a leading run of capitals: RunOut, then the rest. */
  lemma UnfoldRun(s: string)
    requires s != [] && IsUpper(s[0])
    ensures RunTail(s, UpperRun(s)) <= |s|
    ensures SplitAcronyms(s) == RunOut(s, UpperRun(s)) + SplitAcronyms(s[RunTail(s, UpperRun(s))..])
  {
  }

  /** A prefix that extends past the run's end writes the same for it. */
  lemma RunOutPrefix(s: string, k: nat, j: nat)
    requires 1 <= j < k <= |s|
    ensures RunOut(s[..k], j) == RunOut(s, j)
    ensures RunTail(s[..k], j) == RunTail(s, j)
  {
    var p := s[..k];
    assert p[j] == s[j];
    assert p[..j] == s[..j];
    assert p[..j - 1] == s[..j - 1];
    assert p[j - 1..j + 1] == s[j - 1..j + 1];
  }

  /** The scan of `s[..k]`, when `k` lies past the leading run. */
  lemma UnfoldRunPrefix(s: string, k: nat)
    requires s != [] && IsUpper(s[0]) && UpperRun(s) < k <= |s|
    ensures RunTail(s, UpperRun(s)) <= k
    ensures SplitAcronyms(s[..k]) == RunOut(s, UpperRun(s)) + SplitAcronyms(s[RunTail(s, UpperRun(s))..k])
  {
    var p := s[..k];
    var j := UpperRun(s);
    PrefixRun(s, k);
    UnfoldRun(p);
    RunOutPrefix(s, k, j);
    assert p[RunTail(s, j)..] == s[RunTail(s, j)..k];
  }

  /** Cutting after a leading run: given the cut of what follows the run. */
  lemma RunBranch(s: string, k: nat)
    requires s != [] && IsUpper(s[0]) && UpperRun(s) < k <= |s|
    requires var tail := RunTail(s, UpperRun(s));
             tail <= k &&
             SplitAcronyms(s[tail..]) == SplitAcronyms(s[tail..k]) + SplitAcronyms(s[k..])
    ensures SplitAcronyms(s) == SplitAcronyms(s[..k]) + SplitAcronyms(s[k..])
  {
    UnfoldRun(s);
    UnfoldRunPrefix(s, k);
    var tail := RunTail(s, UpperRun(s));
    Glue(SplitAcronyms(s), SplitAcronyms(s[..k]), RunOut(s, UpperRun(s)),
         SplitAcronyms(s[tail..]), SplitAcronyms(s[tail..k]), SplitAcronyms(s[k..]));
  }

  /** Two outputs with a common head differ only in their tails. */
  lemma Glue(a: string, b: string, out: string, t: string, tp: string, rest: string)
    requires a == out + t && b == out + tp && t == tp + rest
    ensures a == b + rest
  {
  }

  /** The scan at a character that is not a capital copies it. */
  lemma UnfoldOther(s: string, k: nat)
    requires 0 < k <= |s| && !IsUpper(s[0])
    ensures SplitAcronyms(s) == [s[0]] + SplitAcronyms(s[1..])
    ensures SplitAcronyms(s[..k]) == [s[0]] + SplitAcronyms(s[1..k])
  {
    SliceOfTake(s, 1, k);
  }

  /** Cutting after a leading non-capital: given the cut of the rest. */
  lemma OtherBranch(s: string, k: nat)
    requires 0 < k <= |s| && !IsUpper(s[0])
    requires SplitAcronyms(s[1..]) == SplitAcronyms(s[1..][..k - 1]) + SplitAcronyms(s[1..][k - 1..])
    ensures SplitAcronyms(s) == SplitAcronyms(s[..k]) + SplitAcronyms(s[k..])
  {
    SliceOfDrop(s, 1, k);
    UnfoldOther(s, k);
    Glue(SplitAcronyms(s), SplitAcronyms(s[..k]), [s[0]],
         SplitAcronyms(s[1..]), SplitAcronyms(s[1..k]), SplitAcronyms(s[k..]));
  }

  /** RunBranch, with the cut of the rest as the recursive call states it. */
  lemma RunBranchRaw(s: string, k: nat)
    requires s != [] && IsUpper(s[0]) && UpperRun(s) < k <= |s|
    requires var tail := RunTail(s, UpperRun(s));
             tail <= k &&
             SplitAcronyms(s[tail..]) == SplitAcronyms(s[tail..][..k - tail]) + SplitAcronyms(s[tail..][k - tail..])
    ensures SplitAcronyms(s) == SplitAcronyms(s[..k]) + SplitAcronyms(s[k..])
  {
    SliceOfDrop(s, RunTail(s, UpperRun(s)), k);
    RunBranch(s, k);
  }

  /** Slices of a suffix are slices of the whole. */
  lemma SliceOfDrop(s: string, a: nat, b: nat)
    requires a <= b <= |s|
    ensures s[a..][..b - a] == s[a..b]
    ensures s[a..][b - a..] == s[b..]
  {
  }

  /** A suffix of a prefix is a slice of the whole. */
  lemma SliceOfTake(s: string, a: nat, k: nat)
    requires a <= k <= |s|
    ensures s[..k][a..] == s[a..k]
  {
  }

  /** The first substitution scans `s` left to right and reaches every
      position that follows a character that is not a capital, so it can be
      applied to the two sides of such a position separately. */
  lemma {:induction false} SplitAcronymsCut(s: string, k: nat)
    requires k <= |s|
    requires k == 0 || !IsUpper(s[k - 1])
    ensures SplitAcronyms(s) == SplitAcronyms(s[..k]) + SplitAcronyms(s[k..])
    decreases |s|
  {
    if k == 0 {
      assert s[..k] == [] && s[k..] == s;
    } else if IsUpper(s[0]) {
      var j := UpperRun(s);
      assert j < k;
      var tail := RunTail(s, j);
      SplitAcronymsCut(s[tail..], k - tail);
      RunBranchRaw(s, k);
    } else {
      SplitAcronymsCut(s[1..], k - 1);
      OtherBranch(s, k);
    }
  }

  /** The scan at a run `s[p..q]` of two or more capitals followed by a
      lower-case letter. */
  lemma RunAt(s: string, p: nat, q: nat)
    requires p + 2 <= q < |s|
    requires forall i :: p <= i < q ==> IsUpper(s[i])
    requires IsLower(s[q])
    ensures SplitAcronyms(s[p..]) == s[p..q - 1] + "_" + s[q - 1..q + 1] + SplitAcronyms(s[q + 1..])
  {
    var t := s[p..];
    UpperRunExact(t, q - p);
    UnfoldRun(t);
    assert t[..q - p - 1] == s[p..q - 1];
    assert t[q - p - 1..q - p + 1] == s[q - 1..q + 1];
    assert t[q - p + 1..] == s[q + 1..];
  }

  /** Where a maximal run of two or more capitals, `s[p..q]`, is followed by
      a lower-case letter, "_" goes before the run's last capital, and the
      run and that letter are otherwise copied. */
  lemma SplitAcronymsBoundary(s: string, p: nat, q: nat)
    requires p + 2 <= q < |s|
    requires p == 0 || !IsUpper(s[p - 1])
    requires forall i :: p <= i < q ==> IsUpper(s[i])
    requires IsLower(s[q])
    ensures SplitAcronyms(s) == SplitAcronyms(s[..p]) + s[p..q - 1] + "_" + s[q - 1..q + 1] + SplitAcronyms(s[q + 1..])
  {
    SplitAcronymsCut(s, p);
    RunAt(s, p, q);
    GlueTail(SplitAcronyms(s), SplitAcronyms(s[..p]), SplitAcronyms(s[p..]),
             s[p..q - 1], s[q - 1..q + 1], SplitAcronyms(s[q + 1..]));
  }

  /** Concatenation regrouped, for the shape SplitAcronymsBoundary states. */
  lemma GlueTail(a: string, pre: string, t: string, b: string, c: string, d: string)
    requires a == pre + t && t == b + "_" + c + d
    ensures a == pre + b + "_" + c + d
  {
  }

  /** A leading run that is not an acronym is copied, and so is the rest. */
  lemma KeptRun(s: string)
    requires s != [] && IsUpper(s[0]) && !AcronymEnds(s, UpperRun(s))
    requires SplitAcronyms(s[UpperRun(s)..]) == s[UpperRun(s)..]
    ensures SplitAcronyms(s) == s
  {
    var j := UpperRun(s);
    UnfoldRun(s);
    assert s[..j] + s[j..] == s;
  }

  /** A leading non-capital is copied, and so is the rest. */
  lemma KeptOther(s: string)
    requires s != [] && !IsUpper(s[0])
    requires SplitAcronyms(s[1..]) == s[1..]
    ensures SplitAcronyms(s) == s
  {
    UnfoldOther(s, |s|);
    assert [s[0]] + s[1..] == s;
  }

  /** A string in which no two capitals are followed by a lower-case letter
      is left as it is by the first substitution. */
  lemma {:induction false} SplitAcronymsOnlyThere(s: string)
    requires forall i :: 0 <= i < |s| - 2 ==> !(IsUpper(s[i]) && IsUpper(s[i + 1]) && IsLower(s[i + 2]))
    ensures SplitAcronyms(s) == s
    decreases |s|
  {
    if s != [] {
      if IsUpper(s[0]) {
        var j := UpperRun(s);
        if j >= 2 && j < |s| {
          assert !(IsUpper(s[j - 2]) && IsUpper(s[j - 1]) && IsLower(s[j]));
        }
        SplitAcronymsOnlyThere(s[j..]);
        KeptRun(s);
      } else {
        SplitAcronymsOnlyThere(s[1..]);
        KeptOther(s);
      }
    }
  }

  /** The second substitution at a lower-case letter or digit followed by
      a capital, for `s` and for its first `k` characters. */
  lemma UnfoldWordsPair(s: string, k: nat)
    requires 2 <= k <= |s| && LowerOrDigit(s[0]) && IsUpper(s[1])
    ensures SplitWords(s) == [s[0], '_', s[1]] + SplitWords(s[2..])
    ensures SplitWords(s[..k]) == [s[0], '_', s[1]] + SplitWords(s[2..k])
  {
    SliceOfTake(s, 2, k);
  }

  /** The second substitution anywhere else copies one character. */
  lemma UnfoldWordsSingle(s: string, k: nat)
    requires 1 <= k <= |s| && |s| >= 2 && !(LowerOrDigit(s[0]) && IsUpper(s[1]))
    ensures SplitWords(s) == [s[0]] + SplitWords(s[1..])
    ensures SplitWords(s[..k]) == [s[0]] + SplitWords(s[1..k])
  {
    SliceOfTake(s, 1, k);
  }

  /** Cutting after a pair: given the cut of the rest. */
  lemma WordsPairBranch(s: string, k: nat)
    requires 2 <= k <= |s| && LowerOrDigit(s[0]) && IsUpper(s[1])
    requires SplitWords(s[2..]) == SplitWords(s[2..][..k - 2]) + SplitWords(s[2..][k - 2..])
    ensures SplitWords(s) == SplitWords(s[..k]) + SplitWords(s[k..])
  {
    SliceOfDrop(s, 2, k);
    UnfoldWordsPair(s, k);
    Glue(SplitWords(s), SplitWords(s[..k]), [s[0], '_', s[1]],
         SplitWords(s[2..]), SplitWords(s[2..k]), SplitWords(s[k..]));
  }

  /** Cutting after a copied character: given the cut of the rest. */
  lemma WordsSingleBranch(s: string, k: nat)
    requires 1 <= k <= |s| && |s| >= 2 && !(LowerOrDigit(s[0]) && IsUpper(s[1]))
    requires SplitWords(s[1..]) == SplitWords(s[1..][..k - 1]) + SplitWords(s[1..][k - 1..])
    ensures SplitWords(s) == SplitWords(s[..k]) + SplitWords(s[k..])
  {
    SliceOfDrop(s, 1, k);
    UnfoldWordsSingle(s, k);
    Glue(SplitWords(s), SplitWords(s[..k]), [s[0]],
         SplitWords(s[1..]), SplitWords(s[1..k]), SplitWords(s[k..]));
  }

  /** The second substitution moves from pair to pair and never takes a
      character that is not a capital as the second of a pair, so it can be
      applied to the two sides of such a character separately. */
  lemma {:induction false} SplitWordsCut(s: string, k: nat)
    requires k <= |s|
    requires k == 0 || k == |s| || !IsUpper(s[k])
    ensures SplitWords(s) == SplitWords(s[..k]) + SplitWords(s[k..])
    decreases |s|
  {
    if k == 0 {
      assert s[..k] == [] && s[k..] == s;
    } else if k == |s| {
      assert s[..k] == s && s[k..] == [];
    } else if LowerOrDigit(s[0]) && IsUpper(s[1]) {
      SplitWordsCut(s[2..], k - 2);
      WordsPairBranch(s, k);
    } else {
      SplitWordsCut(s[1..], k - 1);
      WordsSingleBranch(s, k);
    }
  }

  /** The second substitution at a lower-case letter or digit `s[i]` followed
      by a capital. */
  lemma WordsAt(s: string, i: nat)
    requires i + 1 < |s|
    requires LowerOrDigit(s[i]) && IsUpper(s[i + 1])
    ensures SplitWords(s[i..]) == [s[i], '_'] + SplitWords(s[i + 1..])
  {
    var t := s[i..];
    assert t[2..] == s[i + 1..][1..];
  }

  /** Between a lower-case letter or digit `s[i]` and a capital `s[i + 1]`
      the second substitution puts "_". */
  lemma SplitWordsBoundary(s: string, i: nat)
    requires i + 1 < |s|
    requires LowerOrDigit(s[i]) && IsUpper(s[i + 1])
    ensures SplitWords(s) == SplitWords(s[..i]) + [s[i], '_'] + SplitWords(s[i + 1..])
  {
    SplitWordsCut(s, i);
    WordsAt(s, i);
    GlueHead(SplitWords(s), SplitWords(s[..i]), SplitWords(s[i..]), [s[i], '_'], SplitWords(s[i + 1..]));
  }

  /** Concatenation regrouped, for the shape SplitWordsBoundary states. */
  lemma GlueHead(a: string, pre: string, t: string, b: string, c: string)
    requires a == pre + t && t == b + c
    ensures a == pre + b + c
  {
  }

  /** A string with no lower-case letter or digit followed by a capital is
      left as it is by the second substitution. */
  lemma {:induction false} SplitWordsOnlyThere(s: string)
    requires forall i :: 0 <= i < |s| - 1 ==> !(LowerOrDigit(s[i]) && IsUpper(s[i + 1]))
    ensures SplitWords(s) == s
    decreases |s|
  {
    if |s| >= 2 {
      SplitWordsOnlyThere(s[1..]);
      assert [s[0]] + s[1..] == s;
    }
  }
}
