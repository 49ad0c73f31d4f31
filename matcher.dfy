/**
 * The no-proxy matcher of HttpAccessService: `matches`, a two-vector NFA
 * simulation over boolean arrays, and `matchesList`, which asks it of each
 * pattern in turn.
 */
module Matcher {
  import opened Wrappers
  import opened GlobSpec

  const NUL: char := '\0'

  /** `P[..k]` matches `T[..i]`: pattern position `k` is reached after `i` text characters. */
  ghost predicate Reached(P: string, T: string, k: nat, i: nat)
    requires k <= |P| && i <= |T|
  {
    Glob(P[..k], T[..i])
  }

  /** Position `k` is live after `i` characters: reached, or a star there has already
      absorbed text (the star's own self-loop keeps `k` set). */
  ghost predicate Live(P: string, T: string, k: nat, i: nat)
    requires k <= |P| && i <= |T|
  {
    Reached(P, T, k, i) || (k < |P| && P[k] == '*' && Reached(P, T, k + 1, i))
  }

  /** What the pattern character `c` does with text character `x` in the code: `*`, `?` and `x` itself advance. */
  predicate Advances(c: char, x: char) {
    c == '*' || c == '?' || c == x
  }

  /** The state vector before its stars are closed over: element `k` of `old` when
      the outer loop starts on text character `i`. */
  ghost predicate Entry(P: string, T: string, k: nat, i: nat)
    requires k <= |P| && i <= |T|
  {
    if i == 0 then k == 0
    else (0 < k && Live(P, T, k - 1, i - 1) && Advances(P[k - 1], T[i - 1]))
         || (k < |P| && P[k] == '*' && Live(P, T, k, i - 1))
  }

  lemma ReachedNoPattern(P: string, T: string, i: nat)
    requires i <= |T|
    ensures Reached(P, T, 0, i) == (i == 0)
  {
    assert P[..0] == [];
  }

  lemma ReachedStep(P: string, T: string, k: nat, i: nat)
    requires k < |P| && i < |T| && P[k] != '*'
    ensures Reached(P, T, k + 1, i + 1) == (MatchesOne(P[k], T[i]) && Reached(P, T, k, i))
  {
    assert P[..k + 1] == P[..k] + [P[k]] && T[..i + 1] == T[..i] + [T[i]];
    GlobSnocOne(P[..k], T[..i], P[k], T[i]);
  }

  lemma ReachedStar(P: string, T: string, k: nat, i: nat)
    requires k < |P| && i <= |T| && P[k] == '*'
    ensures Reached(P, T, k + 1, i) == (Reached(P, T, k, i) || (0 < i && Reached(P, T, k + 1, i - 1)))
  {
    assert P[..k + 1] == P[..k] + "*";
    if 0 < i {
      assert T[..i][..i - 1] == T[..i - 1];
    }
    GlobSnocStar(P[..k], T[..i]);
  }

  lemma ReachedNoText(P: string, T: string, k: nat)
    requires k < |P|
    ensures Reached(P, T, k + 1, 0) == (P[k] == '*' && Reached(P, T, k, 0))
  {
    assert P[..k + 1] == P[..k] + [P[k]] && T[..0] == [];
    GlobSnocEmptyText(P[..k], P[k]);
  }

  /** Closing the entry vector starts right: position 0 is live exactly when it entered. */
  lemma ClosureBase(P: string, T: string, i: nat)
    requires i <= |T|
    ensures Live(P, T, 0, i) == Entry(P, T, 0, i)
  {
    ReachedNoPattern(P, T, i);
    if 0 < |P| && P[0] == '*' {
      assert P[..1] == "*";
      StarMatchesAll(T[..i]);
      if 0 < i {
        StarMatchesAll(T[..i - 1]);
      }
    }
  }

  /** One step of the star closure (`old[j + 1] = true` after a live star at `j`)
      turns the entry vector into the live vector. */
  lemma ClosureStep(P: string, T: string, k: nat, i: nat)
    requires k < |P| && i <= |T|
    ensures Live(P, T, k + 1, i) == (Entry(P, T, k + 1, i) || (Live(P, T, k, i) && P[k] == '*'))
  {
    if i == 0 {
      ReachedNoText(P, T, k);
      if k + 1 < |P| {
        ReachedNoText(P, T, k + 1);
      }
    } else {
      if P[k] == '*' {
        ReachedStar(P, T, k, i);
        ReachedStar(P, T, k, i - 1);
      } else {
        ReachedStep(P, T, k, i - 1);
      }
      if k + 1 < |P| && P[k + 1] == '*' {
        ReachedStar(P, T, k + 1, i);
        ReachedStar(P, T, k + 1, i - 1);
      }
    }
  }

  /** `E` is the vector `old` as it stands when the outer loop starts on text character `i`.
      The trigger keeps this link to `Glob` out of the way until a lemma asks for it. */
  ghost predicate IsEntryRow(P: string, T: string, i: nat, E: seq<bool>)
    requires i <= |T|
  {
    |E| == |P| + 1 && forall k {:trigger Entry(P, T, k, i)} :: 0 <= k <= |P| ==> E[k] == Entry(P, T, k, i)
  }

  /** Before any text is read only position 0 is set. */
  lemma FirstRow(P: string, T: string) returns (E: seq<bool>)
    ensures IsEntryRow(P, T, 0, E)
    ensures forall k :: 0 <= k < |E| ==> E[k] == (k == 0)
  {
    E := seq(|P| + 1, k => k == 0);
    forall k | 0 <= k <= |P|
      ensures E[k] == Entry(P, T, k, 0)
    {
    }
  }

  /** With no text read, `P[..k]` matches exactly when it is all stars. */
  lemma {:induction false} ReachedOnlyStars(P: string, T: string, k: nat)
    requires k <= |P|
    ensures Reached(P, T, k, 0) <==> forall m :: 0 <= m < k ==> P[m] == '*'
  {
    if k == 0 {
      ReachedNoPattern(P, T, 0);
    } else {
      ReachedOnlyStars(P, T, k - 1);
      ReachedNoText(P, T, k - 1);
    }
  }

  /** Closing the first row over the stars makes live exactly the positions that only
      stars precede: a leading run of stars matches the empty text. */
  lemma FirstClosure(P: string, T: string, k: nat)
    requires k <= |P|
    ensures Live(P, T, k, 0) <==> forall m :: 0 <= m < k ==> P[m] == '*'
  {
    ReachedOnlyStars(P, T, k);
    if k < |P| {
      ReachedNoText(P, T, k);
    }
  }

  /** One outer iteration of the matcher over the entry row `E`: the inner loop closes it over
      the stars into the live row `Lv` (in `old`) and builds the next entry row `N` (in `states`). */
  lemma NextRows(P: string, T: string, i: nat, E: seq<bool>) returns (Lv: seq<bool>, N: seq<bool>)
    requires i < |T| && IsEntryRow(P, T, i, E)
    ensures |Lv| == |P| + 1 && |N| == |P| + 1 && Lv[0] == E[0]
    ensures forall k {:trigger E[k]} :: 0 < k <= |P| ==> Lv[k] == (E[k] || (Lv[k - 1] && P[k - 1] == '*'))
    ensures forall k {:trigger N[k]} :: 0 <= k <= |P| ==>
              N[k] == ((0 < k && Lv[k - 1] && Advances(P[k - 1], T[i])) || (k < |P| && P[k] == '*' && Lv[k]))
    ensures IsEntryRow(P, T, i + 1, N)
  {
    Lv := seq(|P| + 1, k requires 0 <= k <= |P| => Live(P, T, k, i));
    N := seq(|P| + 1, k requires 0 <= k <= |P| => Entry(P, T, k, i + 1));
    assert E[0] == Entry(P, T, 0, i);
    ClosureBase(P, T, i);
    forall k | 0 < k <= |P|
      ensures Lv[k] == (E[k] || (Lv[k - 1] && P[k - 1] == '*'))
    {
      assert E[k] == Entry(P, T, k, i);
      ClosureStep(P, T, k - 1, i);
    }
  }

  /** The last entry row holds the answer: the sentinel of the pattern is reached by the
      sentinel of the text exactly when the pattern matches the text. */
  lemma LastRow(P: string, T: string, E: seq<bool>)
    requires 0 < |P| && 0 < |T| && IsEntryRow(P, T, |T|, E)
    requires P[|P| - 1] == T[|T| - 1] && P[|P| - 1] != '*'
    ensures E[|P|] == Glob(P[..|P| - 1], T[..|T| - 1])
  {
    assert E[|P|] == Entry(P, T, |P|, |T|);
  }

  /**
   * One pass of the inner loop over the pattern for the text character `c`:
   * `old` enters holding the entry row `E` and leaves holding its closure `Lv`
   * over the stars; `states` enters cleared and leaves holding the next row `N`.
   */
  method Sweep(p: string, c: char, prev: array<bool>, states: array<bool>,
               ghost E: seq<bool>, ghost Lv: seq<bool>, ghost N: seq<bool>) returns (ghost count: nat)
    requires prev != states && prev.Length == |p| + 1 && states.Length == |p| + 1
    requires |E| == |p| + 1 && |Lv| == |p| + 1 && |N| == |p| + 1 && Lv[0] == E[0]
    requires forall k {:trigger E[k]} :: 0 < k <= |p| ==> Lv[k] == (E[k] || (Lv[k - 1] && p[k - 1] == '*'))
    requires forall k {:trigger N[k]} :: 0 <= k <= |p| ==>
               N[k] == ((0 < k && Lv[k - 1] && Advances(p[k - 1], c)) || (k < |p| && p[k] == '*' && Lv[k]))
    requires forall k :: 0 <= k <= |p| ==> prev[k] == E[k] && !states[k]
    modifies prev, states
    ensures forall k :: 0 <= k <= |p| ==> prev[k] == Lv[k] && states[k] == N[k]
    ensures count == |p|
  {
    var n := |p|;
    var j := 0;
    count := 0;
    while j < n
      invariant 0 <= j <= n && count == j
      invariant forall k :: 0 <= k <= j ==> prev[k] == Lv[k]
      invariant forall k :: j < k <= n ==> prev[k] == E[k]
      invariant forall k :: 0 <= k < j ==> states[k] == N[k]
      invariant states[j] == (0 < j && Lv[j - 1] && Advances(p[j - 1], c))
      invariant forall k :: j < k <= n ==> !states[k]
    {
      assert Lv[j + 1] == (E[j + 1] || (Lv[j] && p[j] == '*'));
      assert N[j + 1] == (Lv[j] && Advances(p[j], c)) || (j + 1 < n && p[j + 1] == '*' && Lv[j + 1]);
      var pc := p[j];
      if prev[j] && pc == '*' {
        prev[j + 1] := true;
      }
      if prev[j] && pc == c {
        states[j + 1] := true;
      }
      if prev[j] && pc == '?' {
        states[j + 1] := true;
      }
      if prev[j] && pc == '*' {
        states[j] := true;
      }
      if prev[j] && pc == '*' {
        states[j + 1] := true;
      }
      count := count + 1;
      j := j + 1;
    }
    assert states[n] == N[n];
  }

  /**
   * The matcher as the source runs it: both strings get a NUL sentinel, `old`
   * holds the positions reached so far, a live star closes over the position
   * after it in `old` itself, and `states` collects the positions reached after
   * the current character. `steps` counts the inner-loop iterations.
   */
  method Matches(pattern: string, text: string) returns (r: bool, ghost steps: nat)
    ensures r == Glob(pattern, text)
    ensures steps == (|text| + 1) * (|pattern| + 1)
  {
    var t := text + [NUL];
    var p := pattern + [NUL];
    var n := |p|;
    var states := new bool[n + 1](_ => false);
    var prev := new bool[n + 1](_ => false);
    prev[0] := true;
    ghost var E := FirstRow(p, t);
    steps := 0;
    var i := 0;
    while i < |t|
      invariant 0 <= i <= |t|
      invariant states.Length == n + 1 && prev.Length == n + 1
      invariant fresh(states) && fresh(prev)
      invariant 0 < i ==> states == prev
      invariant IsEntryRow(p, t, i, E)
      invariant forall k :: 0 <= k <= n ==> prev[k] == E[k]
      invariant steps == i * n
    {
      states := new bool[n + 1](_ => false);
      ghost var Lv, N := NextRows(p, t, i, E);
      ghost var count := Sweep(p, t[i], prev, states, E, Lv, N);
      steps := steps + count;
      prev := states;
      E := N;
      i := i + 1;
    }
    r := states[n];
    LastRow(p, t, E);
    assert p[..n - 1] == pattern && t[..|t| - 1] == text;
  }

  /** Some pattern of the list matches the text. */
  predicate MatchesAny(patterns: seq<string>, text: string) {
    exists k :: 0 <= k < |patterns| && Glob(patterns[k], text)
  }

  /**
   * `matchesList`: an absent list matches nothing; otherwise the patterns are
   * tried in order and the search stops at the first one that matches.
   * `examined` is the number of patterns tried.
   */
  method MatchesList(patterns: Option<seq<string>>, text: string) returns (r: bool, ghost examined: nat)
    ensures r <==> patterns.Some? && MatchesAny(patterns.value, text)
    ensures patterns.None? ==> examined == 0
    ensures patterns.Some? && !r ==> examined == |patterns.value|
    ensures r ==> patterns.Some? && 0 < examined <= |patterns.value|
                  && Glob(patterns.value[examined - 1], text)
                  && forall k :: 0 <= k < examined - 1 ==> !Glob(patterns.value[k], text)
  {
    examined := 0;
    if patterns.None? {
      return false, examined;
    }
    var list := patterns.value;
    for k := 0 to |list|
      invariant examined == k
      invariant forall m :: 0 <= m < k ==> !Glob(list[m], text)
    {
      var found;
      ghost var steps;
      found, steps := Matches(list[k], text);
      examined := examined + 1;
      if found {
        return true, examined;
      }
    }
    return false, examined;
  }

  /** A list with a matching pattern, a list without one, and the empty list. */
  lemma BypassListExamples()
    ensures MatchesAny(["*.lan", "10.*"], "db.lan")
    ensures !MatchesAny(["*.lan"], "db.com")
    ensures !MatchesAny([], "db")
  {
    var lan := "*.lan";
    assert lan == "*" + ".lan";
    assert Glob(lan, "db.lan") by {
      LiteralPatternIsEquality(".lan", ".lan");
      assert "db.lan" == "db" + ".lan";
      StarAbsorbsPrefix(".lan", "db", ".lan");
    }
    assert !Glob(lan, "db.com") by {
      assert lan == "*.la" + ['n'] && "db.com" == "db.co" + ['m'];
      GlobSnocOne("*.la", "db.co", 'n', 'm');
    }
    assert ["*.lan", "10.*"][0] == lan;
    assert ["*.lan"][0] == lan;
  }
}
