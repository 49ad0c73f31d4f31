/**
 * The wildcard language of the no-proxy patterns: `*` matches any run of
 * characters (the empty run included), `?` matches exactly one character and
 * every other character matches itself. Matching is case-sensitive and
 * anchored at both ends of the text.
 */
module GlobSpec {

  /** Does text `t` match pattern `p`? The reference definition, read from the front. */
  function Glob(p: string, t: string): bool
    decreases |p| + |t|
  {
    if p == [] then t == []
    else if p[0] == '*' then Glob(p[1..], t) || (t != [] && Glob(p, t[1..]))
    else t != [] && (p[0] == '?' || p[0] == t[0]) && Glob(p[1..], t[1..])
  }

  /** A pattern character that consumes exactly one text character `x`. */
  predicate MatchesOne(c: char, x: char) {
    c == '?' || c == x
  }

  predicate NoWildcards(p: string) {
    forall k :: 0 <= k < |p| ==> p[k] != '*' && p[k] != '?'
  }

  /** `*` alone matches every text, the empty one included. */
  lemma {:induction false} StarMatchesAll(t: string)
    ensures Glob("*", t)
  {
    if t != [] {
      StarMatchesAll(t[1..]);
    }
  }

  /** The empty pattern matches only the empty text. */
  lemma EmptyPatternMatchesOnlyEmpty(t: string)
    ensures Glob("", t) <==> t == ""
  {
  }

  /** A pattern without `*` or `?` matches exactly the text equal to it. */
  lemma {:induction false} LiteralPatternIsEquality(p: string, t: string)
    requires NoWildcards(p)
    ensures Glob(p, t) <==> p == t
  {
    if p != [] && t != [] {
      LiteralPatternIsEquality(p[1..], t[1..]);
      if p[0] == t[0] && p[1..] == t[1..] {
        assert p == [p[0]] + p[1..] && t == [t[0]] + t[1..];
      }
    }
  }

  /** A leading star may swallow any prefix of the text. */
  lemma {:induction false} StarAbsorbsPrefix(q: string, u: string, v: string)
    requires Glob(q, v)
    ensures Glob("*" + q, u + v)
  {
    var sq := "*" + q;
    assert sq[0] == '*' && sq[1..] == q;
    if u == [] {
      assert u + v == v;
    } else {
      assert (u + v)[1..] == u[1..] + v;
      StarAbsorbsPrefix(q, u[1..], v);
    }
  }

  /** A pattern that ends in a non-star character cannot match the empty text; a trailing star may. */
  lemma {:induction false} GlobSnocEmptyText(p: string, c: char)
    ensures Glob(p + [c], []) == (c == '*' && Glob(p, []))
  {
    if p != [] {
      assert (p + [c])[0] == p[0] && (p + [c])[1..] == p[1..] + [c];
      if p[0] == '*' {
        GlobSnocEmptyText(p[1..], c);
      }
    }
  }

  /** A trailing non-star pattern character consumes exactly the last text character. */
  lemma {:induction false} GlobSnocOne(p: string, t: string, c: char, x: char)
    requires c != '*'
    ensures Glob(p + [c], t + [x]) == (MatchesOne(c, x) && Glob(p, t))
    decreases |p| + |t|
  {
    var pc, tx := p + [c], t + [x];
    if p == [] {
      assert pc == [c];
      if t != [] {
        assert tx[1..] != [];
      } else {
        assert tx[1..] == [];
      }
    } else {
      assert pc[0] == p[0] && pc[1..] == p[1..] + [c];
      if p[0] == '*' {
        GlobSnocOne(p[1..], t, c, x);
        if t == [] {
          assert tx[1..] == [];
          GlobSnocEmptyText(p, c);
        } else {
          assert tx[1..] == t[1..] + [x];
          GlobSnocOne(p, t[1..], c, x);
        }
      } else if t == [] {
        assert tx[0] == x && tx[1..] == [];
        GlobSnocEmptyText(p[1..], c);
      } else {
        assert tx[0] == t[0] && tx[1..] == t[1..] + [x];
        GlobSnocOne(p[1..], t[1..], c, x);
      }
    }
  }

  /** A trailing star either matches nothing more, or swallows the last text character. */
  lemma {:induction false} GlobSnocStar(p: string, t: string)
    ensures Glob(p + "*", t) == (Glob(p, t) || (t != [] && Glob(p + "*", t[..|t| - 1])))
    decreases |p| + |t|
  {
    var ps := p + "*";
    if p == [] {
      assert ps == "*";
      StarMatchesAll(t);
      if t != [] {
        StarMatchesAll(t[..|t| - 1]);
      }
    } else {
      assert ps[0] == p[0] && ps[1..] == p[1..] + "*";
      if t != [] && |t| > 1 {
        assert t[..|t| - 1][1..] == t[1..][..|t| - 2];
      }
      if p[0] == '*' {
        GlobSnocStar(p[1..], t);
        if t != [] {
          GlobSnocStar(p, t[1..]);
        }
      } else if t != [] {
        GlobSnocStar(p[1..], t[1..]);
      }
    }
  }

  /** Appending the same literal character to pattern and text does not change the answer:
      this is why the sentinel the matcher appends to both strings is harmless. */
  lemma SentinelIsNeutral(p: string, t: string, c: char)
    requires c != '*' && c != '?'
    ensures Glob(p + [c], t + [c]) == Glob(p, t)
  {
    GlobSnocOne(p, t, c, c);
  }

  /** A star followed by one literal matches exactly the non-empty texts ending in that literal. */
  lemma {:induction false} StarThenLiteral(c: char, t: string)
    requires c != '*' && c != '?'
    ensures Glob(['*', c], t) <==> t != [] && t[|t| - 1] == c
  {
    var sc := ['*', c];
    assert sc[1..] == [c];
    LiteralPatternIsEquality([c], t);
    if t != [] {
      StarThenLiteral(c, t[1..]);
    }
  }

  /** `a*b` matches exactly the texts that start with `a`, end with `b` and have length at least 2. */
  lemma StarBetweenLiterals(s: string)
    ensures Glob("a*b", s) <==> |s| >= 2 && s[0] == 'a' && s[|s| - 1] == 'b'
  {
    assert "a*b"[1..] == ['*', 'b'];
    if s != [] {
      StarThenLiteral('b', s[1..]);
    }
  }

  /** `?` consumes exactly one character. */
  lemma QuestionMarkExamples()
    ensures Glob("a?c", "abc")
    ensures !Glob("a?c", "ac")
    ensures !Glob("a?c", "abbc")
  {
    assert "a?c"[1..] == "?c" && "?c"[1..] == "c";
    assert "abc"[1..] == "bc" && "bc"[1..] == "c";
    assert "ac"[1..] == "c" && "c"[1..] == "";
    assert "abbc"[1..] == "bbc" && "bbc"[1..] == "bc";
  }
}
