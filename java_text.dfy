/**
 * The pieces of the Java platform and of commons-lang3 that HttpAccessService
 * leans on: `StringUtils.isEmpty`, `isBlank`, `isNumeric`, `Integer.parseInt`
 * and `String.split(",")`. A Java string reference is an `Option<string>`,
 * `None` standing for `null`.
 */
module JavaText {
  import opened Wrappers

  /** A Java `String` reference: `None` is `null`. */
  type JString = Option<string>

  /** The exceptions the service lets through: the `NumberFormatException` of
      `Integer.parseInt`, with the string it was given, and an `IllegalArgumentException`
      from a constructor that refuses a `null` argument. */
  datatype Error = NumberFormat(input: JString) | IllegalArgument

  const MinInt: int := -0x8000_0000
  const MaxInt: int := 0x7FFF_FFFF

  /** `Character.isWhitespace`: the Unicode space, line and paragraph separators other
      than the no-break spaces, and the ASCII controls TAB to CR and FS to US. */
  predicate IsWhitespace(c: char) {
    c == ' ' || ('\t' <= c <= '\r') || ('\U{1C}' <= c <= '\U{1F}')
    || c == '\U{1680}' || ('\U{2000}' <= c <= '\U{2006}') || ('\U{2008}' <= c <= '\U{200A}')
    || c == '\U{2028}' || c == '\U{2029}' || c == '\U{205F}' || c == '\U{3000}'
  }

  /** `StringUtils.isEmpty`: `null` or of length zero. */
  predicate IsEmpty(s: JString) {
    s.None? || s.value == []
  }

  /** `StringUtils.isBlank`: `null`, empty, or whitespace only. */
  predicate IsBlank(s: JString) {
    s.None? || forall i :: 0 <= i < |s.value| ==> IsWhitespace(s.value[i])
  }

  predicate IsNotBlank(s: JString) {
    !IsBlank(s)
  }

  predicate IsDigit(c: char) {
    '0' <= c <= '9'
  }

  predicate AllDigits(s: string) {
    forall i :: 0 <= i < |s| ==> IsDigit(s[i])
  }

  /** `StringUtils.isNumeric` (commons-lang3): not `null`, not empty, digits only. */
  predicate IsNumeric(s: JString) {
    s.Some? && s.value != [] && AllDigits(s.value)
  }

  /** How the three tests relate: empty implies blank, but blank need not be empty (a
      lone space), and numeric implies neither blank nor empty. */
  lemma EmptyBlankNumeric(s: JString)
    ensures IsEmpty(s) ==> IsBlank(s)
    ensures IsNumeric(s) ==> IsNotBlank(s) && !IsEmpty(s)
    ensures IsBlank(Some(" ")) && !IsEmpty(Some(" "))
  {
    if IsNumeric(s) {
      assert IsDigit(s.value[0]) && !IsWhitespace(s.value[0]);
    }
    assert IsWhitespace(" "[0]);
  }

  /** Value of a decimal digit string, most significant digit first. */
  function DigitsValue(ds: string): (v: nat)
    requires AllDigits(ds)
    ensures ds == [] ==> v == 0
  {
    if ds == [] then 0
    else DigitsValue(ds[..|ds| - 1]) * 10 + (ds[|ds| - 1] as int - '0' as int)
  }

  /**
   * `Integer.parseInt(s)`: an optional `-` or `+` followed by at least one
   * decimal digit, whose value lies in the 32-bit range; anything else,
   * `null` and the empty string included, raises `NumberFormatException`.
   */
  function ParseInt(s: JString): (r: Result<int, Error>)
    ensures IsEmpty(s) ==> r.Failure?
    ensures r.Success? ==> MinInt <= r.value <= MaxInt
    ensures r.Failure? ==> r.error == NumberFormat(s)
  {
    if s.None? || s.value == [] then Failure(NumberFormat(s))
    else
      var x := s.value;
      var ds := if x[0] == '-' || x[0] == '+' then x[1..] else x;
      if ds == [] || !AllDigits(ds) then Failure(NumberFormat(s))
      else
        var d: int := DigitsValue(ds);
        var v := if x[0] == '-' then -d else d;
        if MinInt <= v <= MaxInt then Success(v) else Failure(NumberFormat(s))
  }

  function DigitChar(d: nat): char
    requires d < 10
  {
    ('0' as int + d) as char
  }

  /** Decimal digits of `n` without leading zeros, as `Integer.toString` writes them. */
  function NatToDigits(n: nat): string
  {
    if n < 10 then [DigitChar(n)] else NatToDigits(n / 10) + [DigitChar(n % 10)]
  }

  /** `Integer.toString`. */
  function IntToString(n: int): string
  {
    if n < 0 then "-" + NatToDigits(-n) else NatToDigits(n)
  }

  /** The digits written for `n` read back as `n`. */
  lemma {:induction false} DigitsRoundTrip(n: nat)
    ensures NatToDigits(n) != [] && AllDigits(NatToDigits(n))
    ensures DigitsValue(NatToDigits(n)) == n
    ensures NatToDigits(n)[0] != '-' && NatToDigits(n)[0] != '+'
  {
    if n >= 10 {
      DigitsRoundTrip(n / 10);
      var ds := NatToDigits(n);
      assert ds[..|ds| - 1] == NatToDigits(n / 10);
    }
  }

  /** `Integer.parseInt(Integer.toString(n)) == n` for every 32-bit `n`. */
  lemma ParseIntRoundTrip(n: int)
    requires MinInt <= n <= MaxInt
    ensures ParseInt(Some(IntToString(n))) == Success(n)
  {
    var m: nat := if n < 0 then -n else n;
    DigitsRoundTrip(m);
    if n < 0 {
      assert IntToString(n)[1..] == NatToDigits(m);
    }
  }

  /** A numeric string parses exactly when its value fits in 32 bits: `isNumeric` does not
      protect `parseInt` from overflow. */
  lemma ParseIntOfNumeric(s: JString)
    requires IsNumeric(s)
    ensures ParseInt(s).Success? <==> DigitsValue(s.value) <= MaxInt
    ensures ParseInt(s).Success? ==> ParseInt(s).value == DigitsValue(s.value)
  {
  }

  /** Appending a digit multiplies the value by ten and adds the digit. */
  lemma DigitsValueSnoc(ds: string, c: char)
    requires AllDigits(ds) && IsDigit(c)
    ensures AllDigits(ds + [c]) && DigitsValue(ds + [c]) == DigitsValue(ds) * 10 + (c as int - '0' as int)
  {
    assert (ds + [c])[..|ds|] == ds;
  }

  /** The value of the ten digits "2147483648", one more than `MaxInt`. */
  lemma ValueOfTwoToThe31()
    ensures AllDigits("2147483648") && DigitsValue("2147483648") == 2147483648
  {
    var s := "2147483648";
    var k := 1;
    while k < |s|
      invariant 1 <= k <= |s|
      invariant AllDigits(s[..k]) && DigitsValue(s[..k]) == [2, 21, 214, 2147, 21474, 214748, 2147483, 21474836, 214748364, 2147483648][k - 1]
    {
      assert s[..k + 1] == s[..k] + [s[k]];
      DigitsValueSnoc(s[..k], s[k]);
      k := k + 1;
    }
    assert s[..|s|] == s;
  }

  /** "2147483648" is numeric, yet `parseInt` rejects it as out of range. */
  lemma NumericOverflows()
    ensures IsNumeric(Some("2147483648")) && ParseInt(Some("2147483648")).Failure?
  {
    ValueOfTwoToThe31();
  }

  /** "-1" parses, yet is not numeric: `isNumeric` admits no sign. */
  lemma SignedIsNotNumeric()
    ensures !IsNumeric(Some("-1")) && ParseInt(Some("-1")) == Success(-1)
  {
    ParseIntRoundTrip(-1);
    assert IntToString(-1) == "-1";
  }

  /** The pieces of `s` between commas, trailing empty ones included. */
  function Fields(s: string): (fs: seq<string>)
    ensures |fs| >= 1
  {
    if s == [] then [""]
    else
      var rest := Fields(s[1..]);
      if s[0] == ',' then [""] + rest else [[s[0]] + rest[0]] + rest[1..]
  }

  /** The pieces joined back with commas. */
  function Join(fs: seq<string>): string
    requires |fs| >= 1
  {
    if |fs| == 1 then fs[0] else fs[0] + "," + Join(fs[1..])
  }

  predicate NoComma(f: string) {
    ',' !in f
  }

  /** Joining the pieces gives the string back, and no piece holds a comma. */
  lemma {:induction false} FieldsJoin(s: string)
    ensures Join(Fields(s)) == s
    ensures forall k :: 0 <= k < |Fields(s)| ==> NoComma(Fields(s)[k])
  {
    if s != [] {
      FieldsJoin(s[1..]);
      var rest := Fields(s[1..]);
      if s[0] == ',' {
        assert Fields(s)[1..] == rest;
      } else {
        var fs := Fields(s);
        assert fs[0] == [s[0]] + rest[0];
        if |rest| == 1 {
          assert s == [s[0]] + s[1..];
        } else {
          assert fs[1..] == rest[1..];
          assert s == [s[0]] + rest[0] + "," + Join(rest[1..]);
        }
        forall k | 0 <= k < |fs|
          ensures NoComma(fs[k])
        {
          if k == 0 {
            assert NoComma(rest[0]);
          } else {
            assert fs[k] == rest[k];
          }
        }
      }
    }
  }

  /** Cutting comma-free pieces at their commas gives them back. */
  lemma {:induction false} JoinFields(fs: seq<string>)
    requires |fs| >= 1 && forall k :: 0 <= k < |fs| ==> NoComma(fs[k])
    ensures Fields(Join(fs)) == fs
  {
    if |fs| == 1 {
      FieldsOfPiece(fs[0], []);
    } else {
      JoinFields(fs[1..]);
      FieldsOfPiece(fs[0], Join(fs[1..]));
      assert [fs[0]] + fs[1..] == fs;
    }
  }

  /** A comma-free piece in front of a comma and `u` opens the fields of `u`;
      a comma-free piece alone is one field. */
  lemma {:induction false} FieldsOfPiece(f: string, u: string)
    requires NoComma(f)
    ensures u == [] ==> Fields(f) == [f]
    ensures Fields(f + "," + u) == [f] + Fields(u)
  {
    if f == [] {
      assert f + "," + u == [','] + u;
      assert ([','] + u)[1..] == u;
    } else {
      FieldsOfPiece(f[1..], u);
      assert (f + "," + u)[1..] == f[1..] + "," + u;
      assert [f[0]] + f[1..] == f;
      if u == [] {
        assert f[1..] == [] ==> Fields(f[1..]) == [""];
      }
    }
  }

  /** The list with its trailing empty strings removed. */
  function DropTrailingEmpty(fs: seq<string>): (r: seq<string>)
    ensures |r| <= |fs| && r == fs[..|r|]
    ensures forall k :: |r| <= k < |fs| ==> fs[k] == ""
    ensures r == [] || r[|r| - 1] != ""
  {
    if fs == [] then []
    else if fs[|fs| - 1] == "" then DropTrailingEmpty(fs[..|fs| - 1])
    else fs
  }

  /**
   * `s.split(",")`: without a comma the string itself; otherwise the pieces
   * between commas, kept as they are (no trimming), with the trailing empty
   * pieces removed.
   */
  function Split(s: string): (r: seq<string>)
    ensures forall k :: 0 <= k < |r| ==> NoComma(r[k])
    ensures |r| <= |Fields(s)| && r == Fields(s)[..|r|]
    ensures forall k :: |r| <= k < |Fields(s)| ==> Fields(s)[k] == ""
    ensures ',' in s ==> r == [] || r[|r| - 1] != ""
    ensures ',' !in s ==> r == [s]
  {
    FieldsJoin(s);
    if ',' !in s then
      FieldsOfPiece(s, []);
      [s]
    else DropTrailingEmpty(Fields(s))
  }

  /** The pieces keep their surrounding spaces. */
  lemma SplitKeepsSpaces()
    ensures Split("a, b") == ["a", " b"]
  {
    FieldsOfPiece("a", " b");
    FieldsOfPiece(" b", []);
    assert "a, b" == "a" + "," + " b";
  }

  /** Empty pieces inside the list stay, trailing ones go. */
  lemma SplitDropsTrailingEmpty()
    ensures Split("a,,b,,") == ["a", "", "b"]
  {
    JoinFields(["a", "", "b", "", ""]);
    assert Join(["a", "", "b", "", ""]) == "a,,b,,";
    var fs := ["a", "", "b", "", ""];
    assert fs[..4] == ["a", "", "b", ""] && fs[..4][..3] == ["a", "", "b"];
  }

  /** A lone comma splits into nothing, the empty string into itself. */
  lemma SplitEdgeCases()
    ensures Split(",") == []
    ensures Split("") == [""]
  {
    JoinFields(["", ""]);
    assert Join(["", ""]) == ",";
  }
}
