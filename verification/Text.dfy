/** Strings as the control plane uses them: byte order, trimming, decimal
    numbers, quoting and the length-prefixed canonical encoding.
    A character stands for one byte of the Go string. */
module Text {

  // ---------------------------------------------------------------- order

  /** Go's `<` on strings. */
  predicate Less(a: string, b: string)
  {
    b != "" && (a == "" || a[0] < b[0] || (a[0] == b[0] && Less(a[1..], b[1..])))
  }

  lemma {:induction false} LessIrreflexive(a: string)
    ensures !Less(a, a)
  {
    if a != "" { LessIrreflexive(a[1..]); }
  }

  lemma {:induction false} LessTransitive(a: string, b: string, c: string)
    requires Less(a, b) && Less(b, c)
    ensures Less(a, c)
  {
    if a != "" && a[0] == b[0] == c[0] { LessTransitive(a[1..], b[1..], c[1..]); }
  }

  lemma {:induction false} LessTotal(a: string, b: string)
    ensures a == b || Less(a, b) || Less(b, a)
  {
    if a != "" && b != "" && a[0] == b[0] {
      LessTotal(a[1..], b[1..]);
      assert a == [a[0]] + a[1..] && b == [b[0]] + b[1..];
    }
  }

  // ------------------------------------------------------------- trimming

  predicate IsSpace(c: char)
  {
    c == ' ' || c == '\t' || c == '\n' || c == '\r' || c == '\U{0B}' || c == '\U{0C}'
  }

  function TrimLeft(s: string): (r: string)
    ensures |r| <= |s|
    ensures r == "" || !IsSpace(r[0])
    ensures s != "" && !IsSpace(s[|s| - 1]) ==> r != "" && r[|r| - 1] == s[|s| - 1]
  {
    if s == "" || !IsSpace(s[0]) then s else TrimLeft(s[1..])
  }

  function TrimRight(s: string): (r: string)
    ensures |r| <= |s| && r == s[..|r|]
    ensures r == "" || !IsSpace(r[|r| - 1])
  {
    if s == "" || !IsSpace(s[|s| - 1]) then s else TrimRight(s[..|s| - 1])
  }

  /** strings.TrimSpace */
  function Trim(s: string): (r: string)
    ensures r == "" || (!IsSpace(r[0]) && !IsSpace(r[|r| - 1]))
  {
    TrimLeft(TrimRight(s))
  }

  lemma TrimSolid(s: string)
    requires s != "" && !IsSpace(s[0]) && !IsSpace(s[|s| - 1])
    ensures Trim(s) == s
  {
  }

  lemma TrimIdempotent(s: string)
    ensures Trim(Trim(s)) == Trim(s)
  {
    var r := Trim(s);
    assert TrimRight(r) == r;
  }

  /** Trimming cuts off exactly the blank characters at both ends. */
  lemma TrimMeans(s: string) returns (i: nat, j: nat)
    ensures i <= j <= |s| && Trim(s) == s[i..j]
    ensures forall k | 0 <= k < i || j <= k < |s| :: s[k] in {' ', '\t', '\n', '\r', '\U{0B}', '\U{0C}'}
    ensures i < j ==> s[i] !in {' ', '\t', '\n', '\r', '\U{0B}', '\U{0C}'} && s[j - 1] !in {' ', '\t', '\n', '\r', '\U{0B}', '\U{0C}'}
  {
    j := TrimRightMeans(s);
    i := TrimLeftMeans(s[..j]);
  }

  lemma {:induction false} TrimRightMeans(s: string) returns (j: nat)
    ensures j <= |s| && TrimRight(s) == s[..j] && forall k | j <= k < |s| :: IsSpace(s[k])
  {
    if s == "" || !IsSpace(s[|s| - 1]) {
      j := |s|;
    } else {
      j := TrimRightMeans(s[..|s| - 1]);
      assert s[..|s| - 1][..j] == s[..j];
      assert forall k | 0 <= k < |s| - 1 :: s[k] == s[..|s| - 1][k];
    }
  }

  lemma {:induction false} TrimLeftMeans(s: string) returns (i: nat)
    ensures i <= |s| && TrimLeft(s) == s[i..] && forall k | 0 <= k < i :: IsSpace(s[k])
  {
    if s == "" || !IsSpace(s[0]) {
      i := 0;
    } else {
      i := TrimLeftMeans(s[1..]);
      assert s[1..][i..] == s[i + 1..];
      assert forall k | 0 < k < |s| :: s[k] == s[1..][k - 1];
      i := i + 1;
    }
  }

  // ------------------------------------------------------ decimal numbers

  function Digit(d: nat): (c: char)
    requires d < 10
    ensures '0' <= c <= '9'
  {
    ('0' as int + d) as char
  }

  /** strconv.Itoa on a non-negative number. */
  function FormatNat(n: nat): (r: string)
    ensures r != "" && forall i | 0 <= i < |r| :: '0' <= r[i] <= '9'
  {
    if n < 10 then [Digit(n)] else FormatNat(n / 10) + [Digit(n % 10)]
  }

  function FormatInt(n: int): string
  {
    if n < 0 then "-" + FormatNat(-n) else FormatNat(n)
  }

  function ParseNat(s: string): (n: int)
  {
    if s == "" then 0 else ParseNat(s[..|s| - 1]) * 10 + (s[|s| - 1] as int - '0' as int)
  }

  lemma {:induction false} ParseFormatNat(n: nat)
    ensures ParseNat(FormatNat(n)) == n
  {
    var s := FormatNat(n);
    if n < 10 {
      assert s[..|s| - 1] == "";
    } else {
      ParseFormatNat(n / 10);
      assert s[..|s| - 1] == FormatNat(n / 10);
    }
  }

  lemma FormatNatInjective(a: nat, b: nat)
    requires FormatNat(a) == FormatNat(b)
    ensures a == b
  {
    ParseFormatNat(a);
    ParseFormatNat(b);
  }

  lemma FormatIntInjective(a: int, b: int)
    requires FormatInt(a) == FormatInt(b)
    ensures a == b
  {
    assert a < 0 <==> FormatInt(a)[0] == '-';
    assert b < 0 <==> FormatInt(b)[0] == '-';
    if a < 0 {
      assert FormatInt(a)[1..] == FormatNat(-a) && FormatInt(b)[1..] == FormatNat(-b);
      FormatNatInjective(-a, -b);
    } else {
      FormatNatInjective(a, b);
    }
  }

  // -------------------------------------------------------------- quoting

  /** The escape strconv.Quote writes for one character; hexadecimal escapes
      of unprintable characters are not modelled. */
  function Escape(c: char): (r: string)
    ensures r != ""
  {
    if c == '"' then ['\\', '"']
    else if c == '\\' then ['\\', '\\']
    else if c == '\n' then ['\\', 'n']
    else if c == '\t' then ['\\', 't']
    else if c == '\r' then ['\\', 'r']
    else [c]
  }

  function EscapeAll(s: string): string
  {
    if s == "" then "" else Escape(s[0]) + EscapeAll(s[1..])
  }

  function Quote(s: string): string
  {
    "\"" + EscapeAll(s) + "\""
  }

  lemma EscapePrefixFree(c: char, d: char, s: string, t: string)
    requires Escape(c) + s == Escape(d) + t
    ensures c == d && s == t
  {
    var e := Escape(c) + s;
    assert e[0] == Escape(c)[0] == Escape(d)[0];
    assert e[|Escape(c)|..] == s && e[|Escape(d)|..] == t;
    if |Escape(c)| == 2 { assert e[1] == Escape(c)[1]; }
    if |Escape(d)| == 2 { assert e[1] == Escape(d)[1]; }
  }

  lemma StartsWithQuote(a: string, s: string)
    ensures (EscapeAll(a) + ("\"" + s))[0] == '"' <==> a == ""
  {
    if a != "" { assert (EscapeAll(a) + ("\"" + s))[0] == Escape(a[0])[0]; }
  }

  /** The closing quote of a quoted string cannot be mistaken. */
  lemma {:induction false} EscapeAllPrefixFree(a: string, b: string, s: string, t: string)
    requires EscapeAll(a) + ("\"" + s) == EscapeAll(b) + ("\"" + t)
    ensures a == b && s == t
  {
    StartsWithQuote(a, s);
    StartsWithQuote(b, t);
    if a == "" {
      assert EscapeAll(a) + ("\"" + s) == "\"" + s && EscapeAll(b) + ("\"" + t) == "\"" + t;
      assert ("\"" + s)[1..] == s && ("\"" + t)[1..] == t;
    } else {
      var u, v := EscapeAll(a[1..]) + ("\"" + s), EscapeAll(b[1..]) + ("\"" + t);
      assert EscapeAll(a) + ("\"" + s) == Escape(a[0]) + u;
      assert EscapeAll(b) + ("\"" + t) == Escape(b[0]) + v;
      EscapePrefixFree(a[0], b[0], u, v);
      EscapeAllPrefixFree(a[1..], b[1..], s, t);
      assert a == [a[0]] + a[1..] && b == [b[0]] + b[1..];
    }
  }

  lemma QuotePrefixFree(a: string, b: string, s: string, t: string)
    requires Quote(a) + s == Quote(b) + t
    ensures a == b && s == t
  {
    var u, v := EscapeAll(a) + ("\"" + s), EscapeAll(b) + ("\"" + t);
    assert Quote(a) + s == "\"" + u && Quote(b) + t == "\"" + v;
    assert ("\"" + u)[1..] == u && ("\"" + v)[1..] == v;
    EscapeAllPrefixFree(a, b, s, t);
  }

  lemma QuoteInjective(a: string, b: string)
    requires Quote(a) == Quote(b)
    ensures a == b
  {
    assert Quote(a) + "" == Quote(a) && Quote(b) + "" == Quote(b);
    QuotePrefixFree(a, b, "", "");
  }

  // --------------------------------------------------- canonical encoding

  /** One part of the canonical encoding: length, colon, value, bar. */
  function Part(value: string): string
  {
    FormatNat(|value|) + ":" + value + "|"
  }

  function Encode(parts: seq<string>): string
  {
    if parts == [] then "" else Part(parts[0]) + Encode(parts[1..])
  }

  /** A separator cannot be mistaken: the texts before the first mark agree. */
  lemma FirstMark(mark: char, d: string, e: string, s: string, t: string)
    requires mark !in d && mark !in e
    requires d + ([mark] + s) == e + ([mark] + t)
    ensures d == e && s == t
  {
    var whole := d + ([mark] + s);
    assert whole[|d|] == mark && whole[|e|] == mark;
    assert forall i | 0 <= i < |d| :: whole[i] == d[i];
    assert forall i | 0 <= i < |e| :: whole[i] == e[i];
    assert |d| == |e|;
    assert d == whole[..|d|] && e == whole[..|d|];
    assert s == whole[|d| + 1..] && t == whole[|d| + 1..];
  }

  lemma PartPrefixFree(u: string, v: string, s: string, t: string)
    requires Part(u) + s == Part(v) + t
    ensures u == v && s == t
  {
    var d, e := FormatNat(|u|), FormatNat(|v|);
    assert Part(u) + s == d + ([':'] + (u + "|" + s));
    assert Part(v) + t == e + ([':'] + (v + "|" + t));
    FirstMark(':', d, e, u + "|" + s, v + "|" + t);
    FormatNatInjective(|u|, |v|);
    var rest := u + "|" + s;
    assert u == rest[..|u|] && v == rest[..|u|];
    assert s == rest[|u| + 1..] && t == rest[|u| + 1..];
  }

  /** Unique decodability: two lists of arbitrary strings with one encoding are
      the same list, whatever bars, colons or digits the strings contain. */
  lemma {:induction false} EncodeInjective(a: seq<string>, b: seq<string>)
    requires Encode(a) == Encode(b)
    ensures a == b
  {
    if a != [] && b != [] {
      PartPrefixFree(a[0], b[0], Encode(a[1..]), Encode(b[1..]));
      EncodeInjective(a[1..], b[1..]);
      assert a == [a[0]] + a[1..] && b == [b[0]] + b[1..];
    }
  }
}
