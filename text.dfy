/** String helpers shared by the fetcher, the bot and the renderer:
    JavaScript's `trim`, ASCII `toLowerCase`, `includes` on strings and the
    decimal rendering of integers inside template literals. */
module Text {

  /** The characters JavaScript's `String.prototype.trim` removes:
      WhiteSpace (tab, vertical tab, form feed, space, no-break space,
      byte order mark, the Zs separators) and LineTerminator. */
  predicate IsSpace(c: char) {
    || c == '\t' || c == '\n' || c == '\U{0B}' || c == '\U{0C}' || c == '\r' || c == ' '
    || c == '\U{A0}' || c == '\U{1680}' || ('\U{2000}' <= c <= '\U{200A}')
    || c == '\U{2028}' || c == '\U{2029}' || c == '\U{202F}' || c == '\U{205F}'
    || c == '\U{3000}' || c == '\U{FEFF}'
  }

  predicate IsBlank(s: string) {
    forall i :: 0 <= i < |s| ==> IsSpace(s[i])
  }

  /** Drops leading white space: the result is a suffix of `s` that does not
      start with white space, and everything dropped was white space. */
  function TrimStart(s: string): string
    decreases |s|
  {
    if |s| > 0 && IsSpace(s[0]) then TrimStart(s[1..]) else s
  }

  lemma {:induction false} TrimStartShape(s: string)
    ensures var r := TrimStart(s);
      |r| <= |s| && r == s[|s| - |r|..] && IsBlank(s[..|s| - |r|]) &&
      (r != [] ==> !IsSpace(r[0]))
    decreases |s|
  {
    if |s| > 0 && IsSpace(s[0]) {
      TrimStartShape(s[1..]);
      var r := TrimStart(s);
      forall i | 0 <= i < |s| - |r| ensures IsSpace(s[i]) {
        if i > 0 {
          assert s[i] == s[1..][..|s| - 1 - |r|][i - 1];
        }
      }
      assert IsBlank(s[..|s| - |r|]);
    }
  }

  /** Drops trailing white space: the result is a prefix of `s` that does not
      end with white space, and everything dropped was white space. */
  function TrimEnd(s: string): string
    decreases |s|
  {
    if |s| > 0 && IsSpace(s[|s| - 1]) then TrimEnd(s[..|s| - 1]) else s
  }

  lemma {:induction false} TrimEndShape(s: string)
    ensures var r := TrimEnd(s);
      |r| <= |s| && r == s[..|r|] && IsBlank(s[|r|..]) &&
      (r != [] ==> !IsSpace(r[|r| - 1]))
    decreases |s|
  {
    if |s| > 0 && IsSpace(s[|s| - 1]) {
      TrimEndShape(s[..|s| - 1]);
      var r := TrimEnd(s);
      forall i | |r| <= i < |s| ensures IsSpace(s[i]) {
        if i < |s| - 1 {
          assert s[i] == s[..|s| - 1][|r|..][i - |r|];
        }
      }
      assert IsBlank(s[|r|..]);
    }
  }

  function Trim(s: string): string {
    TrimEnd(TrimStart(s))
  }

  function LowerChar(c: char): char {
    if 'A' <= c <= 'Z' then (c as int + 32) as char else c
  }

  /** `toLowerCase`, restricted to the ASCII letters. */
  function Lower(s: string): (r: string)
    ensures |r| == |s|
  {
    seq(|s|, i requires 0 <= i < |s| => LowerChar(s[i]))
  }

  lemma LowerConcat(a: string, b: string)
    ensures Lower(a + b) == Lower(a) + Lower(b)
  {
    assert forall i :: 0 <= i < |a + b| ==> Lower(a + b)[i] == (Lower(a) + Lower(b))[i];
  }

  /** `norm` of KillFetcher.js and DiscordBot.js: `String(s || "").trim().toLowerCase()`.
      A missing value is the empty string here. */
  function Norm(s: string): string {
    Lower(Trim(s))
  }

  /** A normalised name has no white space at either end and no upper-case
      ASCII letter. */
  lemma NormShape(s: string)
    ensures var r := Norm(s);
      (r == [] || (!IsSpace(r[0]) && !IsSpace(r[|r| - 1]))) &&
      forall i :: 0 <= i < |r| ==> !('A' <= r[i] <= 'Z')
  {
    var t := Trim(s);
    var r := Lower(t);
    TrimStartShape(s);
    TrimEndShape(TrimStart(s));
    if r != [] {
      LowerCharKeepsSpace(t[0]);
      LowerCharKeepsSpace(t[|t| - 1]);
    }
    forall i | 0 <= i < |r| ensures !('A' <= r[i] <= 'Z') {
      LowerCharIsLower(t[i]);
    }
  }

  lemma LowerCharKeepsSpace(c: char)
    ensures IsSpace(LowerChar(c)) <==> IsSpace(c)
  {
    if 'A' <= c <= 'Z' {
      assert 'a' <= LowerChar(c) <= 'z';
    }
  }

  lemma LowerCharIsLower(c: char)
    ensures !('A' <= LowerChar(c) <= 'Z')
  {
  }

  lemma LowerIdempotent(s: string)
    ensures Lower(Lower(s)) == Lower(s)
  {
  }

  lemma {:induction false} TrimStartLower(s: string)
    ensures TrimStart(Lower(s)) == Lower(TrimStart(s))
    decreases |s|
  {
    if |s| > 0 {
      assert Lower(s)[0] == LowerChar(s[0]);
      if IsSpace(s[0]) {
        assert Lower(s)[1..] == Lower(s[1..]);
        TrimStartLower(s[1..]);
      }
    }
  }

  lemma {:induction false} TrimEndLower(s: string)
    ensures TrimEnd(Lower(s)) == Lower(TrimEnd(s))
    decreases |s|
  {
    if |s| > 0 {
      assert Lower(s)[|s| - 1] == LowerChar(s[|s| - 1]);
      if IsSpace(s[|s| - 1]) {
        assert Lower(s)[..|s| - 1] == Lower(s[..|s| - 1]);
        TrimEndLower(s[..|s| - 1]);
      }
    }
  }

  /** Normalising is idempotent: a normalised name normalises to itself. */
  lemma NormIdempotent(s: string)
    ensures Norm(Norm(s)) == Norm(s)
  {
    var t := Norm(s);
    NormShape(s);
    assert TrimStart(t) == t;
    assert TrimEnd(t) == t;
    LowerIdempotent(Trim(s));
  }

  /** Normalising ignores ASCII case. */
  lemma NormIgnoresCase(s: string)
    ensures Norm(Lower(s)) == Norm(s)
  {
    TrimStartLower(s);
    TrimEndLower(TrimStart(s));
    LowerIdempotent(Trim(s));
  }

  lemma {:induction false} TrimStartBlankPrefix(p: string, x: string)
    requires IsBlank(p)
    ensures TrimStart(p + x) == TrimStart(x)
    decreases |p|
  {
    if |p| > 0 {
      assert (p + x)[0] == p[0] && IsSpace(p[0]);
      assert (p + x)[1..] == p[1..] + x;
      assert IsBlank(p[1..]) by {
        forall i | 0 <= i < |p| - 1 ensures IsSpace(p[1..][i]) { assert p[1..][i] == p[i + 1]; }
      }
      TrimStartBlankPrefix(p[1..], x);

    } else {
      assert p + x == x;
    }
  }

  lemma {:induction false} TrimEndBlankSuffix(x: string, q: string)
    requires IsBlank(q)
    ensures TrimEnd(x + q) == TrimEnd(x)
    decreases |q|
  {
    if |q| > 0 {
      assert (x + q)[|x + q| - 1] == q[|q| - 1] && IsSpace(q[|q| - 1]);
      assert (x + q)[..|x + q| - 1] == x + q[..|q| - 1];
      TrimEndBlankSuffix(x, q[..|q| - 1]);

    } else {
      assert x + q == x;
    }
  }

  lemma {:induction false} TrimBlankSuffix(x: string, q: string)
    requires IsBlank(q)
    ensures TrimEnd(TrimStart(x + q)) == TrimEnd(TrimStart(x))
    decreases |x|
  {
    if |x| == 0 {
      assert x + q == q;
      TrimStartBlankPrefix(q, []);
      assert q + [] == q;
    } else if IsSpace(x[0]) {
      assert (x + q)[1..] == x[1..] + q;
      TrimBlankSuffix(x[1..], q);
    } else {
      TrimEndBlankSuffix(x, q);
    }
  }

  /** Normalising ignores white space around the name. */
  lemma NormIgnoresPadding(p: string, s: string, q: string)
    requires IsBlank(p) && IsBlank(q)
    ensures Norm(p + s + q) == Norm(s)
  {
    assert p + s + q == p + (s + q);
    TrimStartBlankPrefix(p, s + q);
    TrimBlankSuffix(s, q);
  }

  /** `sub` occurs in `s` starting at position `i`. */
  predicate OccursAt(s: string, sub: string, i: int) {
    0 <= i && i + |sub| <= |s| && s[i..i + |sub|] == sub
  }

  /** `s.includes(sub)`, defined by scanning the start positions in order. */
  function Contains(s: string, sub: string): (b: bool)
    ensures b <==> exists i :: OccursAt(s, sub, i)
    decreases |s|
  {
    if |sub| > |s| then false
    else if s[..|sub|] == sub then assert OccursAt(s, sub, 0); true
    else
      var b := Contains(s[1..], sub);
      assert forall i :: OccursAt(s, sub, i) ==> i >= 1 && OccursAt(s[1..], sub, i - 1) by {
        forall i | OccursAt(s, sub, i) ensures i >= 1 && OccursAt(s[1..], sub, i - 1) {
          assert i != 0;
          assert s[1..][i - 1..i - 1 + |sub|] == s[i..i + |sub|];
        }
      }
      assert forall i :: OccursAt(s[1..], sub, i) ==> OccursAt(s, sub, i + 1) by {
        forall i | OccursAt(s[1..], sub, i) ensures OccursAt(s, sub, i + 1) {
          assert s[1..][i..i + |sub|] == s[i + 1..i + 1 + |sub|];
        }
      }
      b
  }

  /** A word that has a character the string lacks does not occur in it. */
  lemma MissingChar(s: string, sub: string, k: nat)
    requires k < |sub| && sub[k] !in s
    ensures !Contains(s, sub)
  {
    forall i | 0 <= i && i + |sub| <= |s| ensures !OccursAt(s, sub, i) {
      assert s[i..i + |sub|][k] == s[i + k];
      assert s[i + k] in s;
    }
  }

  function DigitChar(d: nat): char
    requires d < 10
  {
    "0123456789"[d]
  }

  function DigitValue(c: char): int {
    c as int - '0' as int
  }

  /** Decimal digits of `n`, most significant first, without leading zeros. */
  function Digits(n: nat): (r: string)
    ensures |r| >= 1
    ensures forall i :: 0 <= i < |r| ==> '0' <= r[i] <= '9'
    ensures n > 0 ==> r[0] != '0'
    decreases n
  {
    if n < 10 then [DigitChar(n)] else Digits(n / 10) + [DigitChar(n % 10)]
  }

  /** The numeric value of a string of decimal digits. */
  function DigitsValue(s: string): int
    decreases |s|
  {
    if s == [] then 0 else DigitsValue(s[..|s| - 1]) * 10 + DigitValue(s[|s| - 1])
  }

  /** How JavaScript writes an integer in a template literal. */
  function DecimalString(n: int): string {
    if n < 0 then "-" + Digits(-n) else Digits(n)
  }

  /** Reading the digits back gives the number: the rendering loses nothing. */
  lemma {:induction false} DigitsRoundTrip(n: nat)
    ensures DigitsValue(Digits(n)) == n
    decreases n
  {
    if n >= 10 {
      DigitsRoundTrip(n / 10);
      var d := Digits(n / 10) + [DigitChar(n % 10)];
      assert d[..|d| - 1] == Digits(n / 10);
    }
  }
}
