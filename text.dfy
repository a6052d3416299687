/** String primitives of JavaScript that the client's checks rely on:
    white space as `\s` and `String.prototype.trim` see it, `trim()`,
    `toLowerCase()`, `Number.prototype.toString()` for whole numbers and
    the `<` comparison of two strings. */
module Text {

  /** The characters ECMAScript counts as WhiteSpace or LineTerminator:
      exactly what the regular-expression class `\s` matches and what
      `trim()` removes. */
  predicate IsSpace(c: char)
  {
    var n := c as int;
    n == 0x09 || n == 0x0A || n == 0x0B || n == 0x0C || n == 0x0D || n == 0x20
    || n == 0xA0 || n == 0x1680 || (0x2000 <= n <= 0x200A)
    || n == 0x2028 || n == 0x2029 || n == 0x202F || n == 0x205F
    || n == 0x3000 || n == 0xFEFF
  }

  /** `s.trimStart()` */
  function TrimStart(s: string): (r: string)
    ensures |r| <= |s| && r == s[|s| - |r|..]
    ensures r != [] ==> !IsSpace(r[0])
    ensures forall i :: 0 <= i < |s| - |r| ==> IsSpace(s[i])
  {
    if s != [] && IsSpace(s[0]) then TrimStart(s[1..]) else s
  }

  /** `s.trimEnd()` */
  function TrimEnd(s: string): (r: string)
    ensures |r| <= |s| && r == s[..|r|]
    ensures r != [] ==> !IsSpace(r[|r| - 1])
    ensures forall i :: |r| <= i < |s| ==> IsSpace(s[i])
  {
    if s != [] && IsSpace(s[|s| - 1]) then TrimEnd(s[..|s| - 1]) else s
  }

  /** `s.trim()` */
  function Trim(s: string): string
  {
    TrimEnd(TrimStart(s))
  }

  /** A trimmed string starts and ends with a visible character, if it has
      any. */
  lemma TrimmedEndsVisible(s: string)
    ensures var r := Trim(s); r != [] ==> !IsSpace(r[0]) && !IsSpace(r[|r| - 1])
  {
    var t := TrimStart(s);
    var r := TrimEnd(t);
    if r != [] {
      assert r[0] == t[0];
    }
  }

  /** A trimmed string is the slice of `s` that starts after its leading
      white space. */
  lemma TrimmedIsSlice(s: string)
    ensures var r := Trim(s); var i := |s| - |TrimStart(s)|;
            i + |r| <= |s| && r == s[i..i + |r|]
  {
    var t := TrimStart(s);
    var r := TrimEnd(t);
    PrefixOfSuffix(s, |s| - |t|, t, r);
  }

  /** A prefix `r` of the suffix `t` of `s` from `i` on is a slice of `s`. */
  lemma PrefixOfSuffix<T>(s: seq<T>, i: nat, t: seq<T>, r: seq<T>)
    requires i <= |s| && t == s[i..]
    requires |r| <= |t| && r == t[..|r|]
    ensures i + |r| <= |s| && r == s[i..i + |r|]
  {
  }

  /** Only white space lies around that slice. */
  lemma TrimmedSpaces(s: string)
    ensures var r := Trim(s); var i := |s| - |TrimStart(s)|;
            && i + |r| <= |s|
            && (forall k :: 0 <= k < i ==> IsSpace(s[k]))
            && (forall k :: i + |r| <= k < |s| ==> IsSpace(s[k]))
  {
    var t := TrimStart(s);
    var r := TrimEnd(t);
    var i := |s| - |t|;
    assert t == s[i..];
    forall k | i + |r| <= k < |s| ensures IsSpace(s[k]) {
      assert IsSpace(t[k - i]);
    }
  }

  /** `!s.trim()`: nothing but white space is left of the string, which
      happens exactly when every one of its characters is white space. */
  predicate IsBlank(s: string)
    ensures IsBlank(s) <==> forall i :: 0 <= i < |s| ==> IsSpace(s[i])
  {
    TrimmedEndsVisible(s);
    TrimmedSpaces(s);
    Trim(s) == ""
  }

  /** `toLowerCase()` on one character; only the ASCII capitals are mapped,
      each to the same letter in lower case. */
  function LowerChar(c: char): (r: char)
    ensures !('A' <= r <= 'Z')
    ensures IsSpace(r) <==> IsSpace(c)
    ensures 'A' <= c <= 'Z' ==> 'a' <= r <= 'z' && r as int - 'a' as int == c as int - 'A' as int
    ensures !('A' <= c <= 'Z') ==> r == c
  {
    if 'A' <= c <= 'Z' then (c as int + 32) as char else c
  }

  /** `s.toLowerCase()` restricted to ASCII letters. */
  function ToLower(s: string): (r: string)
    ensures |r| == |s|
    ensures forall i :: 0 <= i < |s| ==> r[i] == LowerChar(s[i])
  {
    if s == [] then [] else [LowerChar(s[0])] + ToLower(s[1..])
  }

  /** `s.replace(/\s+/g, "")`: every run of white space is deleted. */
  function RemoveSpaces(s: string): (r: string)
    ensures |r| <= |s|
    ensures forall i :: 0 <= i < |r| ==> !IsSpace(r[i])
    ensures forall c :: c in r ==> c in s
  {
    if s == [] then []
    else (if IsSpace(s[0]) then [] else [s[0]]) + RemoveSpaces(s[1..])
  }

  lemma {:induction false} RemoveSpacesConcat(a: string, b: string)
    ensures RemoveSpaces(a + b) == RemoveSpaces(a) + RemoveSpaces(b)
  {
    if a != [] {
      assert (a + b)[1..] == a[1..] + b;
      RemoveSpacesConcat(a[1..], b);
    } else {
      assert a + b == b;
    }
  }

  lemma {:induction false} ToLowerConcat(a: string, b: string)
    ensures ToLower(a + b) == ToLower(a) + ToLower(b)
  {
  }

  /** A string without white space is left as it is. */
  lemma {:induction false} RemoveSpacesNoSpace(s: string)
    requires forall i :: 0 <= i < |s| ==> !IsSpace(s[i])
    ensures RemoveSpaces(s) == s
  {
    if s != [] {
      RemoveSpacesNoSpace(s[1..]);
    }
  }

  /** Removing white space commutes with lowering, since lowering neither
      creates nor destroys white space. */
  lemma {:induction false} LowerRemoveCommute(s: string)
    ensures ToLower(RemoveSpaces(s)) == RemoveSpaces(ToLower(s))
  {
    if s != [] {
      LowerRemoveCommute(s[1..]);
      assert ToLower(s)[1..] == ToLower(s[1..]);
      ToLowerConcat(if IsSpace(s[0]) then [] else [s[0]], RemoveSpaces(s[1..]));
    }
  }

  function DigitChar(d: nat): (c: char)
    requires d < 10
    ensures '0' <= c <= '9'
  {
    ('0' as int + d) as char
  }

  predicate IsDigits(s: string)
  {
    forall i :: 0 <= i < |s| ==> '0' <= s[i] <= '9'
  }

  /** `String(n)` for a whole number: its decimal digits, most significant first. */
  function Decimal(n: nat): (r: string)
    ensures r != [] && IsDigits(r)
    decreases n
  {
    if n < 10 then [DigitChar(n)] else Decimal(n / 10) + [DigitChar(n % 10)]
  }

  /** The number a string of decimal digits denotes. */
  function DecimalValue(s: string): nat
    requires IsDigits(s)
  {
    if s == [] then 0
    else DecimalValue(s[..|s| - 1]) * 10 + (s[|s| - 1] as int - '0' as int)
  }

  /** The digits `Decimal` writes denote the number they were written from. */
  lemma {:induction false} DecimalRoundTrip(n: nat)
    ensures DecimalValue(Decimal(n)) == n
    decreases n
  {
    if n >= 10 {
      DecimalRoundTrip(n / 10);
      var s := Decimal(n);
      assert s[..|s| - 1] == Decimal(n / 10);
    }
  }

  /** `b` is `a` followed by at least one more character. */
  predicate ProperPrefix(a: string, b: string)
  {
    |a| < |b| && a == b[..|a|]
  }

  /** `a` and `b` agree up to some position where `a` holds the smaller
      character. */
  predicate SmallerAt(a: string, b: string)
  {
    exists k :: 0 <= k < |a| && k < |b| && a[..k] == b[..k] && a[k] < b[k]
  }

  /** When the first characters differ, they alone decide which string
      comes first. */
  lemma FirstCharacterDiffers(a: string, b: string)
    requires a != [] && b != [] && a[0] != b[0]
    ensures !ProperPrefix(a, b)
    ensures SmallerAt(a, b) <==> a[0] < b[0]
  {
    if SmallerAt(a, b) {
      var k :| 0 <= k < |a| && k < |b| && a[..k] == b[..k] && a[k] < b[k];
      assert k == 0;
    }
    if a[0] < b[0] {
      assert a[..0] == b[..0];
    }
  }

  /** When the first characters agree, being a proper prefix carries over
      to the tails. */
  lemma FirstCharacterAgreesPrefix(a: string, b: string)
    requires a != [] && b != [] && a[0] == b[0]
    ensures ProperPrefix(a, b) <==> ProperPrefix(a[1..], b[1..])
  {
    if ProperPrefix(a[1..], b[1..]) {
      assert a == [a[0]] + a[1..];
      assert b[..|a|] == [b[0]] + b[1..][..|a| - 1];
    }
  }

  /** When the first characters agree, a smaller character at the first
      difference carries over to the tails, one position earlier. */
  lemma FirstCharacterAgreesSmaller(a: string, b: string)
    requires a != [] && b != [] && a[0] == b[0]
    ensures SmallerAt(a, b) <==> SmallerAt(a[1..], b[1..])
  {
    if SmallerAt(a, b) {
      var k :| 0 <= k < |a| && k < |b| && a[..k] == b[..k] && a[k] < b[k];
      assert k > 0;
      assert a[1..][..k - 1] == a[..k][1..];
      assert b[1..][..k - 1] == b[..k][1..];
      assert a[1..][k - 1] < b[1..][k - 1];
    }
    if SmallerAt(a[1..], b[1..]) {
      var k :| 0 <= k < |a| - 1 && k < |b| - 1 && a[1..][..k] == b[1..][..k] && a[1..][k] < b[1..][k];
      assert a[..k + 1] == [a[0]] + a[1..][..k];
      assert b[..k + 1] == [b[0]] + b[1..][..k];
      assert a[k + 1] < b[k + 1];
    }
  }

  /** JavaScript's `a < b` on strings (section 7.2.13 of ECMA-262): `a` comes
      first when it is a proper prefix of `b`, or when at the first position
      where the two differ `a` holds the smaller character. */
  predicate Less(a: string, b: string)
    ensures Less(a, b) <==> ProperPrefix(a, b) || SmallerAt(a, b)
  {
    if a == [] then
      assert b != [] ==> a == b[..0];
      b != []
    else if b == [] then false
    else
      if a[0] != b[0] then
        FirstCharacterDiffers(a, b);
        a[0] < b[0]
      else
        FirstCharacterAgreesPrefix(a, b);
        FirstCharacterAgreesSmaller(a, b);
        Less(a[1..], b[1..])
  }

  /** `<` on strings is a strict total order: of two different strings exactly
      one is the smaller. */
  lemma {:induction false} LessTrichotomy(a: string, b: string)
    ensures !(Less(a, b) && Less(b, a))
    ensures a != b ==> Less(a, b) || Less(b, a)
    ensures !Less(a, a)
  {
    if a != [] && b != [] && a[0] == b[0] {
      LessTrichotomy(a[1..], b[1..]);
      if a != b {
        assert a == [a[0]] + a[1..] && b == [b[0]] + b[1..];
      }
    }
    if a != [] {
      LessTrichotomy(a[1..], a[1..]);
    }
  }

  lemma {:induction false} LessTransitive(a: string, b: string, c: string)
    requires Less(a, b) && Less(b, c)
    ensures Less(a, c)
  {
    if a != [] && a[0] == b[0] && b[0] == c[0] {
      LessTransitive(a[1..], b[1..], c[1..]);
    }
  }
}
