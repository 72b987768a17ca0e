/** Scalar values as the handlers see them: optional values, amounts in integer
    cents, JSON request fields, and the JavaScript string operations the ledger
    relies on (toLowerCase, trim, includes, localeCompare, ObjectId parsing). */
module Values {

  datatype Option<+T> = None | Some(value: T)
  {
    function GetOr(default: T): T
    {
      match this
      case Some(v) => v
      case None => default
    }
  }

  /** A stored `amount` field: absent (or null), or a number of cents. */
  datatype Amount = NoAmount | Num(cents: int)

  /** A scalar JSON value in a request body; `JNull` also stands for an absent field. */
  datatype Json = JNull | JText(text: string) | JNumber(cents: int) | JBool(flag: bool)

  /** `amount || 0` */
  function OrZero(a: Amount): (v: int)
    ensures a.Num? ==> v == a.cents
    ensures a.NoAmount? ==> v == 0
  {
    match a
    case NoAmount => 0
    case Num(c) => c
  }

  /** `amount < 0`; an absent amount compares false. */
  predicate IsNegative(a: Amount)
  {
    a.Num? && a.cents < 0
  }

  /** `Math.abs` */
  function Abs(x: int): (r: nat)
    ensures r == x || r == -x
  {
    if x < 0 then -x else x
  }

  /** JavaScript truthiness of a JSON scalar. */
  predicate Truthy(j: Json)
  {
    match j
    case JNull => false
    case JText(s) => s != ""
    case JNumber(n) => n != 0
    case JBool(b) => b
  }

  /** `String.prototype.toLowerCase`, restricted to the ASCII letters. */
  function LowerChar(c: char): char
  {
    if 'A' <= c <= 'Z' then (c as int + 32) as char else c
  }

  function Lower(s: string): (r: string)
    ensures |r| == |s|
    ensures forall i :: 0 <= i < |s| ==> r[i] == LowerChar(s[i])
  {
    if s == [] then [] else [LowerChar(s[0])] + Lower(s[1..])
  }

  /** `Lower(s)` is `t` when `t` is `s` lower-cased character by character. */
  lemma LowerEq(s: string, t: string)
    requires |s| == |t| && forall i :: 0 <= i < |s| ==> LowerChar(s[i]) == t[i]
    ensures Lower(s) == t
  {
  }

  lemma {:induction false} LowerIdempotent(s: string)
    ensures Lower(Lower(s)) == Lower(s)
  {
    if s != [] {
      LowerIdempotent(s[1..]);
      assert Lower(s)[1..] == Lower(s[1..]);
    }
  }

  /** The characters `String.prototype.trim` removes: WhiteSpace and LineTerminator. */
  predicate IsSpace(c: char)
  {
    var n := c as int;
    n == 0x09 || n == 0x0A || n == 0x0B || n == 0x0C || n == 0x0D || n == 0x20 ||
    n == 0xA0 || n == 0x1680 || (0x2000 <= n <= 0x200A) || n == 0x2028 || n == 0x2029 ||
    n == 0x202F || n == 0x205F || n == 0x3000 || n == 0xFEFF
  }

  predicate AllSpaces(s: string)
  {
    forall i :: 0 <= i < |s| ==> IsSpace(s[i])
  }

  /** Number of white-space characters `trim` drops at the front of `s`. */
  function LeadingSpaces(s: string): (k: nat)
    ensures k <= |s| && AllSpaces(s[..k]) && (k == |s| || !IsSpace(s[k]))
  {
    if s == [] || !IsSpace(s[0]) then 0
    else
      var k := LeadingSpaces(s[1..]);
      assert s[..k + 1] == [s[0]] + s[1..][..k];
      k + 1
  }

  /** Number of white-space characters `trim` drops at the back of `s`. */
  function TrailingSpaces(s: string): (k: nat)
    ensures k <= |s| && (forall i :: |s| - k <= i < |s| ==> IsSpace(s[i])) && (k == |s| || !IsSpace(s[|s| - k - 1]))
  {
    if s == [] || !IsSpace(s[|s| - 1]) then 0
    else
      var init := s[..|s| - 1];
      var k := TrailingSpaces(init);
      assert forall i :: 0 <= i < |init| ==> init[i] == s[i];
      k + 1
  }

  function TrimStart(s: string): (r: string)
    ensures r == [] || !IsSpace(r[0])
  {
    s[LeadingSpaces(s)..]
  }

  function TrimEnd(s: string): (r: string)
    ensures r == [] || !IsSpace(r[|r| - 1])
  {
    s[..|s| - TrailingSpaces(s)]
  }

  /** `String.prototype.trim` */
  function Trim(s: string): (r: string)
    ensures r == [] || (!IsSpace(r[0]) && !IsSpace(r[|r| - 1]))
    ensures exists i, j :: 0 <= i <= j <= |s| && r == s[i..j] && AllSpaces(s[..i]) && AllSpaces(s[j..])
  {
    var k := LeadingSpaces(s);
    var t := TrimStart(s);
    var e := |t| - TrailingSpaces(t);
    assert TrimEnd(t) == [] || TrimEnd(t)[0] == t[0];
    assert TrimEnd(t) == s[k..k + e];
    assert s[k + e..] == t[e..];
    assert AllSpaces(s[k + e..]);
    TrimEnd(t)
  }

  /** `s.trim().length === 0` holds exactly when every character of `s` is white space. */
  lemma TrimEmptyIffAllSpaces(s: string)
    ensures Trim(s) == [] <==> AllSpaces(s)
  {
    var k := LeadingSpaces(s);
    var t := s[k..];
    var j := TrailingSpaces(t);
    if k < |s| {
      assert !IsSpace(s[k]);
      assert t[0] == s[k];
      assert |t| - j > 0;
      assert Trim(s) != [];
    } else {
      assert s[..k] == s;
    }
  }

  /** `s.startsWith(p)` */
  predicate IsPrefix(p: string, s: string)
  {
    |p| <= |s| && s[..|p|] == p
  }

  /** `sub` occurs in `s` at position `i`. */
  predicate OccursAt(s: string, sub: string, i: int)
  {
    0 <= i && i + |sub| <= |s| && s[i..i + |sub|] == sub
  }

  /** `s.includes(sub)` */
  predicate Contains(s: string, sub: string)
    decreases |s|
  {
    IsPrefix(sub, s) || (s != [] && Contains(s[1..], sub))
  }

  /** `includes` holds exactly when `sub` occurs at some position of `s`. */
  lemma {:induction false} ContainsIffOccurs(s: string, sub: string)
    ensures Contains(s, sub) <==> exists i :: OccursAt(s, sub, i)
    decreases |s|
  {
    if IsPrefix(sub, s) {
      assert OccursAt(s, sub, 0);
    } else if s != [] {
      ContainsIffOccurs(s[1..], sub);
      if Contains(s[1..], sub) {
        var i :| OccursAt(s[1..], sub, i);
        assert s[i + 1..i + 1 + |sub|] == s[1..][i..i + |sub|];
        assert OccursAt(s, sub, i + 1);
      }
      if exists i :: OccursAt(s, sub, i) {
        var i :| OccursAt(s, sub, i);
        assert i != 0;
        assert s[1..][i - 1..i - 1 + |sub|] == s[i..i + |sub|];
        assert OccursAt(s[1..], sub, i - 1);
      }
    } else {
      assert forall i :: !OccursAt(s, sub, i);
    }
  }

  lemma ContainsEmpty(s: string)
    ensures Contains(s, "")
  {
  }

  /** The order `localeCompare` stands in for: lexicographic by Unicode scalar value. */
  predicate StrLe(a: string, b: string)
  {
    a == [] || (b != [] && (a[0] < b[0] || (a[0] == b[0] && StrLe(a[1..], b[1..]))))
  }

  lemma {:induction false} StrLeTotal(a: string, b: string)
    ensures StrLe(a, b) || StrLe(b, a)
  {
    if a != [] && b != [] && a[0] == b[0] {
      StrLeTotal(a[1..], b[1..]);
    }
  }

  lemma {:induction false} StrLeTransitive(a: string, b: string, c: string)
    requires StrLe(a, b) && StrLe(b, c)
    ensures StrLe(a, c)
  {
    if a != [] && a[0] == b[0] && b[0] == c[0] {
      StrLeTransitive(a[1..], b[1..], c[1..]);
    }
  }

  predicate IsHexDigit(c: char)
  {
    ('0' <= c <= '9') || ('a' <= c <= 'f') || ('A' <= c <= 'F')
  }

  /** A UTF-16 code unit: what a JavaScript string's `length` counts and
      `substring` cuts. */
  type CodeUnit = u: int | 0 <= u < 0x1_0000

  /** The code units of one character: itself below U+10000, otherwise a
      high and a low surrogate. */
  function UnitsOf(c: char): (r: seq<CodeUnit>)
    ensures c as int < 0x1_0000 ==> r == [c as int]
    ensures c as int >= 0x1_0000 ==>
              |r| == 2 && 0xD800 <= r[0] < 0xDC00 && 0xDC00 <= r[1] < 0xE000 &&
              (r[0] as int - 0xD800) * 0x400 + (r[1] as int - 0xDC00) + 0x1_0000 == c as int
  {
    var v := c as int;
    if v < 0x1_0000 then [v]
    else
      var w := v - 0x1_0000;
      [0xD800 + w / 0x400, 0xDC00 + w % 0x400]
  }

  /** The UTF-16 form of a string. */
  function Utf16(s: string): seq<CodeUnit>
  {
    if s == [] then [] else UnitsOf(s[0]) + Utf16(s[1..])
  }

  lemma {:induction false} Utf16Append(a: string, b: string)
    ensures Utf16(a + b) == Utf16(a) + Utf16(b)
  {
    if a != [] {
      assert (a + b)[0] == a[0] && (a + b)[1..] == a[1..] + b;
      Utf16Append(a[1..], b);
      assert Utf16(a + b) == UnitsOf(a[0]) + (Utf16(a[1..]) + Utf16(b));
      assert UnitsOf(a[0]) + (Utf16(a[1..]) + Utf16(b)) == (UnitsOf(a[0]) + Utf16(a[1..])) + Utf16(b);
    } else {
      assert a + b == b;
    }
  }

  /** A string without characters beyond U+FFFF has one code unit per
      character, each the character's own value. */
  lemma {:induction false} Utf16Bmp(s: string)
    requires forall i :: 0 <= i < |s| ==> s[i] as int < 0x1_0000
    ensures |Utf16(s)| == |s| && forall i :: 0 <= i < |s| ==> Utf16(s)[i] == s[i] as int
  {
    if s != [] {
      Utf16Bmp(s[1..]);
    }
  }

  /** Every character takes at least one code unit, and one beyond U+FFFF
      takes two. */
  lemma {:induction false} Utf16Longer(s: string)
    ensures |Utf16(s)| >= |s|
    ensures (exists i :: 0 <= i < |s| && s[i] as int >= 0x1_0000) ==> |Utf16(s)| > |s|
  {
    if s != [] {
      Utf16Longer(s[1..]);
      if s[0] as int < 0x1_0000 {
        forall i | 0 <= i < |s| && s[i] as int >= 0x1_0000 ensures 0 <= i - 1 < |s[1..]| && s[1..][i - 1] as int >= 0x1_0000 {
        }
      }
    }
  }

  /** `new ObjectId(s)` (and `ObjectId.isValid(s)`) for a string: only a string of
      24 hexadecimal digits is accepted; the identifier's canonical form is its
      lower-case hex. */
  function ParseObjectId(s: string): (r: Option<string>)
    ensures r.Some? <==> |s| == 24 && forall i :: 0 <= i < |s| ==> IsHexDigit(s[i])
    ensures r.Some? ==> |r.value| == 24 && r.value == Lower(s)
  {
    if |s| == 24 && forall i :: 0 <= i < |s| ==> IsHexDigit(s[i]) then Some(Lower(s)) else None
  }

  /** A canonical identifier is its own parse (24 lower-case hex digits). */
  predicate IsCanonicalId(s: string)
  {
    ParseObjectId(s) == Some(s)
  }

  /** Parsing is idempotent: the canonical form of a parsed identifier parses to itself. */
  lemma ParseCanonical(s: string)
    requires ParseObjectId(s).Some?
    ensures IsCanonicalId(ParseObjectId(s).value)
  {
    var h := Lower(s);
    forall i | 0 <= i < |h| ensures IsHexDigit(h[i]) {
      assert h[i] == LowerChar(s[i]);
    }
    LowerIdempotent(s);
  }
}
