/** Values shared by every part of the model: bytes, RGBA pixels, error
    wrappers, and the handful of Rust string operations the program relies on
    (`str::replace` with a one-character pattern, `String::pop`,
    `str::ends_with`, `str::len`, ASCII `to_uppercase`, and decimal
    formatting of a `usize`). */
module Common {

  type byte = x: int | 0 <= x < 256

  /** One RGBA8 pixel, as `image` and `three-d` store it. */
  datatype Rgba = Rgba(r: byte, g: byte, b: byte, a: byte)

  /** The colour a `ColorMaterial` has until `apply_color` is called. */
  const White := Rgba(255, 255, 255, 255)

  datatype Option<T> = None | Some(value: T)

  /** `anyhow::Result`: the message is the context the program attaches. */
  datatype Result<T> = Ok(value: T) | Err(msg: string)

  /** `s.replace(from, to)` for a one-character pattern. */
  function Replace(s: string, from: char, to: string): string
  {
    if s == [] then [] else (if s[0] == from then to else [s[0]]) + Replace(s[1..], from, to)
  }

  /** Replacing one character by one character keeps the length and changes
      exactly the positions holding the pattern. */
  lemma {:induction false} ReplaceCharAt(s: string, from: char, to: char)
    ensures |Replace(s, from, [to])| == |s|
    ensures forall i :: 0 <= i < |s| ==>
      Replace(s, from, [to])[i] == if s[i] == from then to else s[i]
  {
    if s != [] {
      ReplaceCharAt(s[1..], from, to);
      var head := if s[0] == from then [to] else [s[0]];
      assert Replace(s, from, [to]) == head + Replace(s[1..], from, [to]);
      forall i | 0 <= i < |s|
        ensures Replace(s, from, [to])[i] == if s[i] == from then to else s[i]
      {
        if i > 0 {
          assert s[i] == s[1..][i - 1];
        }
      }
    }
  }

  /** Escaping one character with another that does not occur in the
      string is undone by the reverse replacement. */
  lemma {:induction false} ReplaceRoundTrip(s: string, a: char, b: char)
    requires b !in s
    ensures Replace(Replace(s, a, [b]), b, [a]) == s
  {
    if s != [] {
      assert b !in s[1..] by {
        forall i | 0 <= i < |s[1..]| ensures s[1..][i] != b { assert s[1..][i] == s[i + 1]; }
      }
      ReplaceRoundTrip(s[1..], a, b);
      var head := if s[0] == a then [b] else [s[0]];
      assert Replace(s, a, [b]) == head + Replace(s[1..], a, [b]);
      ReplaceAppend(head, Replace(s[1..], a, [b]), b, [a]);
    }
  }

  /** `replace` distributes over concatenation. */
  lemma {:induction false} ReplaceAppend(s: string, t: string, from: char, to: string)
    ensures Replace(s + t, from, to) == Replace(s, from, to) + Replace(t, from, to)
  {
    if s != [] {
      assert (s + t)[1..] == s[1..] + t;
      ReplaceAppend(s[1..], t, from, to);
    } else {
      assert s + t == t;
    }
  }

  /** After replacing `from` by a string free of `from`, no `from` is left. */
  lemma {:induction false} ReplaceRemoves(s: string, from: char, to: string)
    requires from !in to
    ensures from !in Replace(s, from, to)
  {
    if s != [] {
      ReplaceRemoves(s[1..], from, to);
      var head := if s[0] == from then to else [s[0]];
      assert Replace(s, from, to) == head + Replace(s[1..], from, to);
    }
  }

  /** `String::pop`, keeping only the string: the last character goes, an
      empty string stays empty. */
  function Pop(s: string): (r: string)
    ensures |s| > 0 ==> |r| == |s| - 1 && s == r + [s[|s| - 1]]
    ensures |s| == 0 ==> r == s
  {
    if |s| == 0 then s else s[..|s| - 1]
  }

  /** No element occurs twice. */
  predicate Distinct<T(==)>(s: seq<T>)
  {
    forall i, j :: 0 <= i < j < |s| ==> s[i] != s[j]
  }

  predicate EndsWith(s: string, suffix: string)
  {
    |suffix| <= |s| && s[|s| - |suffix|..] == suffix
  }

  /** Number of bytes of the UTF-8 encoding of one scalar value. */
  function Utf8Width(c: char): (n: nat)
    ensures 1 <= n <= 4
    ensures n == 1 <==> c as int < 0x80
  {
    if c as int < 0x80 then 1 else if c as int < 0x800 then 2 else if c as int < 0x10000 then 3 else 4
  }

  /** `str::len`: the length of the UTF-8 encoding, in bytes. */
  function Utf8Len(s: string): nat
  {
    if s == [] then 0 else Utf8Width(s[0]) + Utf8Len(s[1..])
  }

  predicate IsAscii(c: char) { c as int < 0x80 }

  /** For ASCII text the byte length is the character count, and otherwise
      it is strictly larger. */
  lemma {:induction false} Utf8LenAscii(s: string)
    ensures Utf8Len(s) >= |s|
    ensures Utf8Len(s) == |s| <==> forall i :: 0 <= i < |s| ==> IsAscii(s[i])
  {
    if s != [] {
      Utf8LenAscii(s[1..]);
      if forall i :: 0 <= i < |s| ==> IsAscii(s[i]) {
        assert forall i :: 0 <= i < |s[1..]| ==> IsAscii(s[1..][i]) by {
          forall i | 0 <= i < |s[1..]| ensures IsAscii(s[1..][i]) { assert s[1..][i] == s[i + 1]; }
        }
      } else {
        var k :| 0 <= k < |s| && !IsAscii(s[k]);
        if k > 0 {
          assert s[1..][k - 1] == s[k];
        }
      }
    }
  }

  /** `char::to_uppercase` on ASCII letters; every other character is kept. */
  function UpperChar(c: char): char
  {
    if 'a' <= c <= 'z' then (c as int - 32) as char else c
  }

  /** Upper-casing leaves no lower-case ASCII letter: each one becomes
      the capital 32 code points below it, and every other character is
      kept in place. */
  function ToUpper(s: string): (r: string)
    ensures |r| == |s|
    ensures forall i :: 0 <= i < |r| ==> !('a' <= r[i] <= 'z')
    ensures forall i :: 0 <= i < |s| && 'a' <= s[i] <= 'z' ==> 'A' <= r[i] <= 'Z' && r[i] as int == s[i] as int - 32
    ensures forall i :: 0 <= i < |s| && !('a' <= s[i] <= 'z') ==> r[i] == s[i]
  {
    seq(|s|, i requires 0 <= i < |s| => UpperChar(s[i]))
  }

  /** Upper-casing twice is upper-casing once, and a string is its own
      upper case exactly when it has no lower-case ASCII letter. */
  lemma ToUpperIdempotent(s: string)
    ensures ToUpper(ToUpper(s)) == ToUpper(s)
    ensures ToUpper(s) == s <==> forall i :: 0 <= i < |s| ==> !('a' <= s[i] <= 'z')
  {
    if ToUpper(s) == s {
      forall i | 0 <= i < |s| ensures !('a' <= s[i] <= 'z') {
        assert ToUpper(s)[i] == s[i];
      }
    }
  }

  function DigitChar(d: nat): char
    requires d < 10
  {
    "0123456789"[d]
  }

  /** A digit's character is `'0'` moved up by the digit. */
  lemma DigitValue(d: nat)
    requires d < 10
    ensures DigitChar(d) as int == '0' as int + d
  {
    assert forall e :: 0 <= e < 10 ==> "0123456789"[e] as int == '0' as int + e;
  }

  /** Different digits have different characters. */
  lemma DigitsApart(a: nat, b: nat)
    requires a < 10 && b < 10 && a != b
    ensures DigitChar(a) != DigitChar(b)
  {
    DigitValue(a);
    DigitValue(b);
  }

  /** `format!("{n}")` for an unsigned integer. */
  function NatToString(n: nat): (r: string)
    ensures |r| > 0
    ensures forall i :: 0 <= i < |r| ==> '0' <= r[i] <= '9'
    decreases n
  {
    if n < 10 then [DigitChar(n)] else NatToString(n / 10) + [DigitChar(n % 10)]
  }

  /** Decimal rendering is injective: two different skin indices never give
      the same directory suffix. */
  lemma {:induction false} NatToStringInjective(m: nat, n: nat)
    requires NatToString(m) == NatToString(n)
    ensures m == n
    decreases m
  {
    var s := NatToString(m);
    if m >= 10 && n >= 10 {
      assert NatToString(m / 10) == s[..|s| - 1] == NatToString(n / 10);
      NatToStringInjective(m / 10, n / 10);
      assert DigitChar(m % 10) == s[|s| - 1] == DigitChar(n % 10);
    } else if m < 10 && n < 10 {
      assert "0123456789"[m] == "0123456789"[n];
    }
  }

  /** Appending a concatenation is appending its parts in turn. */
  lemma AppendAssoc<T>(a: seq<T>, b: seq<T>, c: seq<T>)
    ensures a + (b + c) == a + b + c
  {
  }

  /** `AppendAssoc` for four parts. */
  lemma AppendAssoc4<T>(a: seq<T>, b: seq<T>, c: seq<T>, d: seq<T>, e: seq<T>)
    ensures a + (b + c + d + e) == a + b + c + d + e
  {
    AppendAssoc(a, b + c + d, e);
    AppendAssoc(a, b + c, d);
    AppendAssoc(a, b, c);
  }
}
