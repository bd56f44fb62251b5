// String operations of Go's `strings` package and of JavaScript strings, as
// the launcher uses them: split and join on one separator, first and all
// occurrence replacement, containment, prefix and suffix tests, trimming and
// decimal formatting.
module Strs {
  import opened Wrappers

  /** `strings.Split(s, sep)` / `s.split(sep)` for a one-character separator:
      the pieces between separators, never an empty list. */
  function Split(s: string, sep: char): (parts: seq<string>)
    ensures |parts| >= 1
    ensures forall i :: 0 <= i < |parts| ==> sep !in parts[i]
  {
    if |s| == 0 then [""]
    else
      var rest := Split(s[1..], sep);
      if s[0] == sep then [""] + rest
      else [[s[0]] + rest[0]] + rest[1..]
  }

  /** `strings.Join(parts, sep)` / `parts.join(sep)`. */
  function Join(parts: seq<string>, sep: string): string
  {
    if |parts| == 0 then ""
    else if |parts| == 1 then parts[0]
    else parts[0] + sep + Join(parts[1..], sep)
  }

  /** Number of occurrences of character `c` in `s`. */
  function Count(s: string, c: char): nat
  {
    if |s| == 0 then 0
    else (if s[0] == c then 1 else 0) + Count(s[1..], c)
  }

  lemma {:induction false} CountZero(s: string, c: char)
    ensures Count(s, c) == 0 <==> c !in s
  {
    if |s| > 0 {
      CountZero(s[1..], c);
      assert s == [s[0]] + s[1..];
    }
  }

  lemma {:induction false} CountAppend(a: string, b: string, c: char)
    ensures Count(a + b, c) == Count(a, c) + Count(b, c)
  {
    if |a| == 0 {
      assert a + b == b;
    } else {
      assert (a + b)[1..] == a[1..] + b;
      CountAppend(a[1..], b, c);
    }
  }

  lemma {:induction false} JoinConsHead(c: char, x: string, tail: seq<string>, sep: string)
    ensures Join([[c] + x] + tail, sep) == [c] + Join([x] + tail, sep)
  {
    var l1 := [[c] + x] + tail;
    var l2 := [x] + tail;
    assert l1[1..] == tail && l2[1..] == tail;
  }

  /** Splitting and joining back on the same separator restores the string. */
  lemma {:induction false} JoinOfSplit(s: string, sep: char)
    ensures Join(Split(s, sep), [sep]) == s
  {
    if |s| > 0 {
      var rest := Split(s[1..], sep);
      JoinOfSplit(s[1..], sep);
      if s[0] == sep {
        var l := [""] + rest;
        assert l[1..] == rest;
        assert Join(l, [sep]) == "" + [sep] + Join(rest, [sep]);
        assert s == [s[0]] + s[1..];
      } else {
        assert rest == [rest[0]] + rest[1..];
        JoinConsHead(s[0], rest[0], rest[1..], [sep]);
        assert s == [s[0]] + s[1..];
      }
    }
  }

  lemma {:induction false} SplitNoSeparator(a: string, sep: char)
    requires sep !in a
    ensures Split(a, sep) == [a]
  {
    if |a| > 0 {
      SplitNoSeparator(a[1..], sep);
      assert a == [a[0]] + a[1..];
    }
  }

  lemma {:induction false} SplitAtSeparator(a: string, b: string, sep: char)
    requires sep !in a
    ensures Split(a + [sep] + b, sep) == [a] + Split(b, sep)
  {
    var s := a + [sep] + b;
    if |a| == 0 {
      assert s == [sep] + b;
      assert s[1..] == b;
    } else {
      assert s[1..] == a[1..] + [sep] + b;
      SplitAtSeparator(a[1..], b, sep);
      assert a == [a[0]] + a[1..];
    }
  }

  /** Joining pieces that contain no separator and splitting again gives the
      pieces back. */
  lemma {:induction false} SplitOfJoin(parts: seq<string>, sep: char)
    requires |parts| >= 1
    requires forall i :: 0 <= i < |parts| ==> sep !in parts[i]
    ensures Split(Join(parts, [sep]), sep) == parts
  {
    if |parts| == 1 {
      SplitNoSeparator(parts[0], sep);
    } else {
      SplitOfJoin(parts[1..], sep);
      assert Join(parts, [sep]) == parts[0] + [sep] + Join(parts[1..], [sep]);
      SplitAtSeparator(parts[0], Join(parts[1..], [sep]), sep);
      assert parts == [parts[0]] + parts[1..];
    }
  }

  /** `strings.HasPrefix(s, p)` / `s.startsWith(p)`. */
  predicate HasPrefix(s: string, p: string)
  {
    |p| <= |s| && s[..|p|] == p
  }

  /** `strings.HasSuffix(s, p)` / `s.endsWith(p)`. */
  predicate HasSuffix(s: string, p: string)
  {
    |p| <= |s| && s[|s| - |p|..] == p
  }

  /** `strings.Contains(s, sub)` / `s.includes(sub)`. */
  predicate Contains(s: string, sub: string)
  {
    HasPrefix(s, sub) || (|s| > 0 && Contains(s[1..], sub))
  }

  lemma ContainsEmpty(s: string)
    ensures Contains(s, "")
  {
  }

  /** An occurrence at any position makes the string contain the substring. */
  lemma {:induction false} ContainsAt(s: string, sub: string, i: nat)
    requires i + |sub| <= |s| && s[i..i + |sub|] == sub
    ensures Contains(s, sub)
  {
    if i > 0 {
      assert s[1..][i - 1..i - 1 + |sub|] == s[i..i + |sub|];
      ContainsAt(s[1..], sub, i - 1);
    }
  }

  /** A string without the first character of a non-empty pattern does not
      contain the pattern. */
  lemma {:induction false} ContainsNeedsFirstChar(s: string, sub: string)
    requires |sub| > 0 && sub[0] !in s
    ensures !Contains(s, sub)
  {
    if |s| > 0 {
      assert s[0] in s;
      ContainsNeedsFirstChar(s[1..], sub);
    }
  }

  /** `strings.TrimSuffix(s, p)`. */
  function TrimSuffix(s: string, p: string): (r: string)
    ensures HasSuffix(s, p) ==> r + p == s
    ensures !HasSuffix(s, p) ==> r == s
  {
    if HasSuffix(s, p) then s[..|s| - |p|] else s
  }

  /** Every occurrence of character `a` replaced by `b`
      (`strings.ReplaceAll(s, ".", "/")`). */
  function ReplaceChar(s: string, a: char, b: char): (r: string)
    ensures |r| == |s|
    ensures forall i :: 0 <= i < |s| ==> r[i] == (if s[i] == a then b else s[i])
  {
    seq(|s|, i requires 0 <= i < |s| => if s[i] == a then b else s[i])
  }

  lemma ReplaceCharAppend(x: string, y: string, a: char, b: char)
    ensures ReplaceChar(x + y, a, b) == ReplaceChar(x, a, b) + ReplaceChar(y, a, b)
  {
    var l := ReplaceChar(x + y, a, b);
    var r := ReplaceChar(x, a, b) + ReplaceChar(y, a, b);
    assert |l| == |r|;
    forall i | 0 <= i < |l| ensures l[i] == r[i] {
      if i < |x| {
        assert (x + y)[i] == x[i];
      } else {
        assert (x + y)[i] == y[i - |x|];
      }
    }
  }

  /** The first occurrence of character `a` replaced by `b`
      (JavaScript `s.replace(".", "/")`). */
  function ReplaceFirstChar(s: string, a: char, b: char): (r: string)
    ensures |r| == |s|
  {
    if |s| == 0 then ""
    else if s[0] == a then [b] + s[1..]
    else [s[0]] + ReplaceFirstChar(s[1..], a, b)
  }

  lemma {:induction false} ReplaceFirstCharAppend(x: string, y: string, a: char, b: char)
    requires a in x
    ensures ReplaceFirstChar(x + y, a, b) == ReplaceFirstChar(x, a, b) + y
  {
    assert (x + y)[0] == x[0];
    if x[0] != a {
      assert (x + y)[1..] == x[1..] + y;
      assert a in x[1..] by {
        var k :| 0 <= k < |x| && x[k] == a;
        assert x[1..][k - 1] == a;
      }
      ReplaceFirstCharAppend(x[1..], y, a, b);
    } else {
      assert (x + y)[1..] == x[1..] + y;
    }
  }

  /** The first occurrence is the one after a prefix free of `a`. */
  lemma {:induction false} ReplaceFirstCharAt(x: string, y: string, a: char, b: char)
    requires a !in x
    ensures ReplaceFirstChar(x + [a] + y, a, b) == x + [b] + y
  {
    if |x| > 0 {
      assert x[0] in x;
      assert (x + [a] + y)[1..] == x[1..] + [a] + y;
      ReplaceFirstCharAt(x[1..], y, a, b);
    }
  }

  /** With exactly one occurrence, replacing the first one replaces them all. */
  lemma {:induction false} ReplaceFirstCharSingle(s: string, a: char, b: char)
    requires Count(s, a) == 1
    ensures ReplaceFirstChar(s, a, b) == ReplaceChar(s, a, b)
  {
    assert |s| > 0;
    if s[0] == a {
      CountZero(s[1..], a);
      ReplaceCharNone(s[1..], a, b);
    } else {
      ReplaceFirstCharSingle(s[1..], a, b);
    }
  }

  lemma ReplaceCharNone(s: string, a: char, b: char)
    requires a !in s
    ensures ReplaceChar(s, a, b) == s
  {
  }

  /** The first occurrence of a substring replaced (Go `strings.Replace(s,
      pat, rep, 1)`, JavaScript `s.replace(pat, rep)` with a string pattern). */
  function ReplaceFirst(s: string, pat: string, rep: string): (r: string)
    decreases |s|
  {
    if HasPrefix(s, pat) then rep + s[|pat|..]
    else if |s| == 0 then s
    else [s[0]] + ReplaceFirst(s[1..], pat, rep)
  }

  lemma {:induction false} ReplaceFirstAbsent(s: string, pat: string, rep: string)
    requires !Contains(s, pat)
    ensures ReplaceFirst(s, pat, rep) == s
  {
    if |s| > 0 {
      ReplaceFirstAbsent(s[1..], pat, rep);
    }
  }

  /** Characters before the first match are kept as they are. */
  lemma {:induction false} ReplaceFirstAfter(x: string, y: string, pat: string, rep: string)
    requires forall i :: 0 <= i < |x| ==> !HasPrefix((x + y)[i..], pat)
    ensures ReplaceFirst(x + y, pat, rep) == x + ReplaceFirst(y, pat, rep)
    decreases |x|
  {
    if |x| > 0 {
      var s := x + y;
      var t := x[1..] + y;
      assert s[0..] == s;
      assert !HasPrefix(s, pat);
      assert |s| > 0;
      assert s[1..] == t;
      assert ReplaceFirst(s, pat, rep) == [s[0]] + ReplaceFirst(t, pat, rep);
      forall i | 0 <= i < |x| - 1
        ensures !HasPrefix(t[i..], pat)
      {
        assert t[i..] == s[i + 1..];
      }
      ReplaceFirstAfter(x[1..], y, pat, rep);
      var r := ReplaceFirst(y, pat, rep);
      assert x == [s[0]] + x[1..];
      assert [s[0]] + (x[1..] + r) == ([s[0]] + x[1..]) + r;
    } else {
      assert x + y == y;
    }
  }

  /** All non-overlapping occurrences of a non-empty substring replaced,
      scanning left to right (`strings.ReplaceAll`). */
  function ReplaceAll(s: string, pat: string, rep: string): (r: string)
    requires |pat| > 0
    decreases |s|
  {
    if |s| == 0 then s
    else if HasPrefix(s, pat) then rep + ReplaceAll(s[|pat|..], pat, rep)
    else [s[0]] + ReplaceAll(s[1..], pat, rep)
  }

  /** With a one-character pattern and replacement, `ReplaceAll` is the
      character-wise replacement. */
  lemma {:induction false} ReplaceAllChar(s: string, a: char, b: char)
    ensures ReplaceAll(s, [a], [b]) == ReplaceChar(s, a, b)
    decreases |s|
  {
    if |s| > 0 {
      ReplaceAllChar(s[1..], a, b);
      assert HasPrefix(s, [a]) <==> s[0] == a;
      assert s[|[a]|..] == s[1..];
      assert ReplaceChar(s, a, b) == [ReplaceChar(s, a, b)[0]] + ReplaceChar(s[1..], a, b);
    }
  }

  lemma {:induction false} ReplaceAllAbsent(s: string, pat: string, rep: string)
    requires |pat| > 0 && !Contains(s, pat)
    ensures ReplaceAll(s, pat, rep) == s
  {
    if |s| > 0 {
      ReplaceAllAbsent(s[1..], pat, rep);
    }
  }

  /** Deleting every occurrence of a pattern shortens a string by a multiple
      of the pattern's length. */
  lemma {:induction false} ReplaceAllDeleteLength(s: string, pat: string) returns (k: nat)
    requires |pat| > 0
    ensures |s| - |ReplaceAll(s, pat, "")| == k * |pat|
    decreases |s|
  {
    if |s| == 0 {
      k := 0;
    } else if HasPrefix(s, pat) {
      var k' := ReplaceAllDeleteLength(s[|pat|..], pat);
      k := k' + 1;
      assert k * |pat| == k' * |pat| + |pat|;
    } else {
      k := ReplaceAllDeleteLength(s[1..], pat);
    }
  }

  /** `strings.Trim(s, cutset)`: leading and trailing characters of the set
      removed. */
  function Trim(s: string, cutset: set<char>): (r: string)
    ensures |r| <= |s|
    ensures |r| > 0 ==> r[0] !in cutset && r[|r| - 1] !in cutset
  {
    TrimRight(TrimLeft(s, cutset), cutset)
  }

  function TrimLeft(s: string, cutset: set<char>): (r: string)
    ensures |r| <= |s|
    ensures |r| > 0 ==> r[0] !in cutset
    ensures r == s[|s| - |r|..]
  {
    if |s| > 0 && s[0] in cutset then TrimLeft(s[1..], cutset) else s
  }

  function TrimRight(s: string, cutset: set<char>): (r: string)
    ensures |r| <= |s|
    ensures |r| > 0 ==> r[|r| - 1] !in cutset
    ensures r == s[..|r|]
  {
    if |s| > 0 && s[|s| - 1] in cutset then TrimRight(s[..|s| - 1], cutset) else s
  }

  /** Decimal rendering of a natural number (`%d`, template interpolation). */
  function NatToString(n: nat): (r: string)
    ensures |r| >= 1
    decreases n
  {
    if n < 10 then [Digit(n)] else NatToString(n / 10) + [Digit(n % 10)]
  }

  function Digit(d: nat): char
    requires d < 10
  {
    "0123456789"[d]
  }

  /** Decimal rendering of an integer, with a leading '-' when negative. */
  function IntToString(i: int): (r: string)
  {
    if i < 0 then "-" + NatToString(-i) else NatToString(i)
  }

  // ---------------------------------------------------------------------
  // Quoting

  /** `strconv.IsPrint` on Latin-1: the printable ASCII characters and
      U+00A1..U+00FF except the soft hyphen U+00AD. Characters above U+00FF
      are taken as printable. */
  predicate Printable(c: char)
  {
    (0x20 <= c as int <= 0x7E) || (0xA1 <= c as int <= 0xFF && c as int != 0xAD) || c as int > 0xFF
  }

  /** The low `width` hex digits of `n`, lower case. */
  function HexPad(n: nat, width: nat): (h: string)
    ensures |h| == width
  {
    if width == 0 then "" else HexPad(n / 16, width - 1) + ["0123456789abcdef"[n % 16]]
  }

  /** One character as `strconv.Quote` writes it: the quote and the
      backslash escaped, a printable character as it is, the seven C escapes,
      `\x` for the other ASCII controls and `\u` for the rest. */
  function Escape(c: char): string
  {
    if c == '"' || c == '\\' then ['\\', c]
    else if Printable(c) then [c]
    else if c as int == 7 then "\\a"
    else if c as int == 8 then "\\b"
    else if c as int == 12 then "\\f"
    else if c as int == 10 then "\\n"
    else if c as int == 13 then "\\r"
    else if c as int == 9 then "\\t"
    else if c as int == 11 then "\\v"
    else if c as int < 0x20 || c as int == 0x7F then "\\x" + HexPad(c as int, 2)
    else "\\u" + HexPad(c as int, 4)
  }

  function EscapeAll(s: string): string
  {
    if |s| == 0 then "" else Escape(s[0]) + EscapeAll(s[1..])
  }

  /** `%q` of a string, as `strconv.Quote` writes it: the escaped
      characters between double quotes. It reads back as the string. */
  function Quote(s: string): (q: string)
    ensures |q| >= 2 && q[0] == '"' && q[|q| - 1] == '"'
    ensures Unquote(q) == Some(s)
  {
    var q := "\"" + EscapeAll(s) + "\"";
    assert q[1..|q| - 1] == EscapeAll(s);
    UnescapeEscape(s);
    q
  }

  function HexDigitValue(c: char): Option<nat>
  {
    if '0' <= c <= '9' then Some(c as int - '0' as int)
    else if 'a' <= c <= 'f' then Some(c as int - 'a' as int + 10)
    else None
  }

  /** The value of a string of hex digits. */
  function HexValue(h: string): Option<nat>
  {
    if |h| == 0 then Some(0)
    else
      match (HexValue(h[..|h| - 1]), HexDigitValue(h[|h| - 1]))
      case (Some(v), Some(d)) => Some(v * 16 + d)
      case _ => None
  }

  function Pow16(width: nat): (p: nat)
    ensures p > 0
  {
    if width == 0 then 1 else 16 * Pow16(width - 1)
  }

  lemma {:induction false} HexPadValue(n: nat, width: nat)
    requires n < Pow16(width)
    ensures HexValue(HexPad(n, width)) == Some(n)
  {
    if width > 0 {
      var p := Pow16(width - 1);
      assert n == 16 * (n / 16) + n % 16;
      assert n / 16 < p;
      HexPadValue(n / 16, width - 1);
      var h := HexPad(n, width);
      assert h[..|h| - 1] == HexPad(n / 16, width - 1);
      assert HexDigitValue(h[|h| - 1]) == Some(n % 16);
    }
  }

  function Prepend(c: char, rest: Option<string>): Option<string>
  {
    if rest.Some? then Some([c] + rest.value) else None
  }

  /** The escape at the start of `s` (after its backslash) that reads a
      character code from `width` hex digits. */
  function UnescapeHex(s: string, width: nat): Option<string>
    requires |s| >= 2
    decreases |s|, 0
  {
    if |s| < 2 + width then None
    else
      match HexValue(s[2..2 + width])
      case None => None
      case Some(v) => if v < 0xD800 then Prepend(v as char, UnescapeAll(s[2 + width..])) else None
  }

  /** Reads back what `EscapeAll` writes; `None` for a bare '"', a dangling
      backslash or an unknown escape. */
  function UnescapeAll(s: string): Option<string>
    decreases |s|, 1
  {
    if |s| == 0 then Some("")
    else if s[0] == '"' then None
    else if s[0] != '\\' then Prepend(s[0], UnescapeAll(s[1..]))
    else if |s| < 2 then None
    else if s[1] == '"' || s[1] == '\\' then Prepend(s[1], UnescapeAll(s[2..]))
    else if s[1] == 'a' then Prepend(7 as char, UnescapeAll(s[2..]))
    else if s[1] == 'b' then Prepend(8 as char, UnescapeAll(s[2..]))
    else if s[1] == 'f' then Prepend(12 as char, UnescapeAll(s[2..]))
    else if s[1] == 'n' then Prepend(10 as char, UnescapeAll(s[2..]))
    else if s[1] == 'r' then Prepend(13 as char, UnescapeAll(s[2..]))
    else if s[1] == 't' then Prepend(9 as char, UnescapeAll(s[2..]))
    else if s[1] == 'v' then Prepend(11 as char, UnescapeAll(s[2..]))
    else if s[1] == 'x' then UnescapeHex(s, 2)
    else if s[1] == 'u' then UnescapeHex(s, 4)
    else None
  }

  /** `strconv.Unquote` for what `Quote` writes. */
  function Unquote(q: string): Option<string>
  {
    if |q| >= 2 && q[0] == '"' && q[|q| - 1] == '"' then UnescapeAll(q[1..|q| - 1]) else None
  }

  lemma UnescapeOne(c: char, rest: string)
    ensures UnescapeAll(Escape(c) + rest) == Prepend(c, UnescapeAll(rest))
  {
    var e := Escape(c);
    var s := e + rest;
    if c == '"' || c == '\\' || Printable(c) {
      assert s[|e|..] == rest;
    } else if c as int < 0x20 || c as int == 0x7F {
      if !(c as int in {7, 8, 9, 10, 11, 12, 13}) {
        HexPadValue(c as int, 2);
        assert s[2..4] == HexPad(c as int, 2);
        assert s[4..] == rest;
        assert (c as int) as char == c;
      } else {
        assert s[2..] == rest;
      }
    } else {
      HexPadValue(c as int, 4);
      assert s[2..6] == HexPad(c as int, 4);
      assert s[6..] == rest;
      assert (c as int) as char == c;
    }
  }

  lemma {:induction false} UnescapeEscape(s: string)
    ensures UnescapeAll(EscapeAll(s)) == Some(s)
  {
    if |s| > 0 {
      UnescapeEscape(s[1..]);
      UnescapeOne(s[0], EscapeAll(s[1..]));
      assert [s[0]] + s[1..] == s;
    }
  }

  /** What `%q` writes for a quote and a newline. */
  lemma QuoteEscapesQuoteAndNewline()
    ensures Quote("a\"b") == "\"a\\\"b\""
    ensures Quote("a\nb") == "\"a\\nb\""
  {
    assert EscapeAll("b") == "b";
    assert EscapeAll("\"b") == "\\\"b";
    assert EscapeAll("a\"b") == "a\\\"b";
    assert EscapeAll("\nb") == "\\nb";
    assert EscapeAll("a\nb") == "a\\nb";
  }

  /** What `%q` writes for an ASCII control character. */
  lemma QuoteEscapesControl()
    ensures Quote([1 as char]) == "\"\\x01\""
  {
    assert HexPad(0, 1) == "0";
    assert HexPad(1, 2) == HexPad(0, 1) + "1";
    assert Escape(1 as char) == "\\x01";
    assert EscapeAll([1 as char]) == "\\x01";
  }

  /** What `%q` writes for the soft hyphen, which is not printable. */
  lemma QuoteEscapesSoftHyphen()
    ensures Quote([0xAD as char]) == "\"\\u00ad\""
  {
    assert HexPad(0, 2) == "00";
    assert HexPad(10, 3) == HexPad(0, 2) + "a";
    assert HexPad(0xAD, 4) == HexPad(10, 3) + "d";
    assert !Printable(0xAD as char);
    assert Escape(0xAD as char) == "\\u00ad";
    assert EscapeAll([0xAD as char]) == "\\u00ad";
  }
}
