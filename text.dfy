// Python's string operations that the modelled code relies on, over
// `string` (a sequence of Unicode code points, as a Python `str` is).

module Text {
  import opened Base

  /** `c * n` for a one-character string `c`: empty when `n <= 0`. */
  function Repeat(c: char, n: int): (r: string)
    ensures |r| == if n <= 0 then 0 else n
    ensures forall i :: 0 <= i < |r| ==> r[i] == c
    decreases if n <= 0 then 0 else n
  {
    if n <= 0 then "" else [c] + Repeat(c, n - 1)
  }

  /** `s.count(c)` for a one-character `c`. */
  function Count(s: string, c: char): (n: nat)
    ensures n == 0 <==> c !in s
    ensures n <= |s|
  {
    if s == [] then 0 else (if s[0] == c then 1 else 0) + Count(s[1..], c)
  }

  /** `s.index(c)`: the position of the first occurrence of `c`. */
  function IndexOf(s: string, c: char): (i: nat)
    requires c in s
    ensures i < |s| && s[i] == c
    ensures c !in s[..i]
  {
    if s[0] == c then 0 else 1 + IndexOf(s[1..], c)
  }

  /** The first occurrence of `c` in `p + [c] + q`, when `p` has none, is at `|p|`. */
  lemma IndexOfSplit(p: string, c: char, q: string)
    requires c !in p
    ensures IndexOf(p + [c] + q, c) == |p|
  {
    var s := p + [c] + q;
    assert s[|p|] == c;
    assert s[..|p|] == p;
  }

  /** The first occurrence of `c` is at `i` when `s[i]` is `c` and none comes before it. */
  lemma IndexOfAt(s: string, c: char, i: nat)
    requires i < |s| && s[i] == c && c !in s[..i]
    ensures IndexOf(s, c) == i
  {
    assert s == s[..i] + [c] + s[i + 1..];
    IndexOfSplit(s[..i], c, s[i + 1..]);
  }

  /** A character in neither part is not in their concatenation. */
  lemma NotInAppend(c: char, a: string, b: string)
    requires c !in a && c !in b
    ensures c !in a + b
  {
  }

  lemma {:induction false} CountAppend(s: string, t: string, c: char)
    ensures Count(s + t, c) == Count(s, c) + Count(t, c)
  {
    if s != [] {
      assert (s + t)[1..] == s[1..] + t;
      CountAppend(s[1..], t, c);
    } else {
      assert s + t == t;
    }
  }

  /** `s.split(sep)` for a one-character separator: the pieces between the separators. */
  function Split(s: string, sep: char): (parts: seq<string>)
    ensures |parts| >= 1
    decreases |s|
  {
    if sep !in s then [s]
    else
      var i := IndexOf(s, sep);
      [s[..i]] + Split(s[i + 1..], sep)
  }

  /** `sep.join(parts)`. */
  function Join(parts: seq<string>, sep: char): (r: string)
  {
    if parts == [] then ""
    else if |parts| == 1 then parts[0]
    else parts[0] + [sep] + Join(parts[1..], sep)
  }

  /** Splitting yields one more piece than there are separators, and no piece holds one. */
  lemma {:induction false} SplitShape(s: string, sep: char)
    ensures |Split(s, sep)| == Count(s, sep) + 1
    ensures forall k :: 0 <= k < |Split(s, sep)| ==> sep !in Split(s, sep)[k]
    decreases |s|
  {
    if sep in s {
      var i := IndexOf(s, sep);
      assert s == s[..i] + [sep] + s[i + 1..];
      CountAppend(s[..i] + [sep], s[i + 1..], sep);
      CountAppend(s[..i], [sep], sep);
      SplitShape(s[i + 1..], sep);
      var rest := Split(s[i + 1..], sep);
      assert Split(s, sep) == [s[..i]] + rest;
      forall k | 0 <= k < |Split(s, sep)| ensures sep !in Split(s, sep)[k] {
        if k > 0 { assert Split(s, sep)[k] == rest[k - 1]; }
      }
    }
  }

  /** Joining the pieces of a split gives the original string back. */
  lemma {:induction false} JoinSplit(s: string, sep: char)
    ensures Join(Split(s, sep), sep) == s
    decreases |s|
  {
    if sep in s {
      var i := IndexOf(s, sep);
      var rest := s[i + 1..];
      calc {
        Join(Split(s, sep), sep);
        Join([s[..i]] + Split(rest, sep), sep);
        { JoinCons(s[..i], Split(rest, sep), sep); }
        s[..i] + [sep] + Join(Split(rest, sep), sep);
        { JoinSplit(rest, sep); }
        s[..i] + [sep] + rest;
        { Around(s, i); }
        s;
      }
    }
  }

  /** A string is the part before position `i`, the character at `i`, and the rest. */
  lemma Around(s: string, i: nat)
    requires i < |s|
    ensures s[..i] + [s[i]] + s[i + 1..] == s
  {
  }

  /** Joining a piece in front of at least one other puts one separator between. */
  lemma JoinCons(p: string, parts: seq<string>, sep: char)
    requires |parts| >= 1
    ensures Join([p] + parts, sep) == p + [sep] + Join(parts, sep)
  {
    assert ([p] + parts)[1..] == parts;
  }

  /** Splitting a join of separator-free pieces gives the pieces back. */
  lemma {:induction false} SplitJoin(parts: seq<string>, sep: char)
    requires |parts| >= 1
    requires forall k :: 0 <= k < |parts| ==> sep !in parts[k]
    ensures Split(Join(parts, sep), sep) == parts
  {
    if |parts| > 1 {
      SplitJoin(parts[1..], sep);
      var s := Join(parts, sep);
      var p := parts[0];
      assert s == p + [sep] + Join(parts[1..], sep);
      assert s[|p|] == sep;
      assert s[..|p|] == p;
      assert IndexOf(s, sep) == |p|;
      assert s[|p| + 1..] == Join(parts[1..], sep);
    }
  }

  /** The characters Python's `str.isspace` accepts, which `str.strip()` removes. */
  predicate IsSpace(c: char) {
    c == ' ' || ('\t' <= c <= '\r') || ('\U{1c}' <= c <= '\U{1f}')
    || c == '\U{85}' || c == '\U{a0}' || c == '\U{1680}'
    || ('\U{2000}' <= c <= '\U{200a}') || c == '\U{2028}' || c == '\U{2029}'
    || c == '\U{202f}' || c == '\U{205f}' || c == '\U{3000}'
  }

  /** `s.lstrip()` with no argument. */
  function LStrip(s: string): (r: string)
    ensures |r| <= |s| && r == s[|s| - |r|..]
    ensures r == [] || !IsSpace(r[0])
    ensures forall k :: 0 <= k < |s| - |r| ==> IsSpace(s[k])
  {
    if s != [] && IsSpace(s[0]) then LStrip(s[1..]) else s
  }

  /** `s.rstrip()` with no argument. */
  function RStrip(s: string): (r: string)
    ensures |r| <= |s| && r == s[..|r|]
    ensures r == [] || !IsSpace(r[|r| - 1])
    ensures forall k :: |r| <= k < |s| ==> IsSpace(s[k])
  {
    if s != [] && IsSpace(s[|s| - 1]) then RStrip(s[..|s| - 1]) else s
  }

  /** `s.strip()`: leading and trailing whitespace removed, the inside kept. */
  function Strip(s: string): (r: string)
  {
    RStrip(LStrip(s))
  }

  /** `s.lstrip(c)` for a one-character `c`. */
  function LStripChar(s: string, c: char): (r: string)
    ensures |r| <= |s| && r == s[|s| - |r|..]
    ensures r == [] || r[0] != c
    ensures forall k :: 0 <= k < |s| - |r| ==> s[k] == c
  {
    if s != [] && s[0] == c then LStripChar(s[1..], c) else s
  }

  /** `s[:n]` for `n >= 0`. */
  function Take(s: string, n: nat): (r: string)
  {
    if n <= |s| then s[..n] else s
  }

  /** `s[-n:]` for `n > 0`. */
  function Last(s: string, n: nat): (r: string)
  {
    if n <= |s| then s[|s| - n..] else s
  }

  function Digit(d: nat): (c: char)
    requires d < 10
    ensures '0' <= c <= '9'
    ensures c as int - '0' as int == d
  {
    ('0' as int + d) as char
  }

  /** `str(n)` for a natural number: its decimal digits, no leading zero. */
  function NatToString(n: nat): (s: string)
    ensures |s| >= 1
    ensures forall k :: 0 <= k < |s| ==> '0' <= s[k] <= '9'
    ensures |s| > 1 ==> s[0] != '0'
  {
    if n < 10 then [Digit(n)] else NatToString(n / 10) + [Digit(n % 10)]
  }

  /** `str(n)` for an integer: a minus sign before the digits of a negative number. */
  function IntToString(n: int): (s: string)
    ensures |s| >= 1
    ensures forall k :: 0 <= k < |s| ==> s[k] == '-' || '0' <= s[k] <= '9'
  {
    if n < 0 then "-" + NatToString(-n) else NatToString(n)
  }

  /** The value of a string of decimal digits (the reading of `int(s)`). */
  function DigitsValue(s: string): (n: nat)
    requires forall k :: 0 <= k < |s| ==> '0' <= s[k] <= '9'
  {
    if s == [] then 0
    else 10 * DigitsValue(s[..|s| - 1]) + (s[|s| - 1] as int - '0' as int)
  }

  /** Reading back the decimal digits of a number gives the number. */
  lemma {:induction false} NatToStringRoundTrip(n: nat)
    ensures DigitsValue(NatToString(n)) == n
  {
    var s := NatToString(n);
    if n >= 10 {
      NatToStringRoundTrip(n / 10);
      assert s[..|s| - 1] == NatToString(n / 10);
      assert s[|s| - 1] == Digit(n % 10);
    } else {
      assert s == [Digit(n)];
    }
  }

  /** The text `prefix` before a formatting result that did not raise. */
  function Prepend(prefix: string, r: Result<string>): Result<string> {
    match r
    case Ok(s) => Ok(prefix + s)
    case Raised(e) => Raised(e)
  }

  /**
   * `template % tuple(args)` for string arguments and the conversions `%s`
   * and `%%`: each `%s` takes the next argument verbatim; an argument left
   * over, a missing one or any other conversion raises.
   */
  function Format(template: string, args: seq<string>): Result<string>
    decreases |template|
  {
    if template == [] then
      if args == [] then Ok([]) else Raised(FormatError)
    else if template[0] != '%' then
      Prepend([template[0]], Format(template[1..], args))
    else if |template| >= 2 && template[1] == '%' then
      Prepend("%", Format(template[2..], args))
    else if |template| >= 2 && template[1] == 's' then
      if args == [] then Raised(FormatError)
      else Prepend(args[0], Format(template[2..], args[1..]))
    else Raised(FormatError)
  }

  /** Text without a `%` is copied as it stands. */
  lemma {:induction false} FormatPlain(text: string, rest: string, args: seq<string>)
    requires '%' !in text
    ensures Format(text + rest, args) == Prepend(text, Format(rest, args))
    decreases |text|
  {
    if text != [] {
      assert (text + rest)[0] == text[0] && (text + rest)[1..] == text[1..] + rest;
      assert text[0] in text;
      FormatPlain(text[1..], rest, args);
      match Format(rest, args)
      case Ok(s) =>
        assert [text[0]] + (text[1..] + s) == text + s;
      case Raised(_) =>
    } else {
      assert text + rest == rest;
      match Format(rest, args)
      case Ok(s) => assert text + s == s;
      case Raised(_) =>
    }
  }

  /** A `%s` takes the next argument, and raises when there is none. */
  lemma FormatHole(rest: string, args: seq<string>)
    ensures Format("%s" + rest, args)
      == if args == [] then Raised(FormatError) else Prepend(args[0], Format(rest, args[1..]))
  {
    assert ("%s" + rest)[2..] == rest;
  }

  /** A template: the pieces joined by `%s` holes. */
  function Holes(pieces: seq<string>): string
    requires |pieces| >= 1
  {
    if |pieces| == 1 then pieces[0] else pieces[0] + "%s" + Holes(pieces[1..])
  }

  /** The pieces with the arguments in between: the template filled in. */
  function Interleave(pieces: seq<string>, args: seq<string>): string
    requires |pieces| >= 1 && |args| == |pieces| - 1
  {
    if |pieces| == 1 then pieces[0] else pieces[0] + args[0] + Interleave(pieces[1..], args[1..])
  }

  /**
   * A template whose pieces hold no `%` formats as many arguments as it has
   * holes, into the pieces with the arguments in between; any other number
   * of arguments raises.
   */
  lemma {:induction false} FormatHoles(pieces: seq<string>, args: seq<string>)
    requires |pieces| >= 1
    requires forall k :: 0 <= k < |pieces| ==> '%' !in pieces[k]
    ensures Format(Holes(pieces), args)
      == if |args| == |pieces| - 1 then Ok(Interleave(pieces, args)) else Raised(FormatError)
    decreases |pieces|
  {
    var p := pieces[0];
    if |pieces| == 1 {
      FormatPlain(p, [], args);
      assert p + [] == p;
    } else {
      var rest := Holes(pieces[1..]);
      assert Holes(pieces) == p + ("%s" + rest);
      FormatPlain(p, "%s" + rest, args);
      FormatHole(rest, args);
      if args != [] {
        FormatHoles(pieces[1..], args[1..]);
        if |args| == |pieces| - 1 {
          assert p + (args[0] + Interleave(pieces[1..], args[1..])) == Interleave(pieces, args);
        }
      }
    }
  }
}
