/**
 * The Ruby String and Integer operations the gateway relies on:
 * String#split with a one-character separator, Array#join,
 * Integer#to_s and String#inspect.
 */
module RubyStrings {
  import opened Wrappers

  // ---------------------------------------------------------------------
  // String#split(sep) and Array#join(sep)
  // ---------------------------------------------------------------------

  /** Every piece of `s` between occurrences of `sep`, empty ones included. */
  function Pieces(s: string, sep: char): (r: seq<string>)
    ensures |r| >= 1
    ensures forall i :: 0 <= i < |r| ==> sep !in r[i]
    decreases |s|
  {
    if s == [] then [""]
    else
      var rest := Pieces(s[1..], sep);
      if s[0] == sep then [""] + rest
      else [[s[0]] + rest[0]] + rest[1..]
  }

  /** Drops the empty strings at the end of `r`, as String#split does. */
  function DropTrailingEmpty(r: seq<string>): (d: seq<string>)
    ensures |d| <= |r| && d == r[..|d|]
    ensures d == [] || d[|d| - 1] != ""
    ensures forall i :: |d| <= i < |r| ==> r[i] == ""
  {
    if r != [] && r[|r| - 1] == "" then DropTrailingEmpty(r[..|r| - 1]) else r
  }

  /**
   * String#split with a one-character string separator: the pieces between
   * separators, leading empty pieces kept, trailing empty pieces removed
   * (so the empty string splits into no pieces at all). No piece holds the
   * separator, the last piece is not empty, and joining the pieces with the
   * separator gives `s` without the separators it ends with.
   */
  function Split(s: string, sep: char): (r: seq<string>)
    ensures forall i :: 0 <= i < |r| ==> sep !in r[i]
    ensures r == [] || r[|r| - 1] != ""
    ensures var j := Join(r, [sep]);
      |j| <= |s| && s[..|j|] == j && forall k :: |j| <= k < |s| ==> s[k] == sep
  {
    JoinPieces(s, sep);
    JoinDropped(Pieces(s, sep), sep);
    DropTrailingEmpty(Pieces(s, sep))
  }

  /** Array#join(sep). */
  function Join(parts: seq<string>, sep: string): string
  {
    if parts == [] then ""
    else if |parts| == 1 then parts[0]
    else parts[0] + sep + Join(parts[1..], sep)
  }

  /** Joining the pieces with the separator gives back the string. */
  lemma {:induction false} JoinPieces(s: string, sep: char)
    ensures Join(Pieces(s, sep), [sep]) == s
    decreases |s|
  {
    if s != [] {
      var rest := Pieces(s[1..], sep);
      JoinPieces(s[1..], sep);
      if s[0] == sep {
        assert Pieces(s, sep) == [""] + rest;
        assert Join([""] + rest, [sep]) == "" + [sep] + Join(rest, [sep]);
        assert s == [s[0]] + s[1..];
      } else {
        var p := Pieces(s, sep);
        assert p == [[s[0]] + rest[0]] + rest[1..];
        if |rest| == 1 {
          assert Join(p, [sep]) == [s[0]] + rest[0];
          assert s == [s[0]] + s[1..];
        } else {
          assert p[1..] == rest[1..];
          assert Join(p, [sep]) == [s[0]] + rest[0] + [sep] + Join(rest[1..], [sep]);
          assert Join(rest, [sep]) == rest[0] + [sep] + Join(rest[1..], [sep]);
          assert s == [s[0]] + s[1..];
        }
      }
    }
  }

  /** A string without the separator is a single piece. */
  lemma {:induction false} PiecesOfPlain(a: string, sep: char)
    requires sep !in a
    ensures Pieces(a, sep) == [a]
    decreases |a|
  {
    if a != [] {
      PiecesOfPlain(a[1..], sep);
      assert a == [a[0]] + a[1..];
    }
  }

  /** Splitting at the first separator: the text before it is the first piece. */
  lemma {:induction false} PiecesOfCons(a: string, sep: char, b: string)
    requires sep !in a
    ensures Pieces(a + [sep] + b, sep) == [a] + Pieces(b, sep)
    decreases |a|
  {
    if a == [] {
      assert a + [sep] + b == [sep] + b;
      assert ([sep] + b)[1..] == b;
    } else {
      PiecesOfCons(a[1..], sep, b);
      assert (a + [sep] + b)[1..] == a[1..] + [sep] + b;
      assert a == [a[0]] + a[1..];
    }
  }

  /** Splitting a join gives back the parts, when no part holds the separator. */
  lemma {:induction false} PiecesJoin(parts: seq<string>, sep: char)
    requires |parts| >= 1
    requires forall i :: 0 <= i < |parts| ==> sep !in parts[i]
    ensures Pieces(Join(parts, [sep]), sep) == parts
    decreases |parts|
  {
    if |parts| == 1 {
      PiecesOfPlain(parts[0], sep);
    } else {
      PiecesJoin(parts[1..], sep);
      PiecesOfCons(parts[0], sep, Join(parts[1..], [sep]));
      assert parts == [parts[0]] + parts[1..];
    }
  }

  /** Joining one more part appends the separator and that part. */
  lemma {:induction false} JoinSnoc(parts: seq<string>, x: string, sep: string)
    requires parts != []
    ensures Join(parts + [x], sep) == Join(parts, sep) + sep + x
    decreases |parts|
  {
    if |parts| > 1 {
      JoinSnoc(parts[1..], x, sep);
      assert (parts + [x])[1..] == parts[1..] + [x];
    }
  }

  /** Dropping trailing empty parts removes only separators from the end of the join. */
  lemma {:induction false} JoinDropped(parts: seq<string>, sep: char)
    ensures var j, d := Join(parts, [sep]), Join(DropTrailingEmpty(parts), [sep]);
      |d| <= |j| && j[..|d|] == d && forall k :: |d| <= k < |j| ==> j[k] == sep
    decreases |parts|
  {
    if parts != [] && parts[|parts| - 1] == "" {
      var init := parts[..|parts| - 1];
      JoinDropped(init, sep);
      assert parts == init + [""];
      if init != [] {
        JoinSnoc(init, "", [sep]);
      }
    }
  }

  /** Trailing empties are dropped, but nothing up to the last non-empty piece. */
  lemma {:induction false} DropKeepsNonEmpty(r: seq<string>, j: nat)
    requires j < |r| && r[j] != ""
    ensures |DropTrailingEmpty(r)| > j
  {
  }

  /** A join whose first part is `a`, `c`, `b` starts with `a` and `c`. */
  lemma JoinLead(parts: seq<string>, sep: string, a: string, c: char, b: string)
    requires parts != [] && parts[0] == a + [c] + b
    ensures Join(parts, sep) == a + [c] + (if |parts| == 1 then b else b + sep + Join(parts[1..], sep))
  {
    if |parts| > 1 {
      assert a + [c] + b + sep + Join(parts[1..], sep) == a + [c] + (b + sep + Join(parts[1..], sep));
    }
  }

  /** A non-empty text before the first separator is the first piece of the split. */
  lemma SplitFirst(a: string, sep: char, b: string)
    requires sep !in a && a != ""
    ensures Split(a + [sep] + b, sep) != []
    ensures Split(a + [sep] + b, sep)[0] == a
  {
    PiecesOfCons(a, sep, b);
    DropKeepsNonEmpty(Pieces(a + [sep] + b, sep), 0);
  }

  /** Two non-empty separator-free texts around one separator split into exactly those two. */
  lemma SplitPair(a: string, sep: char, b: string)
    requires sep !in a && sep !in b && b != ""
    ensures Split(a + [sep] + b, sep) == [a, b]
  {
    PiecesOfCons(a, sep, b);
    PiecesOfPlain(b, sep);
    assert Pieces(a + [sep] + b, sep) == [a, b];
  }

  /** Three separator-free texts, the last non-empty, around two separators split into those three. */
  lemma SplitThree(a: string, sep: char, b: string, c: string)
    requires sep !in a && sep !in b && sep !in c && c != ""
    ensures Split(a + [sep] + b + [sep] + c, sep) == [a, b, c]
  {
    assert a + [sep] + b + [sep] + c == a + [sep] + (b + [sep] + c);
    PiecesOfCons(a, sep, b + [sep] + c);
    PiecesOfCons(b, sep, c);
    PiecesOfPlain(c, sep);
    assert Pieces(a + [sep] + b + [sep] + c, sep) == [a, b, c];
  }

  /** A trailing separator leaves a single piece: the empty piece after it is dropped. */
  lemma SplitTrailing(a: string, sep: char)
    requires sep !in a && a != ""
    ensures Split(a + [sep], sep) == [a]
  {
    PiecesOfCons(a, sep, "");
    assert a + [sep] + "" == a + [sep];
    assert Pieces(a + [sep], sep) == [a, ""];
    assert DropTrailingEmpty([a, ""]) == DropTrailingEmpty([a]);
  }

  // ---------------------------------------------------------------------
  // Integer#to_s
  // ---------------------------------------------------------------------

  function DigitChar(d: nat): (c: char)
    requires d < 10
    ensures '0' <= c <= '9'
  {
    "0123456789"[d]
  }

  function NatToS(n: nat): (r: string)
    ensures |r| >= 1
    ensures forall i :: 0 <= i < |r| ==> '0' <= r[i] <= '9'
    decreases n
  {
    if n < 10 then [DigitChar(n)] else NatToS(n / 10) + [DigitChar(n % 10)]
  }

  /** Integer#to_s: decimal digits, with a leading '-' when negative. */
  function IntToS(i: int): (r: string)
    ensures |r| >= 1
    ensures forall k :: 0 <= k < |r| ==> r[k] == '-' || '0' <= r[k] <= '9'
  {
    if i < 0 then "-" + NatToS(-i) else NatToS(i)
  }

  function DigitValue(c: char): (d: nat)
    requires '0' <= c <= '9'
    ensures d < 10
  {
    (c as int) - ('0' as int)
  }

  /** The value of a string of decimal digits. */
  function DecimalValue(r: string): nat
    requires forall k :: 0 <= k < |r| ==> '0' <= r[k] <= '9'
    decreases |r|
  {
    if r == [] then 0 else 10 * DecimalValue(r[..|r| - 1]) + DigitValue(r[|r| - 1])
  }

  /** The digits written by NatToS read back as the same number. */
  lemma {:induction false} NatToSRoundTrip(n: nat)
    ensures DecimalValue(NatToS(n)) == n
    decreases n
  {
    if n >= 10 {
      NatToSRoundTrip(n / 10);
      var r := NatToS(n);
      assert r[..|r| - 1] == NatToS(n / 10);
    }
  }

  // ---------------------------------------------------------------------
  // String#inspect
  // ---------------------------------------------------------------------

  function HexDigit(d: nat): (c: char)
    requires d < 16
  {
    "0123456789ABCDEF"[d]
  }

  function HexValue(c: char): Option<nat>
  {
    if '0' <= c <= '9' then Some((c as int) - ('0' as int))
    else if 'A' <= c <= 'F' then Some((c as int) - ('A' as int) + 10)
    else if 'a' <= c <= 'f' then Some((c as int) - ('a' as int) + 10)
    else None
  }

  /**
   * The characters String#inspect of a UTF-8 string does not print as
   * themselves: the C0 controls, DEL, the C1 controls and the line and
   * paragraph separators.
   */
  predicate NonPrintable(c: char)
  {
    c < ' ' || ('\U{7F}' <= c <= '\U{9F}') || c == '\U{2028}' || c == '\U{2029}'
  }

  /** A non-printable character without a letter escape, which Ruby writes as a `\u` escape. */
  predicate EscapedAsUnicode(c: char)
  {
    NonPrintable(c) && c !in "\n\r\t\U{0C}\U{0B}\U{08}\U{07}\U{1B}"
  }

  /** The four upper-case hexadecimal digits of a code point below 0x10000. */
  function Hex4(n: nat): (h: string)
    requires n < 0x1_0000
    ensures |h| == 4 && forall i :: 0 <= i < 4 ==> h[i] in "0123456789ABCDEF"
  {
    var q1 := n / 16;
    var q2 := q1 / 16;
    [HexDigit(q2 / 16), HexDigit(q2 % 16), HexDigit(q1 % 16), HexDigit(n % 16)]
  }

  /**
   * How String#inspect writes one character of a UTF-8 string, given the
   * character after it: quote and backslash are escaped, `#` is escaped when
   * it would start an interpolation (`#{`, `#$`, `#@`), the eight named
   * control characters get their letter escape and the other non-printable
   * characters a four-digit `\u` escape.
   */
  function EscapeChar(c: char, next: Option<char>): string
  {
    if c == '"' || c == '\\' then ['\\', c]
    else if c == '#' && next.Some? && next.value in "{$@" then "\\#"
    else if c == '\n' then "\\n"
    else if c == '\r' then "\\r"
    else if c == '\t' then "\\t"
    else if c == '\U{0C}' then "\\f"
    else if c == '\U{0B}' then "\\v"
    else if c == '\U{08}' then "\\b"
    else if c == '\U{07}' then "\\a"
    else if c == '\U{1B}' then "\\e"
    else if EscapedAsUnicode(c) then "\\u" + Hex4(c as int)
    else [c]
  }

  function EscapeBody(s: string): string
    decreases |s|
  {
    if s == [] then ""
    else EscapeChar(s[0], if |s| > 1 then Some(s[1]) else None) + EscapeBody(s[1..])
  }

  /**
   * String#inspect: the escaped text between double quotes, in which every
   * character is printable.
   */
  function Inspect(s: string): (r: string)
    ensures |r| >= 2 && r[0] == '"' && r[|r| - 1] == '"'
    ensures forall i :: 0 <= i < |r| ==> !NonPrintable(r[i])
  {
    EscapeBodyPrintable(s);
    "\"" + EscapeBody(s) + "\""
  }

  /** The character a one-letter escape stands for. */
  function LetterEscape(e: char): Option<char>
  {
    if e == '"' || e == '\\' || e == '#' then Some(e)
    else if e == 'n' then Some('\n')
    else if e == 'r' then Some('\r')
    else if e == 't' then Some('\t')
    else if e == 'f' then Some('\U{0C}')
    else if e == 'v' then Some('\U{0B}')
    else if e == 'b' then Some('\U{08}')
    else if e == 'a' then Some('\U{07}')
    else if e == 'e' then Some('\U{1B}')
    else None
  }

  /** The character a four-hex-digit `\u` escape stands for. */
  function UnicodeEscape(h: string): Option<char>
    requires |h| == 4
  {
    var d0, d1, d2, d3 := HexValue(h[0]), HexValue(h[1]), HexValue(h[2]), HexValue(h[3]);
    if d0.None? || d1.None? || d2.None? || d3.None? then None
    else
      var n := ((d0.value * 16 + d1.value) * 16 + d2.value) * 16 + d3.value;
      if n < 0xD800 then Some(n as char) else None
  }

  /** Reads back the body of an inspected string; None on a malformed escape. */
  function UnescapeBody(t: string): Option<string>
    decreases |t|
  {
    if t == [] then Some("")
    else if t[0] != '\\' then
      match UnescapeBody(t[1..])
      case None => None
      case Some(rest) => Some([t[0]] + rest)
    else if |t| >= 6 && t[1] == 'u' then
      match UnicodeEscape(t[2..6])
      case None => None
      case Some(c) =>
        match UnescapeBody(t[6..])
        case None => None
        case Some(rest) => Some([c] + rest)
    else if |t| >= 2 && LetterEscape(t[1]).Some? then
      match UnescapeBody(t[2..])
      case None => None
      case Some(rest) => Some([LetterEscape(t[1]).value] + rest)
    else None
  }

  /** Reads back a string written by String#inspect. */
  function Uninspect(r: string): Option<string>
  {
    if |r| >= 2 && r[0] == '"' && r[|r| - 1] == '"' then UnescapeBody(r[1..|r| - 1]) else None
  }

  /** Every escape is one of three kinds: a `\u` escape, a letter escape, or the character itself. */
  lemma EscapeKinds(c: char, next: Option<char>)
    ensures var e := EscapeChar(c, next);
      if EscapedAsUnicode(c) then e == "\\u" + Hex4(c as int)
      else if |e| == 2 then e[0] == '\\' && e[1] != 'u' && LetterEscape(e[1]) == Some(c)
      else e == [c] && c != '\\'
  {
  }

  /** A hexadecimal digit reads back as its value. */
  lemma HexDigitValue(d: nat)
    requires d < 16
    ensures HexValue(HexDigit(d)) == Some(d)
  {
  }

  /** A `\u` escape of a code point below the surrogates reads back as that character. */
  lemma UnicodeEscapeHex4(c: char)
    requires (c as int) < 0xD800
    ensures UnicodeEscape(Hex4(c as int)) == Some(c)
  {
    var n := c as int;
    var q1 := n / 16;
    var q2 := q1 / 16;
    HexDigitValue(q2 / 16);
    HexDigitValue(q2 % 16);
    HexDigitValue(q1 % 16);
    HexDigitValue(n % 16);
    assert q2 / 16 * 16 + q2 % 16 == q2;
    assert q2 * 16 + q1 % 16 == q1;
    assert q1 * 16 + n % 16 == n;
  }

  lemma UnescapeUnicode(c: char, t: string, rest: string)
    requires EscapedAsUnicode(c) && UnescapeBody(t) == Some(rest)
    ensures UnescapeBody("\\u" + Hex4(c as int) + t) == Some([c] + rest)
  {
    var u := "\\u" + Hex4(c as int) + t;
    assert u[0] == '\\' && u[1] == 'u' && u[6..] == t;
    assert u[2..6] == Hex4(c as int);
    UnicodeEscapeHex4(c);
  }

  lemma UnescapeLetter(e: char, t: string, rest: string)
    requires e != 'u' && LetterEscape(e).Some? && UnescapeBody(t) == Some(rest)
    ensures UnescapeBody(['\\', e] + t) == Some([LetterEscape(e).value] + rest)
  {
    var u := ['\\', e] + t;
    assert u[0] == '\\' && u[1] == e && u[2..] == t;
  }

  lemma UnescapePlain(c: char, t: string, rest: string)
    requires c != '\\' && UnescapeBody(t) == Some(rest)
    ensures UnescapeBody([c] + t) == Some([c] + rest)
  {
    var u := [c] + t;
    assert u[0] == c && u[1..] == t;
  }

  lemma UnescapeChar(c: char, next: Option<char>, t: string, rest: string)
    requires UnescapeBody(t) == Some(rest)
    ensures UnescapeBody(EscapeChar(c, next) + t) == Some([c] + rest)
  {
    var e := EscapeChar(c, next);
    EscapeKinds(c, next);
    if EscapedAsUnicode(c) {
      UnescapeUnicode(c, t, rest);
    } else if |e| == 2 {
      assert e == ['\\', e[1]];
      UnescapeLetter(e[1], t, rest);
    } else {
      UnescapePlain(c, t, rest);
    }
  }

  lemma {:induction false} UnescapeEscapeBody(s: string)
    ensures UnescapeBody(EscapeBody(s)) == Some(s)
    decreases |s|
  {
    if s != [] {
      UnescapeEscapeBody(s[1..]);
      UnescapeChar(s[0], if |s| > 1 then Some(s[1]) else None, EscapeBody(s[1..]), s[1..]);
      assert s == [s[0]] + s[1..];
    }
  }

  /** Inspect loses nothing: the original string can be read back from it. */
  lemma InspectRoundTrip(s: string)
    ensures Uninspect(Inspect(s)) == Some(s)
  {
    var r := Inspect(s);
    assert r[1..|r| - 1] == EscapeBody(s);
    UnescapeEscapeBody(s);
  }

  /** The next-line control U+0085 is written as a `\u` escape. */
  lemma InspectNextLine()
    ensures Inspect("\U{85}") == "\"\\u0085\""
  {
    assert EscapeBody("\U{85}") == EscapeChar('\U{85}', None) + EscapeBody([]);
    NextLineEscape();
  }

  lemma NextLineEscape()
    ensures EscapeChar('\U{85}', None) == "\\u0085"
  {
    assert EscapedAsUnicode('\U{85}');
    NextLineHex();
  }

  lemma NextLineHex()
    ensures Hex4(0x85) == "0085"
  {
    assert 0x85 / 16 == 8 && 0x85 % 16 == 5;
  }

  /** Printable ASCII text that needs no escaping is inspected as itself between quotes. */
  lemma {:induction false} InspectPlain(s: string)
    requires forall i :: 0 <= i < |s| ==> ' ' <= s[i] < '\U{7F}' && s[i] !in "\"\\#"
    ensures Inspect(s) == "\"" + s + "\""
  {
    PlainBody(s);
  }

  lemma {:induction false} PlainBody(s: string)
    requires forall i :: 0 <= i < |s| ==> ' ' <= s[i] < '\U{7F}' && s[i] !in "\"\\#"
    ensures EscapeBody(s) == s
    decreases |s|
  {
    if s != [] {
      PlainBody(s[1..]);
      assert s == [s[0]] + s[1..];
    }
  }

  /** Every character an escape writes is printable. */
  lemma EscapeCharPrintable(c: char, next: Option<char>)
    ensures forall i :: 0 <= i < |EscapeChar(c, next)| ==> !NonPrintable(EscapeChar(c, next)[i])
  {
    if EscapedAsUnicode(c) {
      var h := Hex4(c as int);
      assert EscapeChar(c, next) == "\\u" + h;
      assert forall i :: 0 <= i < |h| ==> h[i] in "0123456789ABCDEF";
    }
  }

  lemma {:induction false} EscapeBodyPrintable(s: string)
    ensures forall i :: 0 <= i < |EscapeBody(s)| ==> !NonPrintable(EscapeBody(s)[i])
    decreases |s|
  {
    if s != [] {
      EscapeCharPrintable(s[0], if |s| > 1 then Some(s[1]) else None);
      EscapeBodyPrintable(s[1..]);
    }
  }
}
