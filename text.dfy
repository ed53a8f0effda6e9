/**
 * Character classes and string helpers shared by the JavaScript and the PHP
 * code: trimming, ASCII lower-casing, removal of a character class and
 * substring search.
 */
module Text {

  /** Characters matched by JavaScript's `\s` and stripped by `String.prototype.trim`. */
  predicate IsJsWhitespace(c: char) {
    c == ' ' || c == '\t' || c == '\n' || c == '\U{0B}' || c == '\U{0C}' || c == '\r'
    || c == '\U{A0}' || c == '\U{1680}' || ('\U{2000}' <= c <= '\U{200A}')
    || c == '\U{2028}' || c == '\U{2029}' || c == '\U{202F}' || c == '\U{205F}'
    || c == '\U{3000}' || c == '\U{FEFF}'
  }

  /** Characters stripped by PHP's `trim` with its default character list. */
  predicate IsPhpTrimChar(c: char) {
    c == ' ' || c == '\t' || c == '\n' || c == '\r' || c == '\0' || c == '\U{0B}'
  }

  /** Characters matched by `\s` in a PCRE pattern without the `u` flag. */
  predicate IsPcreSpace(c: char) {
    c == ' ' || c == '\t' || c == '\n' || c == '\U{0B}' || c == '\U{0C}' || c == '\r'
  }

  predicate IsDigit(c: char) {
    '0' <= c <= '9'
  }

  function LowerChar(c: char): char {
    if 'A' <= c <= 'Z' then (c as int + 32) as char else c
  }

  /** Lower-casing of the ASCII letters; every other character is kept. */
  function Lower(s: string): (r: string)
    ensures |r| == |s|
  {
    seq(|s|, i requires 0 <= i < |s| => LowerChar(s[i]))
  }

  /** Lower-casing twice is lower-casing once. */
  lemma LowerIdempotent(s: string)
    ensures Lower(Lower(s)) == Lower(s)
  {
  }

  /** Number of leading characters of `s` that satisfy `p`. */
  function CountPrefix(s: string, p: char -> bool): (n: nat)
    ensures n <= |s|
    ensures forall i :: 0 <= i < n ==> p(s[i])
    ensures n < |s| ==> !p(s[n])
  {
    if s == [] || !p(s[0]) then 0 else 1 + CountPrefix(s[1..], p)
  }

  /** Number of trailing characters of `s` that satisfy `p`. */
  function CountSuffix(s: string, p: char -> bool): (n: nat)
    ensures n <= |s|
    ensures forall i :: |s| - n <= i < |s| ==> p(s[i])
    ensures n < |s| ==> !p(s[|s| - n - 1])
  {
    if s == [] || !p(s[|s| - 1]) then 0 else 1 + CountSuffix(s[..|s| - 1], p)
  }

  function TrimStart(s: string, ws: char -> bool): string {
    s[CountPrefix(s, ws)..]
  }

  /**
   * Removes the characters of `ws` at both ends. The result is the middle
   * part of `s` between two runs of `ws` characters, and it neither starts
   * nor ends with one.
   */
  function Trim(s: string, ws: char -> bool): (r: string)
    ensures exists i, j ::
      && 0 <= i <= j <= |s| && r == s[i..j]
      && (forall k :: 0 <= k < i ==> ws(s[k]))
      && (forall k :: j <= k < |s| ==> ws(s[k]))
    ensures r != [] ==> !ws(r[0]) && !ws(r[|r| - 1])
  {
    var t := TrimStart(s, ws);
    var i := |s| - |t|;
    var n := CountSuffix(t, ws);
    var j := i + |t| - n;
    assert forall k :: j <= k < |s| ==> s[k] == t[k - i];
    assert t[..|t| - n] == s[i..j];
    t[..|t| - n]
  }

  /** A string that neither starts nor ends with a `ws` character is its own trim. */
  lemma TrimOfTrimmed(s: string, ws: char -> bool)
    requires s != [] ==> !ws(s[0]) && !ws(s[|s| - 1])
    ensures Trim(s, ws) == s
  {
    var i, j :| 0 <= i <= j <= |s| && Trim(s, ws) == s[i..j]
      && (forall k :: 0 <= k < i ==> ws(s[k]))
      && (forall k :: j <= k < |s| ==> ws(s[k]));
    if i > 0 {
      assert false;
    }
    if j < |s| {
      assert false;
    }
  }

  function JsTrim(s: string): string {
    Trim(s, IsJsWhitespace)
  }

  function PhpTrim(s: string): string {
    Trim(s, IsPhpTrimChar)
  }

  /** `s` with every character of the class `drop` removed, the others kept in order. */
  function RemoveAll(s: string, drop: char -> bool): (r: string)
    ensures |r| <= |s|
    ensures forall c :: c in r <==> c in s && !drop(c)
  {
    if s == [] then []
    else if drop(s[0]) then RemoveAll(s[1..], drop)
    else [s[0]] + RemoveAll(s[1..], drop)
  }

  /** One step of the removal: the first character is dropped or kept. */
  lemma RemoveAllCons(c: char, rest: string, drop: char -> bool)
    ensures RemoveAll([c] + rest, drop) == (if drop(c) then [] else [c]) + RemoveAll(rest, drop)
  {
    assert ([c] + rest)[1..] == rest;
  }

  lemma {:induction false} RemoveAllAppend(a: string, b: string, drop: char -> bool)
    ensures RemoveAll(a + b, drop) == RemoveAll(a, drop) + RemoveAll(b, drop)
  {
    if a != [] {
      assert (a + b)[0] == a[0];
      assert (a + b)[1..] == a[1..] + b;
      RemoveAllAppend(a[1..], b, drop);
      if !drop(a[0]) {
        calc {
          RemoveAll(a + b, drop);
          [a[0]] + RemoveAll(a[1..] + b, drop);
          [a[0]] + (RemoveAll(a[1..], drop) + RemoveAll(b, drop));
          ([a[0]] + RemoveAll(a[1..], drop)) + RemoveAll(b, drop);
        }
      }
    } else {
      assert a + b == b;
    }
  }

  lemma {:induction false} RemoveAllOfDropped(s: string, drop: char -> bool)
    requires forall k :: 0 <= k < |s| ==> drop(s[k])
    ensures RemoveAll(s, drop) == []
  {
    if s != [] {
      RemoveAllOfDropped(s[1..], drop);
    }
  }

  lemma {:induction false} RemoveAllOfKept(s: string, drop: char -> bool)
    requires forall k :: 0 <= k < |s| ==> !drop(s[k])
    ensures RemoveAll(s, drop) == s
  {
    if s != [] {
      RemoveAllOfKept(s[1..], drop);
    }
  }

  /**
   * Padding, a sign and a separator made of removed characters vanish
   * around two runs of kept characters, which are joined.
   */
  lemma RemoveAllOfGrouped(pad: string, sign: string, lead: string, sep: string, tail: string, drop: char -> bool)
    requires forall k :: 0 <= k < |pad| ==> drop(pad[k])
    requires forall k :: 0 <= k < |sign| ==> drop(sign[k])
    requires forall k :: 0 <= k < |sep| ==> drop(sep[k])
    requires forall k :: 0 <= k < |lead| ==> !drop(lead[k])
    requires forall k :: 0 <= k < |tail| ==> !drop(tail[k])
    ensures RemoveAll(pad + sign + lead + sep + tail + pad, drop) == lead + tail
  {
    var x1 := pad + sign;
    assert RemoveAll(x1, drop) == [] by {
      RemoveAllAppend(pad, sign, drop);
      RemoveAllOfDropped(pad, drop);
      RemoveAllOfDropped(sign, drop);
    }
    var x2 := x1 + lead;
    assert RemoveAll(x2, drop) == lead by {
      RemoveAllAppend(x1, lead, drop);
      RemoveAllOfKept(lead, drop);
    }
    var x3 := x2 + sep;
    assert RemoveAll(x3, drop) == lead by {
      RemoveAllAppend(x2, sep, drop);
      RemoveAllOfDropped(sep, drop);
    }
    var x4 := x3 + tail;
    assert RemoveAll(x4, drop) == lead + tail by {
      RemoveAllAppend(x3, tail, drop);
      RemoveAllOfKept(tail, drop);
    }
    assert RemoveAll(x4 + pad, drop) == lead + tail by {
      RemoveAllAppend(x4, pad, drop);
      RemoveAllOfDropped(pad, drop);
    }
  }

  /** Removing a class that covers the trimmed characters makes the trim redundant. */
  lemma RemoveAllAfterTrim(s: string, ws: char -> bool, drop: char -> bool)
    requires forall c :: ws(c) ==> drop(c)
    ensures RemoveAll(Trim(s, ws), drop) == RemoveAll(s, drop)
  {
    var i, j :| 0 <= i <= j <= |s| && Trim(s, ws) == s[i..j]
      && (forall k :: 0 <= k < i ==> ws(s[k])) && (forall k :: j <= k < |s| ==> ws(s[k]));
    assert s == s[..i] + s[i..j] + s[j..];
    RemoveAllAroundDropped(s[..i], s[i..j], s[j..], drop);
  }

  lemma RemoveAllAroundDropped(head: string, middle: string, tail: string, drop: char -> bool)
    requires forall k :: 0 <= k < |head| ==> drop(head[k])
    requires forall k :: 0 <= k < |tail| ==> drop(tail[k])
    ensures RemoveAll(head + middle + tail, drop) == RemoveAll(middle, drop)
  {
    RemoveAllOfDropped(head, drop);
    RemoveAllOfDropped(tail, drop);
    RemoveAllAppend(head + middle, tail, drop);
    RemoveAllAppend(head, middle, drop);
  }

  /** JavaScript's `String.prototype.includes` and the substring test it performs. */
  predicate Contains(haystack: string, needle: string) {
    exists i | 0 <= i <= |haystack| - |needle| :: OccursAt(haystack, needle, i)
  }

  predicate OccursAt(haystack: string, needle: string, i: int) {
    0 <= i && i + |needle| <= |haystack| && haystack[i..i + |needle|] == needle
  }
}
