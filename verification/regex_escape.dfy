/**
 * Escaping of literal placeholders for use as regular-expression patterns.
 * The builder hands its substitution keys to a regex-based replacer, so a
 * placeholder such as `[[appp_app_id]]` must arrive with each character that
 * is special in a JavaScript regular expression preceded by a backslash.
 */
module RegexEscape {

  /** Characters that carry meaning in a JavaScript regular expression. */
  predicate IsSpecial(c: char) {
    c in {'.', '*', '+', '?', '^', '$', '{', '}', '(', ')', '|', '[', ']', '\\'}
  }

  /** True when `s` contains no special character, so it matches itself literally. */
  predicate IsPlain(s: string) {
    forall i :: 0 <= i < |s| ==> !IsSpecial(s[i])
  }

  /** One character, backslash-escaped when special. */
  function EscapeChar(c: char): (r: string)
    ensures IsSpecial(c) ==> r == ['\\', c]
    ensures !IsSpecial(c) ==> r == [c]
  {
    if IsSpecial(c) then ['\\', c] else [c]
  }

  /** The pattern that matches exactly the literal text `s`. */
  function Escape(s: string): (r: string)
    ensures |s| <= |r| <= 2 * |s|
  {
    if s == [] then [] else EscapeChar(s[0]) + Escape(s[1..])
  }

  /** Inverse of `Escape`: drops each escaping backslash and keeps the character after it. */
  function Unescape(p: string): (r: string)
    ensures |r| <= |p|
  {
    if p == [] then []
    else if p[0] == '\\' && |p| >= 2 then [p[1]] + Unescape(p[2..])
    else [p[0]] + Unescape(p[1..])
  }

  /** Unescaping an escaped literal gives the literal back. */
  lemma {:induction false} UnescapeEscape(s: string)
    ensures Unescape(Escape(s)) == s
  {
    if s != [] {
      UnescapeEscape(s[1..]);
      var rest := Escape(s[1..]);
      assert Escape(s) == EscapeChar(s[0]) + rest;
      if IsSpecial(s[0]) {
        assert (EscapeChar(s[0]) + rest)[2..] == rest;
      } else {
        assert s[0] != '\\';
        assert (EscapeChar(s[0]) + rest)[1..] == rest;
      }
    }
  }

  /** Escaping leaves text without special characters unchanged. */
  lemma {:induction false} EscapePlain(s: string)
    requires IsPlain(s)
    ensures Escape(s) == s
  {
    if s != [] {
      assert IsPlain(s[1..]) by {
        forall i | 0 <= i < |s[1..]|
          ensures !IsSpecial(s[1..][i])
        {
          assert s[1..][i] == s[i + 1];
        }
      }
      EscapePlain(s[1..]);
    }
  }

  /** Escaping distributes over concatenation. */
  lemma {:induction false} EscapeAppend(a: string, b: string)
    ensures Escape(a + b) == Escape(a) + Escape(b)
  {
    if a == [] {
      assert a + b == b;
    } else {
      assert (a + b)[0] == a[0];
      assert (a + b)[1..] == a[1..] + b;
      EscapeAppend(a[1..], b);
    }
  }
}
