/**
 * String helpers shared by the templates: JavaScript's `\s` class, the
 * whitespace stripping applied to phone numbers, `startsWith`, the `||`
 * placeholder idiom and the date-range string.
 */
module Text {

  /** The characters matched by `\s` in a JavaScript regular expression:
      ECMAScript's WhiteSpace (TAB, VT, FF, SP, NBSP, ZWNBSP and the Unicode
      space separators) and LineTerminator (LF, CR, LS, PS) code points. */
  predicate IsWs(c: char) {
    || c == '\t' || c == '\n' || c == '\U{000B}' || c == '\U{000C}' || c == '\r'
    || c == ' ' || c == '\U{00A0}' || c == '\U{1680}'
    || ('\U{2000}' <= c <= '\U{200A}')
    || c == '\U{2028}' || c == '\U{2029}' || c == '\U{202F}' || c == '\U{205F}'
    || c == '\U{3000}' || c == '\U{FEFF}'
  }

  predicate NoWs(s: string) {
    forall i :: 0 <= i < |s| ==> !IsWs(s[i])
  }

  /** `s.replace(/\s+/g, "")`: deleting every maximal run of whitespace is
      the same as deleting every whitespace character. */
  function StripWs(s: string): (r: string)
    ensures NoWs(r)
    ensures |r| <= |s|
  {
    if s == [] then [] else (if IsWs(s[0]) then [] else [s[0]]) + StripWs(s[1..])
  }

  /** Exactly the non-whitespace characters survive. */
  lemma {:induction false} StripWsKeeps(s: string, c: char)
    ensures c in StripWs(s) <==> c in s && !IsWs(c)
  {
    if s != [] {
      StripWsKeeps(s[1..], c);
      assert s == [s[0]] + s[1..];
    }
  }

  /** Stripping works piecewise: the kept characters stay in their original order. */
  lemma {:induction false} StripWsAppend(a: string, b: string)
    ensures StripWs(a + b) == StripWs(a) + StripWs(b)
  {
    if a == [] {
      assert a + b == b;
    } else {
      assert (a + b)[0] == a[0];
      assert (a + b)[1..] == a[1..] + b;
      StripWsAppend(a[1..], b);
    }
  }

  /** A one-character string is deleted exactly when it is whitespace. */
  lemma StripWsChar(c: char)
    ensures StripWs([c]) == if IsWs(c) then [] else [c]
  {
    assert [c][1..] == [];
  }

  /** Stripping leaves a string unchanged exactly when it has no whitespace. */
  lemma {:induction false} StripWsFixpoint(s: string)
    ensures StripWs(s) == s <==> NoWs(s)
  {
    if s != [] && NoWs(s) {
      assert NoWs(s[1..]) by {
        forall i | 0 <= i < |s[1..]| ensures !IsWs(s[1..][i]) {
          assert s[1..][i] == s[i + 1];
        }
      }
      StripWsFixpoint(s[1..]);
    }
  }

  lemma StripWsIdempotent(s: string)
    ensures StripWs(StripWs(s)) == StripWs(s)
  {
    StripWsFixpoint(StripWs(s));
  }

  /** A word followed by one space loses just the space. */
  lemma StripWsWordSpace(w: string)
    requires NoWs(w)
    ensures StripWs(w + " ") == w
  {
    StripWsAppend(w, " ");
    StripWsFixpoint(w);
    StripWsChar(' ');
  }

  /** Four space-separated groups are joined. */
  lemma StripWsGroups(a: string, b: string, c: string, d: string)
    requires NoWs(a) && NoWs(b) && NoWs(c) && NoWs(d)
    ensures StripWs((a + " ") + (b + " ") + (c + " ") + d) == a + b + c + d
  {
    StripWsAppend((a + " ") + (b + " ") + (c + " "), d);
    StripWsAppend((a + " ") + (b + " "), c + " ");
    StripWsAppend(a + " ", b + " ");
    StripWsWordSpace(a);
    StripWsWordSpace(b);
    StripWsWordSpace(c);
    StripWsFixpoint(d);
  }

  /** A phone number written in groups loses every separating space. */
  lemma StripWsPhoneExample(phone: string)
    requires phone == "+1 555 000 1111"
    ensures StripWs(phone) == "+15550001111"
  {
    var a, b, c, d := "+1", "555", "000", "1111";
    assert phone == (a + " ") + (b + " ") + (c + " ") + d;
    assert NoWs(a) && NoWs(b) && NoWs(c) && NoWs(d);
    StripWsGroups(a, b, c, d);
    assert a + b + c + d == "+15550001111";
  }

  /** JavaScript's `s.startsWith(prefix)`. */
  predicate StartsWith(s: string, prefix: string) {
    prefix <= s
  }

  /** `s || fallback`: the empty string is the only falsy string. */
  function OrElse(s: string, fallback: string): (r: string)
    ensures s != "" ==> r == s
    ensures s == "" ==> r == fallback
    ensures fallback != "" ==> r != ""
  {
    if s != "" then s else fallback
  }

  const DateSeparator: string := " — "

  /** `{start}{end ? ` — ${end}` : ""}`: the start alone while the range is
      open, otherwise start, an em-dash separator and the end. */
  function DateRange(start: string, end: string): (r: string)
    ensures StartsWith(r, start)
    ensures r == start <==> end == ""
    ensures end != "" ==> r[|start|..] == DateSeparator + end
  {
    start + (if end != "" then DateSeparator + end else "")
  }
}
