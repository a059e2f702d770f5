/** Character rules: escaping of angle brackets, name rules and the case-insensitive comparison of names. */
module Text {
  /** Rust's `str::replace` for a one-character pattern. */
  function Replace(s: string, c: char, sub: string): string {
    if s == "" then ""
    else (if s[0] == c then sub else [s[0]]) + Replace(s[1..], c, sub)
  }

  /** The two successive replacements of `sanitize_text_message`, also written out in `kill` and in the topic
      handler. */
  function Escape(s: string): string {
    Replace(Replace(s, '<', "&lt;"), '>', "&gt;")
  }

  function EscapeChar(c: char): string {
    if c == '<' then "&lt;" else if c == '>' then "&gt;" else [c]
  }

  /** Reference definition: one pass, character by character. */
  function EscapeOnce(s: string): string {
    if s == "" then "" else EscapeChar(s[0]) + EscapeOnce(s[1..])
  }

  predicate BracketFree(s: string) {
    '<' !in s && '>' !in s
  }

  function Brackets(s: string): nat {
    if s == "" then 0 else (if s[0] == '<' || s[0] == '>' then 1 else 0) + Brackets(s[1..])
  }

  lemma {:induction false} ReplaceConcat(a: string, b: string, c: char, sub: string)
    ensures Replace(a + b, c, sub) == Replace(a, c, sub) + Replace(b, c, sub)
  {
    if a == "" {
      assert a + b == b;
    } else {
      assert (a + b)[1..] == a[1..] + b;
      ReplaceConcat(a[1..], b, c, sub);
    }
  }

  lemma {:induction false} ReplaceAbsent(s: string, c: char, sub: string)
    requires c !in s
    ensures Replace(s, c, sub) == s
  {
    if s != "" {
      ReplaceAbsent(s[1..], c, sub);
    }
  }

  /** Escaping is a single pass, leaves no bracket and costs exactly three characters per bracket. */
  lemma {:induction false} EscapeMeaning(s: string)
    ensures Escape(s) == EscapeOnce(s)
    ensures BracketFree(Escape(s))
    ensures |Escape(s)| == |s| + 3 * Brackets(s)
  {
    if s != "" {
      var head := if s[0] == '<' then "&lt;" else [s[0]];
      ReplaceConcat(head, Replace(s[1..], '<', "&lt;"), '>', "&gt;");
      if s[0] == '<' {
        ReplaceAbsent(head, '>', "&gt;");
      } else {
        assert head[1..] == "";
        assert Replace(head[1..], '>', "&gt;") == "";
      }
      assert Replace(head, '>', "&gt;") == EscapeChar(s[0]);
      EscapeMeaning(s[1..]);
    }
  }

  /** A second escaping changes nothing, and only bracket-free text is left as it was. */
  lemma EscapeIdempotent(s: string)
    ensures Escape(Escape(s)) == Escape(s)
    ensures Escape(s) == s <==> BracketFree(s)
  {
    EscapeMeaning(s);
    ReplaceAbsent(Escape(s), '<', "&lt;");
    ReplaceAbsent(Escape(s), '>', "&gt;");
    if BracketFree(s) {
      ReplaceAbsent(s, '<', "&lt;");
      ReplaceAbsent(s, '>', "&gt;");
    }
  }

  predicate NameChar(c: char) {
    'a' <= c <= 'z' || 'A' <= c <= 'Z' || '0' <= c <= '9' || c == '-' || c == ' '
  }

  predicate NameOf(s: string, lo: nat, hi: nat) {
    lo <= |s| <= hi && forall i :: 0 <= i < |s| ==> NameChar(s[i])
  }

  predicate ClientName(s: string) { NameOf(s, 3, 30) }

  predicate ChannelName(s: string) { NameOf(s, 3, 50) }

  function LowerChar(c: char): char {
    if 'A' <= c <= 'Z' then ((c as int) + 32) as char else c
  }

  function Lower(s: string): (t: string)
    ensures |t| == |s|
  {
    seq(|s|, i requires 0 <= i < |s| => LowerChar(s[i]))
  }

  const UPPER := "ABCDEFGHIJKLMNOPQRSTUVWXYZ"
  const LOWER := "abcdefghijklmnopqrstuvwxyz"
  const NAME_CHARS := UPPER + LOWER + "0123456789- "

  /** The two are the capital and the small form of one letter. */
  predicate SameLetter(a: char, b: char) {
    exists k :: 0 <= k < 26 && ((a == UPPER[k] && b == LOWER[k]) || (a == LOWER[k] && b == UPPER[k]))
  }

  lemma Letters()
    ensures |UPPER| == 26 && |LOWER| == 26
    ensures forall k :: 0 <= k < 26 ==> UPPER[k] == (65 + k) as char && LOWER[k] == (97 + k) as char
  {
  }

  lemma LowerPair(a: char, b: char)
    ensures LowerChar(a) == LowerChar(b) <==> a == b || SameLetter(a, b)
  {
    Letters();
    if a != b && LowerChar(a) == LowerChar(b) {
      var k := LowerChar(a) as int - 97;
      assert 0 <= k < 26;
      assert (a == UPPER[k] && b == LOWER[k]) || (a == LOWER[k] && b == UPPER[k]);
    }
  }

  /** Two names are equal up to case if they have the same characters, apart from capital and small letters. */
  lemma LowerMeaning(s: string, t: string)
    ensures Lower(s) == Lower(t) <==>
            |s| == |t| && forall i :: 0 <= i < |s| ==> s[i] == t[i] || SameLetter(s[i], t[i])
  {
    if |s| == |t| {
      forall i | 0 <= i < |s| ensures Lower(s)[i] == Lower(t)[i] <==> s[i] == t[i] || SameLetter(s[i], t[i]) {
        LowerPair(s[i], t[i]);
      }
    }
    hide LowerChar, SameLetter;
  }

  lemma NameCharMeaning(c: char)
    ensures NameChar(c) <==> c in NAME_CHARS
  {
    Letters();
    var digits := "0123456789- ";
    assert forall k :: 0 <= k < 10 ==> digits[k] == (48 + k) as char;
    assert NAME_CHARS == UPPER + LOWER + digits;
    if NameChar(c) {
      if 'A' <= c <= 'Z' {
        assert UPPER[c as int - 65] == c;
      } else if 'a' <= c <= 'z' {
        assert LOWER[c as int - 97] == c;
      } else if '0' <= c <= '9' {
        assert digits[c as int - 48] == c;
      }
    }
  }

  /** Names of clients have 3 to 30 letters, digits, hyphens and spaces, those of channels up to 50; so no name contains
      a bracket. */
  lemma NameMeaning(s: string)
    ensures ClientName(s) <==> 3 <= |s| <= 30 && forall i :: 0 <= i < |s| ==> s[i] in NAME_CHARS
    ensures ChannelName(s) <==> 3 <= |s| <= 50 && forall i :: 0 <= i < |s| ==> s[i] in NAME_CHARS
    ensures ClientName(s) || ChannelName(s) ==> BracketFree(s)
  {
    forall i | 0 <= i < |s| ensures NameChar(s[i]) <==> s[i] in NAME_CHARS {
      NameCharMeaning(s[i]);
    }
    assert !NameChar('<') && !NameChar('>');
    hide NameChar, NAME_CHARS;
  }
}
