/** `escapeMarkdown`: the bot puts a backslash in front of each of the seven
    characters that Telegram's Markdown treats as formatting (`_ * [ ] ( ) `),
    one character at a time (every pattern of the replacer is a single ASCII
    character, so no two patterns overlap). Everything else is copied
    unchanged, backslashes included. */
module Markdown {

  predicate IsSpecial(c: char) {
    c == '_' || c == '*' || c == '[' || c == ']' || c == '(' || c == ')' || c == '`'
  }

  function CountSpecial(s: string): nat {
    if s == [] then 0 else (if IsSpecial(s[0]) then 1 else 0) + CountSpecial(s[1..])
  }

  /** The escaped text; one backslash is added per formatting character. */
  function Escape(s: string): (r: string)
    ensures |r| == |s| + CountSpecial(s)
    ensures r != [] ==> !IsSpecial(r[0])
  {
    if s == [] then []
    else (if IsSpecial(s[0]) then ['\\', s[0]] else [s[0]]) + Escape(s[1..])
  }

  /** Reading escaped text left to right: a backslash followed by a formatting
      character stands for that character; anything else stands for itself. */
  function Unescape(s: string): string
    decreases |s|
  {
    if s == [] then []
    else if s[0] == '\\' && |s| > 1 && IsSpecial(s[1]) then [s[1]] + Unescape(s[2..])
    else [s[0]] + Unescape(s[1..])
  }

  /** Escaping loses nothing: unescaping recovers the original text. */
  lemma {:induction false} UnescapeEscape(s: string)
    ensures Unescape(Escape(s)) == s
  {
    if s != [] {
      var rest := Escape(s[1..]);
      UnescapeEscape(s[1..]);
      if IsSpecial(s[0]) {
        assert Escape(s) == ['\\', s[0]] + rest;
        assert (['\\', s[0]] + rest)[2..] == rest;
      } else {
        assert Escape(s) == [s[0]] + rest;
        assert ([s[0]] + rest)[1..] == rest;
      }
    }
  }

  /** Escaping works character by character. */
  lemma {:induction false} EscapeConcat(a: string, b: string)
    ensures Escape(a + b) == Escape(a) + Escape(b)
  {
    if a != [] {
      assert (a + b)[0] == a[0];
      assert (a + b)[1..] == a[1..] + b;
      EscapeConcat(a[1..], b);
      var head: string := if IsSpecial(a[0]) then ['\\', a[0]] else [a[0]];
      assert Escape(a + b) == head + (Escape(a[1..]) + Escape(b));
      assert Escape(a) == head + Escape(a[1..]);
    } else {
      assert a + b == b;
    }
  }

  /** Text without formatting characters is left exactly as it is. */
  lemma {:induction false} EscapePlain(s: string)
    requires forall i | 0 <= i < |s| :: !IsSpecial(s[i])
    ensures Escape(s) == s
  {
    if s != [] {
      EscapePlain(s[1..]);
    }
  }

  /** In escaped text every formatting character directly follows a backslash,
      so none of them can open or close a Markdown entity. */
  lemma {:induction false} EscapedSpecialsArePrefixed(s: string)
    ensures forall i | 0 <= i < |Escape(s)| && IsSpecial(Escape(s)[i]) :: 0 < i && Escape(s)[i - 1] == '\\'
  {
    if s != [] {
      var rest := Escape(s[1..]);
      EscapedSpecialsArePrefixed(s[1..]);
      var head: string := if IsSpecial(s[0]) then ['\\', s[0]] else [s[0]];
      assert Escape(s) == head + rest;
      forall i | 0 <= i < |Escape(s)| && IsSpecial(Escape(s)[i])
        ensures 0 < i && Escape(s)[i - 1] == '\\'
      {
        if i > |head| {
          assert Escape(s)[i] == rest[i - |head|];
          assert Escape(s)[i - 1] == rest[i - |head| - 1];
        }
      }
    }
  }
}
