/**
 * The MarkdownV2 escaper of the message layer: `escape_markdown_v2` runs one
 * `str.replace` per special character; the model proves that this sequence of
 * replacements is the same as escaping each character on its own.
 */
module Markdown {

  /** The characters escape_markdown_v2 puts a backslash before, in the order it handles them. */
  const EscapeChars: string := "_*[]()~`>#+-=|{}.!"

  predicate IsSpecial(c: char) {
    c in EscapeChars
  }

  /** Python's `str.replace` with a one-character pattern: every occurrence of `c` replaced by `rep`. */
  function Replaced(s: string, c: char, rep: string): (r: string)
    ensures c !in s ==> r == s
    ensures c !in rep ==> c !in r
  {
    if s == [] then []
    else (if s[0] == c then rep else [s[0]]) + Replaced(s[1..], c, rep)
  }

  /** One character after the characters of `done` have been escaped. */
  function Piece(c: char, done: string): string {
    if c in done then ['\\', c] else [c]
  }

  /** `s` with a backslash before each character that occurs in `done`. */
  function EscapedBy(s: string, done: string): string {
    if s == [] then [] else Piece(s[0], done) + EscapedBy(s[1..], done)
  }

  /** The per-character escaping: a backslash before each special character, everything else kept. */
  function Escaped(s: string): string {
    EscapedBy(s, EscapeChars)
  }

  function CountSpecial(s: string): nat {
    if s == [] then 0 else (if IsSpecial(s[0]) then 1 else 0) + CountSpecial(s[1..])
  }

  /** Reads MarkdownV2 escapes back: a backslash followed by a special character stands for that character. */
  function Unescaped(s: string): string
    decreases |s|
  {
    if s == [] then []
    else if |s| >= 2 && s[0] == '\\' && IsSpecial(s[1]) then [s[1]] + Unescaped(s[2..])
    else [s[0]] + Unescaped(s[1..])
  }

  method EscapeMarkdownV2(text: string) returns (r: string)
    ensures r == Escaped(text)
  {
    if text == [] {
      return "";
    }
    EscapedByNothing(text);
    r := text;
    for i := 0 to |EscapeChars|
      invariant r == EscapedBy(text, EscapeChars[..i])
    {
      var c := EscapeChars[i];
      EscapeCharsFresh(i);
      ReplaceEscapesOneMore(text, EscapeChars[..i], c);
      r := Replaced(r, c, ['\\', c]);
      assert EscapeChars[..i + 1] == EscapeChars[..i] + [c];
    }
    assert EscapeChars[..|EscapeChars|] == EscapeChars;
  }

  /** The special characters are all different and none is a backslash. */
  lemma EscapeCharsFresh(i: nat)
    requires i < |EscapeChars|
    ensures EscapeChars[i] != '\\' && EscapeChars[i] !in EscapeChars[..i]
  {
  }

  lemma {:induction false} EscapedByNothing(s: string)
    ensures EscapedBy(s, []) == s
  {
    if s != [] {
      EscapedByNothing(s[1..]);
      assert s == [s[0]] + s[1..];
    }
  }

  lemma {:induction false} ReplacedConcat(a: string, b: string, c: char, rep: string)
    ensures Replaced(a + b, c, rep) == Replaced(a, c, rep) + Replaced(b, c, rep)
  {
    if a == [] {
      assert a + b == b;
    } else {
      assert (a + b)[0] == a[0] && (a + b)[1..] == a[1..] + b;
      ReplacedConcat(a[1..], b, c, rep);
    }
  }

  /**
   * Replacing `c` in text already escaped for `done` escapes `c` as well. It
   * needs `c` to be new and not a backslash: the backslashes inserted earlier
   * and the characters they precede are then left alone.
   */
  lemma {:induction false} ReplaceEscapesOneMore(s: string, done: string, c: char)
    requires c !in done && c != '\\'
    ensures Replaced(EscapedBy(s, done), c, ['\\', c]) == EscapedBy(s, done + [c])
  {
    if s != [] {
      var p := Piece(s[0], done);
      ReplacedConcat(p, EscapedBy(s[1..], done), c, ['\\', c]);
      ReplaceEscapesOneMore(s[1..], done, c);
      if s[0] in done {
        assert Replaced(p, c, ['\\', c]) == p;
      }
    }
  }

  /** Escaping is a per-character map: it distributes over concatenation. */
  lemma {:induction false} EscapedConcat(a: string, b: string)
    ensures Escaped(a + b) == Escaped(a) + Escaped(b)
  {
    if a == [] {
      assert a + b == b;
    } else {
      assert (a + b)[0] == a[0] && (a + b)[1..] == a[1..] + b;
      EscapedConcat(a[1..], b);
    }
  }

  /** One backslash per special character: the output is as long as the input plus the number of specials. */
  lemma {:induction false} EscapedLength(s: string)
    ensures |Escaped(s)| == |s| + CountSpecial(s)
  {
    if s != [] {
      EscapedLength(s[1..]);
    }
  }

  /** Text without special characters comes out unchanged. */
  lemma {:induction false} EscapedPlain(s: string)
    requires forall k :: 0 <= k < |s| ==> !IsSpecial(s[k])
    ensures Escaped(s) == s
  {
    if s != [] {
      EscapedPlain(s[1..]);
      assert s == [s[0]] + s[1..];
    }
  }

  /** Every special character of the output is preceded by a backslash. */
  lemma {:induction false} SpecialsArePrefixed(s: string)
    ensures forall k :: 0 <= k < |Escaped(s)| && IsSpecial(Escaped(s)[k]) ==> k > 0 && Escaped(s)[k - 1] == '\\'
  {
    if s != [] {
      SpecialsArePrefixed(s[1..]);
      var p, e := Piece(s[0], EscapeChars), Escaped(s[1..]);
      assert Escaped(s) == p + e;
      EscapedStart(s[1..]);
      forall k | 0 <= k < |p + e| && IsSpecial((p + e)[k])
        ensures k > 0 && (p + e)[k - 1] == '\\'
      {
        if k >= |p| {
          assert (p + e)[k] == e[k - |p|];
          if k > |p| {
            assert (p + e)[k - 1] == e[k - |p| - 1];
          }
        }
      }
    }
  }

  /** Escaped text never starts with a special character. */
  lemma EscapedStart(s: string)
    ensures Escaped(s) != [] ==> !IsSpecial(Escaped(s)[0])
  {
  }

  /** Reading the escapes back gives the original text. */
  lemma {:induction false} UnescapeEscaped(s: string)
    ensures Unescaped(Escaped(s)) == s
  {
    if s != [] {
      var e := Escaped(s[1..]);
      UnescapeEscaped(s[1..]);
      EscapedStart(s[1..]);
      if IsSpecial(s[0]) {
        assert Escaped(s) == ['\\', s[0]] + e;
        assert (['\\', s[0]] + e)[2..] == e;
      } else {
        assert Escaped(s) == [s[0]] + e;
        assert ([s[0]] + e)[1..] == e;
      }
      assert s == [s[0]] + s[1..];
    }
  }
}
