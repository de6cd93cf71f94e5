/** Paths in the exported manifest: four whole-text replacements on the server, undone by
    four on the client. A char stands for a byte. */
module ManifestPath {

  /** What the server writes for the characters that would break a line. */
  function Escape(c: char): (e: string)
    requires c in "%\t\n\r"
    ensures |e| == 3 && e[0] == '%' && e[1] != '%' && e[2] != '%'
    ensures forall d :: d in "\t\n\r" ==> d !in e
  {
    if c == '%' then "%25" else if c == '\t' then "%09" else if c == '\n' then "%0A" else "%0D"
  }

  /** Every occurrence of one character replaced by a text. */
  function ReplaceChar(s: string, c: char, with: string): string {
    if s == "" then "" else (if s[0] == c then with else [s[0]]) + ReplaceChar(s[1..], c, with)
  }

  /** Every occurrence of a text replaced by one character, from left to right. */
  function ReplaceText(s: string, pattern: string, with: char): string
    requires pattern != ""
  {
    if s == "" then ""
    else if pattern <= s then [with] + ReplaceText(s[|pattern|..], pattern, with)
    else [s[0]] + ReplaceText(s[1..], pattern, with)
  }

  function Encode(path: string): string {
    var a := ReplaceChar(path, '%', Escape('%'));
    var b := ReplaceChar(a, '\t', Escape('\t'));
    var c := ReplaceChar(b, '\n', Escape('\n'));
    ReplaceChar(c, '\r', Escape('\r'))
  }

  const ORDER: string := "\t\n\r%"

  /** Undo the escapes of `ORDER[..n]`, in that order. */
  function DecodeUpTo(value: string, n: nat): string
    requires n <= 4
  {
    if n == 0 then value else ReplaceText(DecodeUpTo(value, n - 1), Escape(ORDER[n - 1]), ORDER[n - 1])
  }

  method Decode(value: string) returns (path: string)
    ensures path == DecodeUpTo(value, 4)
  {
    path := value;
    for n := 0 to 4
      invariant path == DecodeUpTo(value, n)
    {
      path := ReplaceText(path, Escape(ORDER[n]), ORDER[n]);
    }
  }

  /* ---- half-decoded texts ---- */

  function Piece(c: char, escaped: set<char>): string
    requires escaped <= {'%', '\t', '\n', '\r'}
  {
    if c in escaped then Escape(c) else [c]
  }

  /** The path with just the given characters escaped, each on its own. */
  function Stage(path: string, escaped: set<char>): string
    requires escaped <= {'%', '\t', '\n', '\r'}
  {
    if path == "" then "" else Piece(path[0], escaped) + Stage(path[1..], escaped)
  }

  lemma {:induction false} NothingEscaped(path: string)
    ensures Stage(path, {}) == path
  {
    if path != "" {
      NothingEscaped(path[1..]);
      assert path == [path[0]] + path[1..];
    }
  }

  lemma {:induction false} ReplaceCharAppend(a: string, b: string, c: char, with: string)
    ensures ReplaceChar(a + b, c, with) == ReplaceChar(a, c, with) + ReplaceChar(b, c, with)
  {
    if a == "" {
      assert a + b == b;
    } else {
      ReplaceCharAppend(a[1..], b, c, with);
      assert (a + b)[1..] == a[1..] + b && (a + b)[0] == a[0];
    }
  }

  lemma {:induction false} AbsentCharStays(s: string, c: char, with: string)
    requires c !in s
    ensures ReplaceChar(s, c, with) == s
  {
    if s != "" {
      AbsentCharStays(s[1..], c, with);
      assert s == [s[0]] + s[1..];
    }
  }

  /** One replacement of the encoder escapes one more character. */
  lemma {:induction false} EncoderStep(path: string, escaped: set<char>, c: char)
    requires escaped <= {'%', '\t', '\n', '\r'} && c in "%\t\n\r" && c !in escaped
    requires c == '%' ==> escaped == {}
    ensures ReplaceChar(Stage(path, escaped), c, Escape(c)) == Stage(path, escaped + {c})
  {
    if path != "" {
      var piece := Piece(path[0], escaped);
      EncoderStep(path[1..], escaped, c);
      ReplaceCharAppend(piece, Stage(path[1..], escaped), c, Escape(c));
      if path[0] in escaped {
        AbsentCharStays(piece, c, Escape(c));
      } else {
        assert piece == [path[0]] && piece[1..] == "";
        assert ReplaceChar(piece, c, Escape(c)) == if path[0] == c then Escape(c) else piece;
      }
    }
  }

  lemma PlainCharIsCopied(c0: char, rest: string, c: char, with: char)
    requires c in "%\t\n\r" && c0 != '%'
    ensures ReplaceText([c0] + rest, Escape(c), with) == [c0] + ReplaceText(rest, Escape(c), with)
  {
    var s := [c0] + rest;
    assert s[1..] == rest && s[0] != Escape(c)[0];
  }

  /** At the start of a piece the decoder sees the whole piece and nothing else. */
  lemma DecodePiece(piece: string, rest: string, c: char, with: char)
    requires c in "%\t\n\r"
    requires (|piece| == 1 && piece[0] != '%') || (|piece| == 3 && piece[1] != '%' && piece[2] != '%')
    ensures ReplaceText(piece + rest, Escape(c), with) == (if piece == Escape(c) then [with] else piece) + ReplaceText(rest, Escape(c), with)
  {
    var s := piece + rest;
    if |piece| == 1 {
      PlainCharIsCopied(piece[0], rest, c, with);
      assert s == [piece[0]] + rest && piece == [piece[0]];
    } else if piece == Escape(c) {
      assert s[3..] == rest;
    } else {
      assert s[..3] == piece;
      var tail := [piece[1]] + ([piece[2]] + rest);
      assert s[1..] == tail;
      PlainCharIsCopied(piece[1], [piece[2]] + rest, c, with);
      PlainCharIsCopied(piece[2], rest, c, with);
      var decoded := ReplaceText(rest, Escape(c), with);
      assert ReplaceText(s, Escape(c), with) == [piece[0]] + ([piece[1]] + ([piece[2]] + decoded));
      assert piece + decoded == [piece[0]] + ([piece[1]] + ([piece[2]] + decoded));
    }
  }

  lemma EscapeIsInjective(c: char, d: char)
    requires c in "%\t\n\r" && d in "%\t\n\r"
    ensures Escape(c) == Escape(d) <==> c == d
  {
  }

  /** One replacement of the decoder undoes one escape, as long as no bare % is left. */
  lemma {:induction false} DecoderStep(path: string, escaped: set<char>, c: char)
    requires escaped <= {'%', '\t', '\n', '\r'} && c in escaped && '%' in escaped
    requires c == '%' ==> escaped == {'%'}
    ensures ReplaceText(Stage(path, escaped), Escape(c), c) == Stage(path, escaped - {c})
  {
    if path != "" {
      DecoderStep(path[1..], escaped, c);
      var piece := Piece(path[0], escaped);
      DecodePiece(piece, Stage(path[1..], escaped), c, c);
      if path[0] in escaped {
        EscapeIsInjective(path[0], c);
      }
    }
  }

  /** The four replacements of the encoder escape each character on its own. */
  lemma EncodeIsPiecewise(path: string)
    ensures Encode(path) == Stage(path, {'%', '\t', '\n', '\r'})
  {
    NothingEscaped(path);
    EncoderStep(path, {}, '%');
    EncoderStep(path, {'%'}, '\t');
    EncoderStep(path, {'%', '\t'}, '\n');
    EncoderStep(path, {'%', '\t', '\n'}, '\r');
    assert {} + {'%'} == {'%'} && {'%'} + {'\t'} == {'%', '\t'} && {'%', '\t'} + {'\n'} == {'%', '\t', '\n'};
    assert {'%', '\t', '\n'} + {'\r'} == {'%', '\t', '\n', '\r'};
  }

  /** Decoding undoes encoding for every path, including names that contain escapes. */
  lemma DecodeUndoesEncode(path: string)
    ensures DecodeUpTo(Encode(path), 4) == path
  {
    EncodeIsPiecewise(path);
    DecodeStages(path);
  }

  lemma DecodeStages(path: string)
    ensures DecodeUpTo(Stage(path, {'%', '\t', '\n', '\r'}), 4) == path
  {
    var all := {'%', '\t', '\n', '\r'};
    NothingEscaped(path);
    DecoderStep(path, all, '\t');
    assert all - {'\t'} == {'%', '\n', '\r'} && {'%', '\n', '\r'} - {'\n'} == {'%', '\r'} && {'%', '\r'} - {'\r'} == {'%'} && {'%'} - {'%'} == {};
    DecoderStep(path, {'%', '\n', '\r'}, '\n');
    DecoderStep(path, {'%', '\r'}, '\r');
    DecoderStep(path, {'%'}, '%');
    var s := Stage(path, all);
    assert DecodeUpTo(s, 0) == s;
    assert DecodeUpTo(s, 1) == ReplaceText(s, Escape('\t'), '\t') == Stage(path, {'%', '\n', '\r'});
    assert DecodeUpTo(s, 2) == ReplaceText(DecodeUpTo(s, 1), Escape('\n'), '\n') == Stage(path, {'%', '\r'});
    assert DecodeUpTo(s, 3) == ReplaceText(DecodeUpTo(s, 2), Escape('\r'), '\r') == Stage(path, {'%'});
    assert DecodeUpTo(s, 4) == ReplaceText(DecodeUpTo(s, 3), Escape('%'), '%') == path;
  }

  lemma EncodedExample()
    ensures Encode("%0A") == "%25" + ("0" + ("A" + ""))
  {
    var all := {'%', '\t', '\n', '\r'};
    EncodeIsPiecewise("%0A");
    assert "%0A"[1..] == "0A" && "0A"[1..] == "A" && "A"[1..] == "";
    assert Stage("A", all) == "A" + "";
    assert Stage("0A", all) == "0" + Stage("A", all);
  }

  /** The order matters: undoing % first turns the literal name "%0A" into a newline. */
  lemma PercentFirstIsWrong()
    ensures ReplaceText(ReplaceText(Encode("%0A"), Escape('%'), '%'), Escape('\n'), '\n') == "\n"
  {
    hide Encode, ReplaceText;
    EncodedExample();
    NothingToReplace('%');
    NothingToReplace('\n');
    DecodePiece("%25", "0" + ("A" + ""), '%', '%');
    DecodePiece("0", "A" + "", '%', '%');
    DecodePiece("A", "", '%', '%');
    assert ReplaceText(Encode("%0A"), Escape('%'), '%') == "%0A" + "";
    DecodePiece("%0A", "", '\n', '\n');
  }

  lemma NothingToReplace(c: char)
    requires c in "%\t\n\r"
    ensures ReplaceText("", Escape(c), c) == ""
  {
  }

  /** The escapes as they stand in the manifest; every other character stands for itself. */
  lemma EscapedExactly(c: char)
    ensures Encode([c]) == if c == '%' then "%25" else if c == '\t' then "%09" else if c == '\n' then "%0A" else if c == '\r' then "%0D" else [c]
  {
    EncodeIsPiecewise([c]);
    assert [c][1..] == "";
  }
}
