/**
 * Properties of the scanner's decision table (module OldLex): whitespace
 * skipping, longest match of operators, comment and identifier boundaries,
 * the keyword table, string-escape decoding and its inverse, and the end of
 * input.
 */
module OldLexProperties {
  import opened Bytes
  import opened OldLex

  /** `w` occurs in `src` at position `i`. */
  predicate OccursAt(w: seq<u8>, src: seq<u8>, i: nat) {
    i + |w| <= |src| && forall m | 0 <= m < |w| :: src[i + m] == w[m]
  }

  // ---------------------------------------------------------------------
  // Operators and punctuation
  // ---------------------------------------------------------------------

  /** The source text of each fixed token; empty for the tokens that carry data. */
  function Spelling(t: Token): seq<u8> {
    match t
    case Open => [0x28]                // (
    case Close => [0x29]               // )
    case SquareOpen => [0x5B]          // [
    case SquareClose => [0x5D]         // ]
    case CurlyOpen => [0x7B]           // {
    case CurlyClose => [0x7D]          // }
    case Add => [0x2B]                 // +
    case Sub => [0x2D]                 // -
    case Mul => [0x2A]                 // *
    case Pow => [0x5E]                 // ^
    case Div => [0x2F]                 // /
    case Idiv => [0x2F, 0x2F]          // //
    case Mod => [0x25]                 // %
    case Band => [0x26]                // &
    case Bor => [0x7C]                 // |
    case Bnot => [0x7E]                // ~
    case Shl => [0x3C, 0x3C]           // <<
    case Shr => [0x3E, 0x3E]           // >>
    case Lt => [0x3C]                  // <
    case Gt => [0x3E]                  // >
    case Le => [0x3C, 0x3D]            // <=
    case Ge => [0x3E, 0x3D]            // >=
    case Concat => [0x2E, 0x2E]        // ..
    case Dot => [0x2E]                 // .
    case Varg => [0x2E, 0x2E, 0x2E]    // ...
    case Neq => [0x7E, 0x3D]           // ~=
    case Eq => [0x3D, 0x3D]            // ==
    case Len => [0x23]                 // #
    case Assign => [0x3D]              // =
    case _ => []
  }

  /** A token that stands for a fixed piece of text. */
  predicate IsFixed(t: Token) {
    Spelling(t) != []
  }

  /** The bytes that open an operator or punctuation token. */
  predicate IsOperatorLead(b: u8) {
    b in {0x28, 0x29, 0x5B, 0x5D, 0x7B, 0x7D, 0x2B, 0x2A, 0x5E, 0x25, 0x7C, 0x23, 0x26,
          DOT, GREATER, LESS, TILDE, EQUALS, SLASH, DASH}
  }

  /** At an operator lead that does not open a comment, the table consults the operator arm. */
  lemma ClassifyOperator(src: seq<u8>, i: nat)
    requires i < |src| && IsOperatorLead(src[i]) && !OpensComment(src, i)
    ensures !IsSpace(src[i])
    ensures Classify(src, i) == OperatorToken(src, i)
  {
  }

  /** The operator arm accepts exactly the operator leads. */
  lemma OperatorLeads(src: seq<u8>, i: nat)
    requires i < |src|
    ensures OperatorToken(src, i).Ok? <==> IsOperatorLead(src[i])
  {
  }

  /** The operator arm's token at `i`, if any, is spelled by the bytes it consumed. */
  predicate SpelledAt(src: seq<u8>, i: nat)
    requires i < |src|
  {
    OperatorToken(src, i).Ok? ==>
      var (tok, n) := OperatorToken(src, i).value;
      IsFixed(tok) && n == |Spelling(tok)| && OccursAt(Spelling(tok), src, i)
  }

  /** `.`, `..` and `...` are spelled by the bytes they consume. */
  lemma DotSpelled(src: seq<u8>, i: nat)
    requires i < |src| && src[i] == DOT
    ensures SpelledAt(src, i)
  {
  }

  /** `>` and `>=` are spelled by the bytes they consume. */
  lemma GreaterSpelled(src: seq<u8>, i: nat)
    requires i < |src| && src[i] == GREATER
    ensures SpelledAt(src, i)
  {
  }

  /** `<` and `<=` are spelled by the bytes they consume. */
  lemma LessSpelled(src: seq<u8>, i: nat)
    requires i < |src| && src[i] == LESS
    ensures SpelledAt(src, i)
  {
  }

  /** `~=` are spelled by the bytes they consume. */
  lemma TildeSpelled(src: seq<u8>, i: nat)
    requires i < |src| && src[i] == TILDE
    ensures SpelledAt(src, i)
  {
  }

  /** `=` and `==` are spelled by the bytes they consume. */
  lemma EqualsSpelled(src: seq<u8>, i: nat)
    requires i < |src| && src[i] == EQUALS
    ensures SpelledAt(src, i)
  {
  }

  /** `/` and `//` are spelled by the bytes they consume. */
  lemma SlashSpelled(src: seq<u8>, i: nat)
    requires i < |src| && src[i] == SLASH
    ensures SpelledAt(src, i)
  {
  }

  /** Every token of the operator arm is spelled by the bytes it consumed. */
  lemma OperatorSpelled(src: seq<u8>, i: nat)
    requires i < |src|
    ensures SpelledAt(src, i)
  {
    var b := src[i];
    if b == DOT {
      DotSpelled(src, i);
    } else if b == GREATER {
      GreaterSpelled(src, i);
    } else if b == LESS {
      LessSpelled(src, i);
    } else if b == TILDE {
      TildeSpelled(src, i);
    } else if b == EQUALS {
      EqualsSpelled(src, i);
    } else if b == SLASH {
      SlashSpelled(src, i);
    }
  }

  /**
   * Longest match: when the text of some operator `t` occurs at `i` (and no
   * comment starts there), the table returns an operator whose text occurs at
   * `i` and is at least as long as that of `t`.
   */
  lemma LongestMatch(src: seq<u8>, i: nat, t: Token)
    requires IsFixed(t) && OccursAt(Spelling(t), src, i)
    requires !OpensComment(src, i)
    ensures i < |src| && !IsSpace(src[i])
    ensures Classify(src, i).Ok?
    ensures IsFixed(Classify(src, i).value.0)
    ensures OccursAt(Spelling(Classify(src, i).value.0), src, i)
    ensures |Spelling(t)| <= Classify(src, i).value.1
  {
    assert src[i] == Spelling(t)[0];
    ClassifyOperator(src, i);
    OperatorLeads(src, i);
    OperatorSpelled(src, i);
    assert SpelledAt(src, i);
    if |Spelling(t)| >= 2 {
      assert src[i + 1] == Spelling(t)[1];
      assert At(src, i + 1) == Some(Spelling(t)[1]);
      if t == Varg {
        assert src[i + 2] == Spelling(t)[2];
      }
    }
  }

  // ---------------------------------------------------------------------
  // Whitespace and position independence
  // ---------------------------------------------------------------------

  /** `SkipSpace` stops exactly at the first non-whitespace byte. */
  lemma SkipSpaceExact(src: seq<u8>, i: nat, j: nat)
    requires i <= j <= |src|
    requires forall k | i <= k < j :: IsSpace(src[k])
    requires j == |src| || !IsSpace(src[j])
    ensures SkipSpace(src, i) == j
  {
  }

  /** A token moved `d` bytes further into the source. */
  function ShiftToken(t: Token, d: nat): Token {
    match t
    case Identifier(s) => Identifier(Span(s.start + d, s.len))
    case Keyword(s) => Keyword(Span(s.start + d, s.len))
    case Comment(s) => Comment(Span(s.start + d, s.len))
    case _ => t
  }

  /** A scan result moved `d` bytes further into the source; lengths are unchanged. */
  function Shift(r: Result<(Token, nat)>, d: nat): Result<(Token, nat)> {
    if r.Ok? then Ok((ShiftToken(r.value.0, d), r.value.1)) else r
  }

  /** The rest of a line does not depend on the bytes before it. */
  lemma {:induction false} LineRestAfter(p: seq<u8>, t: seq<u8>, k: nat)
    requires k <= |t|
    ensures LineRest(p + t, |p| + k) == LineRest(t, k)
    decreases |t| - k
  {
    if k < |t| {
      assert (p + t)[|p| + k] == t[k];
      LineRestAfter(p, t, k + 1);
    }
  }

  /** The rest of an identifier does not depend on the bytes before it. */
  lemma {:induction false} IdenRestAfter(p: seq<u8>, t: seq<u8>, k: nat)
    requires k <= |t|
    ensures IdenRest(p + t, |p| + k) == IdenRest(t, k)
    decreases |t| - k
  {
    if k < |t| {
      assert (p + t)[|p| + k] == t[k];
      IdenRestAfter(p, t, k + 1);
    }
  }

  /** A string scan moved `d` bytes further into the source. */
  function ShiftScan(r: Result<(seq<u8>, nat)>, d: nat): Result<(seq<u8>, nat)> {
    if r.Ok? then Ok((r.value.0, r.value.1 + d)) else r
  }

  /** A string scan does not depend on the bytes before it; only its end position moves. */
  lemma {:induction false} ScanStringAfter(p: seq<u8>, t: seq<u8>, k: nat, end: u8, data: seq<u8>)
    requires k <= |t|
    ensures ScanString(p + t, |p| + k, end, data) == ShiftScan(ScanString(t, k, end, data), |p|)
    decreases |t| - k
  {
    if k < |t| {
      assert (p + t)[|p| + k] == t[k];
      if t[k] != end {
        if t[k] == BACKSLASH {
          if k + 1 < |t| {
            assert (p + t)[|p| + k + 1] == t[k + 1];
            if Unescape(t[k + 1]).Some? {
              ScanStringAfter(p, t, k + 2, end, data + [Unescape(t[k + 1]).value]);
            }
          }
        } else {
          ScanStringAfter(p, t, k + 1, end, data + [t[k]]);
        }
      }
    }
  }

  /** The operator arm looks only at the bytes from `i` on. */
  lemma OperatorTokenAfter(p: seq<u8>, t: seq<u8>)
    requires 0 < |t|
    ensures OperatorToken(p + t, |p|) == OperatorToken(t, 0)
  {
    assert (p + t)[|p|] == t[0];
    assert At(p + t, |p| + 1) == At(t, 1);
    assert At(p + t, |p| + 2) == At(t, 2);
  }

  /** The comment arm after a prefix: the same comment, its span moved. */
  lemma CommentTokenAfter(p: seq<u8>, t: seq<u8>)
    requires 2 <= |t|
    ensures CommentToken(p + t, |p|) == Shift(CommentToken(t, 0), |p|)
  {
    LineRestAfter(p, t, 2);
  }

  /** The string arm after a prefix: the same bytes and length. */
  lemma StringTokenAfter(p: seq<u8>, t: seq<u8>)
    requires 0 < |t|
    ensures StringToken(p + t, |p|) == Shift(StringToken(t, 0), |p|)
  {
    assert (p + t)[|p|] == t[0];
    ScanStringAfter(p, t, 1, t[0], []);
  }

  /** The identifier arm after a prefix: the same word, its span moved. */
  lemma IdentifierTokenAfter(p: seq<u8>, t: seq<u8>)
    requires 0 < |t|
    ensures IdentifierToken(p + t, |p|) == Shift(IdentifierToken(t, 0), |p|)
  {
    var src := p + t;
    IdenRestAfter(p, t, 1);
    var n := 1 + IdenRest(t, 1);
    assert n == 1 + IdenRest(src, |p| + 1);
    SliceAfter(p, t, n);
    var isKeyword := IsKeyword(t[..n]);
    assert isKeyword == IsKeyword(src[|p|..|p| + n]);
    if isKeyword {
      assert IdentifierToken(t, 0) == Ok((Keyword(Span(0, n)), n));
      assert IdentifierToken(src, |p|) == Ok((Keyword(Span(|p|, n)), n));
    } else {
      assert IdentifierToken(t, 0) == Ok((Identifier(Span(0, n)), n));
      assert IdentifierToken(src, |p|) == Ok((Identifier(Span(|p|, n)), n));
    }
  }

  /** The bytes after a prefix are the bytes of the rest. */
  lemma SliceAfter(p: seq<u8>, t: seq<u8>, n: nat)
    requires n <= |t|
    ensures (p + t)[|p|..|p| + n] == t[..n]
  {
  }

  /**
   * The table's answer does not depend on the bytes before the cursor: the
   * token after a prefix `p` is the token at the start of the rest, with its
   * span moved by `|p|`.
   */
  lemma ClassifyAfter(p: seq<u8>, t: seq<u8>)
    requires t == [] || !IsSpace(t[0])
    ensures Classify(p + t, |p|) == Shift(Classify(t, 0), |p|)
  {
    if t != [] {
      var src := p + t;
      assert src[|p|] == t[0];
      assert OpensComment(src, |p|) == OpensComment(t, 0) by {
        if |t| > 1 { assert src[|p| + 1] == t[1]; }
      }
      if OpensComment(t, 0) {
        CommentTokenAfter(p, t);
      } else if t[0] == DQUOTE || t[0] == QUOTE {
        StringTokenAfter(p, t);
      } else if IsIden(t[0], true) {
        IdentifierTokenAfter(p, t);
      } else {
        OperatorTokenAfter(p, t);
        assert Shift(OperatorToken(t, 0), |p|) == OperatorToken(t, 0);
      }
    }
  }

  /**
   * A run of whitespace before a token is skipped: the scanner returns the
   * token that follows, with its length excluding the run, and its cursor
   * ends on the token's first byte.
   */
  lemma LeadingWhitespace(ws: seq<u8>, t: seq<u8>)
    requires forall k | 0 <= k < |ws| :: IsSpace(ws[k])
    requires t == [] || !IsSpace(t[0])
    ensures SkipSpace(ws + t, 0) == |ws|
    ensures Lex(ws + t, 0) == Shift(Lex(t, 0), |ws|)
  {
    var src := ws + t;
    assert forall k | 0 <= k < |ws| :: IsSpace(src[k]);
    assert |ws| < |src| ==> src[|ws|] == t[0];
    SkipSpaceExact(src, 0, |ws|);
    ClassifyAfter(ws, t);
  }

  /** The scanner reports the end of input exactly when only whitespace remains. */
  lemma EofIff(src: seq<u8>, i: nat)
    requires i <= |src|
    ensures Lex(src, i) == Ok((Eof, 0)) <==> forall k | i <= k < |src| :: IsSpace(src[k])
  {
  }

  // ---------------------------------------------------------------------
  // Comments
  // ---------------------------------------------------------------------

  /**
   * A comment opened by `--` at `i` reaches exactly to the first LF or CR
   * after the dashes, or to the end of input: its length is 2 plus the bytes
   * in between, and its span is `[i, j)`.
   */
  lemma CommentExtent(src: seq<u8>, i: nat, j: nat)
    requires OpensComment(src, i)
    requires i + 2 <= j <= |src|
    requires forall m | i + 2 <= m < j :: !IsLineEnd(src[m])
    requires j == |src| || IsLineEnd(src[j])
    ensures Classify(src, i) == Ok((Comment(Span(i, j - i)), j - i))
  {
  }

  // ---------------------------------------------------------------------
  // Identifiers and keywords
  // ---------------------------------------------------------------------

  /**
   * An identifier starting at `i` is the maximal run `[i, j)` of identifier
   * bytes; it is a keyword exactly when that run is in the keyword table.
   */
  lemma IdentifierExtent(src: seq<u8>, i: nat, j: nat)
    requires i < j <= |src| && IsIden(src[i], true)
    requires forall m | i < m < j :: IsIden(src[m], false)
    requires j == |src| || !IsIden(src[j], false)
    ensures Classify(src, i) ==
      if IsKeyword(src[i..j]) then Ok((Keyword(Span(i, j - i)), j - i))
      else Ok((Identifier(Span(i, j - i)), j - i))
  {
    assert !IsSpace(src[i]) && !OpensComment(src, i);
  }

  /** An identifier never starts with a digit: a digit at the cursor is an error. */
  lemma LeadingDigitIsError(src: seq<u8>, i: nat)
    requires i < |src| && IsDigit(src[i])
    ensures Classify(src, i) == Err(A)
  {
  }

  /** The keyword test is membership in the 22-entry table. */
  lemma KeywordLookup(w: seq<u8>)
    ensures IsKeyword(w) <==> w in Keywords
  {
    if w in Keywords {
      var k :| 0 <= k < |Keywords| && Keywords[k] == w;
    }
  }

  /** Every reserved word is a run of identifier bytes that may start an identifier. */
  lemma KeywordsAreNames(k: nat)
    requires k < |Keywords|
    ensures 2 <= |Keywords[k]|
    ensures IsIden(Keywords[k][0], true)
    ensures forall m | 0 <= m < |Keywords[k]| :: IsIden(Keywords[k][m], false)
  {
  }

  /**
   * Each reserved word, followed by the end of input or a byte that cannot
   * continue an identifier, is scanned as one keyword token over exactly its
   * own bytes.
   */
  lemma KeywordScanned(k: nat, rest: seq<u8>)
    requires k < |Keywords|
    requires rest == [] || !IsIden(rest[0], false)
    ensures Lex(Keywords[k] + rest, 0) == Ok((Keyword(Span(0, |Keywords[k]|)), |Keywords[k]|))
  {
    var w := Keywords[k];
    var src := w + rest;
    KeywordsAreNames(k);
    assert forall m | 0 <= m < |w| :: src[m] == w[m];
    assert |w| < |src| ==> src[|w|] == rest[0];
    assert !IsSpace(src[0]);
    SkipSpaceExact(src, 0, 0);
    IdentifierExtent(src, 0, |w|);
    assert src[0..|w|] == w;
  }

  // ---------------------------------------------------------------------
  // Quoted strings
  // ---------------------------------------------------------------------

  /** The escape letter that stands for a byte 7..12. */
  function EscapeLetter(d: u8): u8
    requires 7 <= d <= 12
  {
    if d == 7 then 0x61        // a
    else if d == 8 then 0x62   // b
    else if d == 9 then 0x74   // t
    else if d == 10 then 0x6E  // n
    else if d == 11 then 0x76  // v
    else 0x66                  // f
  }

  /** Decoding an escape letter and `EscapeLetter` are inverse to each other. */
  lemma UnescapeInverse(letter: u8, d: u8)
    ensures Unescape(letter) == Some(d) <==> 7 <= d <= 12 && letter == EscapeLetter(d)
  {
  }

  /** The source text of one byte inside quotes: bytes 7..12 as escapes, any other byte verbatim. */
  function Encoded(b: u8): seq<u8> {
    if 7 <= b <= 12 then [BACKSLASH, EscapeLetter(b)] else [b]
  }

  /** The canonical source text of the bytes `data` between the delimiters. */
  function Quote(data: seq<u8>): seq<u8>
    decreases |data|
  {
    if data == [] then [] else Encoded(data[0]) + Quote(data[1..])
  }

  /** Bytes outside 7..12 are written verbatim, so their canonical text is themselves. */
  lemma {:induction false} QuoteVerbatim(data: seq<u8>)
    requires forall m | 0 <= m < |data| :: !(7 <= data[m] <= 12)
    ensures Quote(data) == data
    decreases |data|
  {
    if data != [] {
      QuoteVerbatim(data[1..]);
      assert [data[0]] + data[1..] == data;
    }
  }

  /** The canonical text of one plain byte decodes to that byte, so scanning it appends the byte. */
  lemma ScanStep(src: seq<u8>, k: nat, end: u8, acc: seq<u8>, b: u8)
    requires end == DQUOTE || end == QUOTE
    requires b != end && b != BACKSLASH
    requires k + |Encoded(b)| <= |src| && src[k..k + |Encoded(b)|] == Encoded(b)
    ensures Decoded(src, k) == Ok((b, |Encoded(b)|))
    ensures ScanString(src, k, end, acc) == ScanString(src, k + |Encoded(b)|, end, acc + [b])
  {
    assert src[k] == Encoded(b)[0];
    if 7 <= b <= 12 {
      assert src[k + 1] == Encoded(b)[1];
      UnescapeInverse(src[k + 1], b);
    }
  }

  /**
   * Scanning the canonical text of plain bytes `data` followed by the
   * delimiter appends `data` to the accumulator and stops just past the
   * delimiter, whatever precedes or follows.
   */
  lemma {:induction false} ScanQuote(src: seq<u8>, k: nat, data: seq<u8>, end: u8, acc: seq<u8>)
    requires end == DQUOTE || end == QUOTE
    requires Plain(data, end)
    requires QuotedAt(src, k, data, end)
    ensures ScanString(src, k, end, acc) == Ok((acc + data, k + |Quote(data)| + 1))
    decreases |data|
  {
    if data == [] {
      assert acc + data == acc;
    } else {
      var b := data[0];
      var c := Encoded(b);
      PlainTail(data, end);
      ScanStep(src, k, end, acc, b);
      ScanQuote(src, k + |c|, data[1..], end, acc + [b]);
      assert (acc + [b]) + data[1..] == acc + data;
    }
  }

  /** The canonical text of `data` and then `end` stands at `k` in `src`, one encoded byte after another. */
  predicate QuotedAt(src: seq<u8>, k: nat, data: seq<u8>, end: u8)
    decreases |data|
  {
    if data == [] then k < |src| && src[k] == end
    else
      var c := Encoded(data[0]);
      k + |c| <= |src| && src[k..k + |c|] == c && QuotedAt(src, k + |c|, data[1..], end)
  }

  /** Text laid out as a prefix, the canonical text of `data`, the delimiter and a rest stands quoted after the prefix. */
  lemma {:induction false} QuotedAtText(p: seq<u8>, data: seq<u8>, end: u8, rest: seq<u8>)
    ensures QuotedAt(p + Quote(data) + [end] + rest, |p|, data, end)
    decreases |data|
  {
    var src := p + Quote(data) + [end] + rest;
    if data == [] {
      assert src[|p|] == end;
    } else {
      var c := Encoded(data[0]);
      assert Quote(data) == c + Quote(data[1..]);
      assert src == (p + c) + Quote(data[1..]) + [end] + rest;
      assert src[|p|..|p| + |c|] == c;
      QuotedAtText(p + c, data[1..], end, rest);
    }
  }

  /** The bytes after the first of plain bytes are plain. */
  lemma PlainTail(data: seq<u8>, end: u8)
    requires data != [] && Plain(data, end)
    ensures Plain(data[1..], end) && data[0] != end && data[0] != BACKSLASH
  {
    forall m | 0 <= m < |data[1..]| ensures data[1..][m] != end && data[1..][m] != BACKSLASH {
      assert data[1..][m] == data[m + 1];
    }
  }

  /**
   * Round trip: the canonical text of any bytes free of the delimiter and of
   * backslashes, between two delimiters, decodes to exactly those bytes, and
   * the token's length covers both delimiters.
   */
  lemma StringRoundTrip(end: u8, data: seq<u8>, rest: seq<u8>)
    requires end == DQUOTE || end == QUOTE
    requires Plain(data, end)
    ensures Classify([end] + Quote(data) + [end] + rest, 0) == Ok((String(data), |Quote(data)| + 2))
  {
    var src := [end] + Quote(data) + [end] + rest;
    QuotedAtText([end], data, end, rest);
    ScanQuote(src, 1, data, end, []);
    assert [] + data == data;
    assert src[0] == end;
    assert !OpensComment(src, 0);
  }

  /**
   * Bytes free of the delimiter and of backslashes, raw control bytes
   * included, are collected verbatim up to the delimiter that follows them.
   */
  lemma {:induction false} ScanVerbatim(src: seq<u8>, k: nat, data: seq<u8>, end: u8, acc: seq<u8>)
    requires end == DQUOTE || end == QUOTE
    requires Plain(data, end)
    requires k + |data| < |src| && src[k..k + |data|] == data && src[k + |data|] == end
    ensures ScanString(src, k, end, acc) == Ok((acc + data, k + |data| + 1))
    decreases |data|
  {
    if data == [] {
      assert acc + data == acc;
    } else {
      assert src[k] == data[0];
      PlainTail(data, end);
      assert src[k + 1..k + 1 + |data[1..]|] == data[1..];
      ScanVerbatim(src, k + 1, data[1..], end, acc + [data[0]]);
      assert (acc + [data[0]]) + data[1..] == acc + data;
    }
  }

  /**
   * A string whose body holds no delimiter and no backslash is that body,
   * byte for byte, whatever control bytes it contains.
   */
  lemma StringVerbatim(end: u8, data: seq<u8>, rest: seq<u8>)
    requires end == DQUOTE || end == QUOTE
    requires Plain(data, end)
    ensures Classify([end] + data + [end] + rest, 0) == Ok((String(data), |data| + 2))
  {
    var src := [end] + data + [end] + rest;
    assert src[1..1 + |data|] == data;
    assert src[1 + |data|] == end;
    ScanVerbatim(src, 1, data, end, []);
    assert [] + data == data;
    assert src[0] == end;
    assert !OpensComment(src, 0);
  }

  /**
   * The other direction: whatever a string token decodes to is free of the
   * delimiter and of backslashes, so its canonical text decodes back to it.
   */
  lemma DecodedReencodes(src: seq<u8>, i: nat)
    requires i < |src| && (src[i] == DQUOTE || src[i] == QUOTE)
    requires StringToken(src, i).Ok?
    ensures Plain(StringToken(src, i).value.0.data, src[i])
    ensures var d := StringToken(src, i).value.0.data;
      Classify([src[i]] + Quote(d) + [src[i]], 0) == Ok((String(d), |Quote(d)| + 2))
  {
    var d := StringToken(src, i).value.0.data;
    assert Plain([], src[i]);
    ScanClosed(src, i + 1, src[i], []);
    StringRoundTrip(src[i], d, []);
    assert [src[i]] + Quote(d) + [src[i]] + [] == [src[i]] + Quote(d) + [src[i]];
  }

  /**
   * The error cases of a string: end of input before the closing delimiter,
   * a backslash as the last byte, and a backslash before any byte other than
   * the six escape letters.
   */
  lemma StringErrors(src: seq<u8>, k: nat, end: u8, data: seq<u8>)
    requires k <= |src| && (end == DQUOTE || end == QUOTE)
    ensures (forall m | k <= m < |src| :: src[m] != end) ==> ScanString(src, k, end, data).Err?
    ensures k + 1 == |src| && src[k] == BACKSLASH ==> ScanString(src, k, end, data) == Err(A)
    ensures k + 1 < |src| && src[k] == BACKSLASH && Unescape(src[k + 1]).None? ==>
      ScanString(src, k, end, data) == Err(A)
  {
    ScanClosed(src, k, end, data);
  }

  // ---------------------------------------------------------------------
  // Errors
  // ---------------------------------------------------------------------

  /**
   * The table fails exactly on a string that does not scan, or on a byte that
   * neither opens an operator nor an identifier nor a string.
   */
  lemma ErrorIff(src: seq<u8>, i: nat)
    requires i < |src| && !IsSpace(src[i])
    ensures Classify(src, i).Err? <==>
      if src[i] == DQUOTE || src[i] == QUOTE then ScanString(src, i + 1, src[i], []).Err?
      else !IsOperatorLead(src[i]) && !IsIden(src[i], true)
  {
    if IsOperatorLead(src[i]) && !OpensComment(src, i) {
      ClassifyOperator(src, i);
      OperatorLeads(src, i);
    }
  }

  // ---------------------------------------------------------------------
  // Worked inputs
  // ---------------------------------------------------------------------

  /** `>=` is one Ge token of length 2, not Gt followed by Assign. */
  lemma GreaterEqualExample()
    ensures Lex([0x3E, 0x3D], 0) == Ok((Ge, 2))
  {
  }

  /** `.`, `..` and `...` at the end of input. */
  lemma DotFamilyExample()
    ensures Lex([DOT], 0) == Ok((Dot, 1))
    ensures Lex([DOT, DOT], 0) == Ok((Concat, 2))
    ensures Lex([DOT, DOT, DOT], 0) == Ok((Varg, 3))
  {
  }

  /** `for1` is one identifier of length 4, while `for` alone is a keyword. */
  lemma ForOneExample()
    ensures Lex([0x66, 0x6F, 0x72, 0x31], 0) == Ok((Identifier(Span(0, 4)), 4))
    ensures Lex([0x66, 0x6F, 0x72], 0) == Ok((Keyword(Span(0, 3)), 3))
  {
    var src := [0x66, 0x6F, 0x72, 0x31];
    IdentifierExtent(src, 0, 4);
    assert !IsKeyword(src[0..4]) by {
      forall k | 0 <= k < 22 ensures Keywords[k] != src[0..4] {
        if |Keywords[k]| == 4 {
          assert Keywords[k][3] != 0x31;
        }
      }
    }
    KeywordScanned(7, []);
    assert Keywords[7] + [] == [0x66, 0x6F, 0x72];
  }

  /** `-- note`, a line feed, and `local`. */
  const NoteThenLocal: seq<u8> := [0x2D, 0x2D, 0x20, 0x6E, 0x6F, 0x74, 0x65, 0x0A, 0x6C, 0x6F, 0x63, 0x61, 0x6C]

  /** The comment `-- note` is 7 bytes long: the line feed after it is not part of it. */
  lemma CommentExample()
    ensures Lex(NoteThenLocal, 0) == Ok((Comment(Span(0, 7)), 7))
  {
    SkipSpaceExact(NoteThenLocal, 0, 0);
    CommentExtent(NoteThenLocal, 0, 7);
  }

  /** After the comment, the line feed is skipped and the keyword `local` follows. */
  lemma KeywordAfterCommentExample()
    ensures SkipSpace(NoteThenLocal, 7) == 8
    ensures Lex(NoteThenLocal, 7) == Ok((Keyword(Span(8, 5)), 5))
  {
    var src := NoteThenLocal;
    SkipSpaceExact(src, 7, 8);
    var local := Keywords[12];
    KeywordScanned(12, []);
    assert local + [] == local;
    SkipSpaceExact(local, 0, 0);
    assert src == src[..8] + local;
    ClassifyAfter(src[..8], local);
  }

  /** The escape `\n` between `a` and `b` decodes to a line feed; the token spans all 6 bytes. */
  lemma EscapeExample()
    ensures Lex([DQUOTE, 0x61, BACKSLASH, 0x6E, 0x62, DQUOTE], 0) == Ok((String([0x61, 0x0A, 0x62]), 6))
  {
    var data: seq<u8> := [0x61, 0x0A, 0x62];
    assert Quote(data) == [0x61, BACKSLASH, 0x6E, 0x62];
    StringRoundTrip(DQUOTE, data, []);
    assert [DQUOTE] + Quote(data) + [DQUOTE] + [] == [DQUOTE, 0x61, BACKSLASH, 0x6E, 0x62, DQUOTE];
  }
}
