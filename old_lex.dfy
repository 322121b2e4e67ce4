/**
 * The byte-level scanner of the Lua dialect (src/parser/old_lex.rs).
 *
 * The source text is a sequence of bytes.  The scanner's answer at a cursor
 * position is given twice: once as the pure decision table `Lex` (whitespace
 * skipping `SkipSpace` followed by `Classify`), and once as the class `Lexer`
 * whose `ReadToken` method scans with loops, as the original does, and is
 * proved to return exactly what the table says.
 */
module OldLex {
  import opened Bytes

  // Bytes the scanner dispatches on.
  const LF: u8 := 0x0A
  const CR: u8 := 0x0D
  const SPACE: u8 := 0x20
  const DQUOTE: u8 := 0x22  // "
  const QUOTE: u8 := 0x27  // '
  const BACKSLASH: u8 := 0x5C  // \
  const DOT: u8 := 0x2E  // .
  const DASH: u8 := 0x2D  // -
  const EQUALS: u8 := 0x3D  // =
  const GREATER: u8 := 0x3E  // >
  const LESS: u8 := 0x3C  // <
  const TILDE: u8 := 0x7E  // ~
  const SLASH: u8 := 0x2F  // /
  const UNDERSCORE: u8 := 0x5F  // _

  /** The 22 reserved words, spelled in ASCII bytes, in the order of the original table. */
  const Keywords: seq<seq<u8>> := [
    [0x61, 0x6e, 0x64],                                // and
    [0x62, 0x72, 0x65, 0x61, 0x6b],                    // break
    [0x64, 0x6f],                                      // do
    [0x65, 0x6c, 0x73, 0x65],                          // else
    [0x65, 0x6c, 0x73, 0x65, 0x69, 0x66],              // elseif
    [0x65, 0x6e, 0x64],                                // end
    [0x66, 0x61, 0x6c, 0x73, 0x65],                    // false
    [0x66, 0x6f, 0x72],                                // for
    [0x66, 0x75, 0x6e, 0x63, 0x74, 0x69, 0x6f, 0x6e],  // function
    [0x67, 0x6f, 0x74, 0x6f],                          // goto
    [0x69, 0x66],                                      // if
    [0x69, 0x6e],                                      // in
    [0x6c, 0x6f, 0x63, 0x61, 0x6c],                    // local
    [0x6e, 0x69, 0x6c],                                // nil
    [0x6e, 0x6f, 0x74],                                // not
    [0x6f, 0x72],                                      // or
    [0x72, 0x65, 0x70, 0x65, 0x61, 0x74],              // repeat
    [0x72, 0x65, 0x74, 0x75, 0x72, 0x6e],              // return
    [0x74, 0x68, 0x65, 0x6e],                          // then
    [0x74, 0x72, 0x75, 0x65],                          // true
    [0x75, 0x6e, 0x74, 0x69, 0x6c],                    // until
    [0x77, 0x68, 0x69, 0x6c, 0x65]                     // while
  ]

  /** `w` is one of the reserved words: the lookup in the keyword table. */
  predicate IsKeyword(w: seq<u8>) {
    exists k | 0 <= k < 22 :: Keywords[k] == w
  }

  /** A decimal digit. */
  predicate IsDigit(b: u8) {
    0x30 <= b <= 0x39  // '0'..'9'
  }

  /** An ASCII letter of either case. */
  predicate IsLetter(b: u8) {
    (0x61 <= b <= 0x7A) || (0x41 <= b <= 0x5A)  // 'a'..'z', 'A'..'Z'
  }

  /**
   * A byte that may occur in an identifier; digits are admitted only after
   * the first byte.
   */
  predicate IsIden(b: u8, isFirst: bool): (r: bool)
    ensures isFirst && r ==> !IsDigit(b)
    ensures isFirst ==> (r <==> IsLetter(b) || b == UNDERSCORE)
    ensures !isFirst ==> (r <==> IsLetter(b) || b == UNDERSCORE || IsDigit(b))
  {
    (!isFirst && b >= 0x30 && b <= 0x39) ||  // '0'..'9'
    (b >= 0x61 && b <= 0x7A) ||  // 'a'..'z'
    (b >= 0x41 && b <= 0x5A) ||  // 'A'..'Z'
    b == UNDERSCORE
  }

  /** Whitespace: horizontal tab, line feed, vertical tab, form feed, carriage return, space. */
  predicate IsSpace(b: u8): (r: bool)
    ensures r <==> b in {0x09, 0x0A, 0x0B, 0x0C, 0x0D, 0x20}
    ensures r ==> !IsIden(b, false)
  {
    (b >= 9 && b <= 13) || b == 32
  }

  /** A byte that ends a line comment. */
  predicate IsLineEnd(b: u8) {
    b == LF || b == CR
  }

  /** A reference (start, length) into the source text. */
  datatype Span = Span(start: nat, len: nat)

  /** The tokens the scanner produces (numeric literals are not modelled). */
  datatype Token =
    | Identifier(span: Span)
    | Keyword(span: Span)
    | Comment(span: Span)
    | String(data: seq<u8>)
    | Add | Sub | Mul | Pow | Div | Idiv | Mod
    | Band | Bor | Bnot | Shl | Shr
    | Lt | Gt | Le | Ge
    | Concat | Dot | Varg
    | Neq | Eq | Len
    | Open | Close
    | SquareOpen | SquareClose
    | CurlyOpen | CurlyClose
    | Assign
    | Eof

  /** The error reasons of the original; every failure it reports is `A`. */
  datatype Reason = A | B | C

  /** The outcome of one scan: a token and the number of bytes it consumed, or an error. */
  datatype Result<T> = Ok(value: T) | Err(reason: Reason)

  /** The tokens that carry a span of the source. */
  predicate HasSpan(t: Token) {
    t.Identifier? || t.Keyword? || t.Comment?
  }

  /** The byte at position `k`, or `None` once the stream is exhausted. */
  function At(src: seq<u8>, k: nat): (r: Option<u8>)
    ensures r.Some? <==> k < |src|
    ensures r.Some? ==> r.value == src[k]
  {
    if k < |src| then Some(src[k]) else None
  }

  /** The position of the first non-whitespace byte at or after `i`. */
  function SkipSpace(src: seq<u8>, i: nat): (j: nat)
    requires i <= |src|
    ensures i <= j <= |src|
    ensures forall k | i <= k < j :: IsSpace(src[k])
    ensures j == |src| || !IsSpace(src[j])
    decreases |src| - i
  {
    if i < |src| && IsSpace(src[i]) then SkipSpace(src, i + 1) else i
  }

  /** The number of bytes from `k` up to (not including) the next LF, CR or the end. */
  function LineRest(src: seq<u8>, k: nat): (n: nat)
    requires k <= |src|
    ensures k + n <= |src|
    ensures forall m | k <= m < k + n :: !IsLineEnd(src[m])
    ensures k + n == |src| || IsLineEnd(src[k + n])
    decreases |src| - k
  {
    if k == |src| || IsLineEnd(src[k]) then 0 else 1 + LineRest(src, k + 1)
  }

  /** The number of identifier-continuation bytes from `k` on. */
  function IdenRest(src: seq<u8>, k: nat): (n: nat)
    requires k <= |src|
    ensures k + n <= |src|
    ensures forall m | k <= m < k + n :: IsIden(src[m], false)
    ensures k + n == |src| || !IsIden(src[k + n], false)
    decreases |src| - k
  {
    if k < |src| && IsIden(src[k], false) then 1 + IdenRest(src, k + 1) else 0
  }

  /** The byte an escape letter after a backslash stands for. */
  function Unescape(letter: u8): (r: Option<u8>)
    ensures r.Some? ==> 7 <= r.value <= 12
  {
    if letter == 0x61 then Some(7)  // a
    else if letter == 0x62 then Some(8)  // b
    else if letter == 0x66 then Some(12)  // f
    else if letter == 0x6E then Some(10)  // n
    else if letter == 0x74 then Some(9)  // t
    else if letter == 0x76 then Some(11)  // v
    else None
  }

  /** No byte of `s` is the delimiter `end` or a backslash. */
  predicate Plain(s: seq<u8>, end: u8) {
    forall m | 0 <= m < |s| :: s[m] != end && s[m] != BACKSLASH
  }

  /**
   * The body of a quoted string closed by the byte `end`, scanned from
   * position `k` on with the bytes `data` already collected: the collected
   * bytes, and the position just past the closing delimiter.
   */
  function ScanString(src: seq<u8>, k: nat, end: u8, data: seq<u8>): Result<(seq<u8>, nat)>
    requires k <= |src|
    decreases |src| - k
  {
    if k == |src| then Err(A)
    else if src[k] == end then Ok((data, k + 1))
    else match Decoded(src, k)
      case Err(e) => Err(e)
      case Ok(p) => ScanString(src, k + p.1, end, data + [p.0])
  }

  /**
   * The byte that the text at `k` inside a string stands for, with the width
   * of that text: a backslash and an escape letter stand for a control byte,
   * a backslash at the end of input or before another byte is an error, and
   * any other byte stands for itself.
   */
  function Decoded(src: seq<u8>, k: nat): (r: Result<(u8, nat)>)
    requires k < |src|
    ensures r.Ok? ==> k + r.value.1 <= |src|
    ensures r.Ok? && src[k] != BACKSLASH ==> r.value == (src[k], 1)
    ensures r.Ok? && src[k] == BACKSLASH ==> r.value.1 == 2 && 7 <= r.value.0 <= 12
    ensures r.Err? <==> src[k] == BACKSLASH && (k + 1 == |src| || Unescape(src[k + 1]).None?)
  {
    if src[k] == BACKSLASH then
      if k + 1 == |src| then Err(A)
      else match Unescape(src[k + 1])
        case None => Err(A)
        case Some(d) => Ok((d, 2))
    else Ok((src[k], 1))
  }

  /**
   * A scan that succeeds ends just past a delimiter inside the input, keeps
   * the bytes collected before it as a prefix, adds fewer bytes than it
   * consumed, and adds no delimiter or backslash.
   */
  lemma {:induction false} ScanClosed(src: seq<u8>, k: nat, end: u8, data: seq<u8>)
    requires k <= |src|
    ensures var r := ScanString(src, k, end, data);
      r.Ok? ==> k < r.value.1 <= |src| && src[r.value.1 - 1] == end
    ensures var r := ScanString(src, k, end, data);
      r.Ok? ==> |data| <= |r.value.0| < |data| + (r.value.1 - k) && r.value.0[..|data|] == data
    ensures var r := ScanString(src, k, end, data);
      r.Ok? && (end == DQUOTE || end == QUOTE) && Plain(data, end) ==> Plain(r.value.0, end)
    ensures var r := ScanString(src, k, end, data);
      r.Ok? && (end == DQUOTE || end == QUOTE) ==> forall m | k <= m < r.value.1 - 1 :: src[m] != end
    decreases |src| - k
  {
    if k < |src| && src[k] != end && Decoded(src, k).Ok? {
      var p := Decoded(src, k).value;
      ScanClosed(src, k + p.1, end, data + [p.0]);
      var r := ScanString(src, k + p.1, end, data + [p.0]);
      if r.Ok? {
        assert r.value.0[..|data|] == (r.value.0[..|data| + 1])[..|data|];
      }
    }
  }

  /** A line comment opened by `--` at `i`: the dashes and the rest of the line, without its terminator. */
  function CommentToken(src: seq<u8>, i: nat): (r: Result<(Token, nat)>)
    requires i + 2 <= |src|
    ensures r.Ok? && r.value.0.Comment? && r.value.0.span == Span(i, r.value.1)
    ensures 2 <= r.value.1 && i + r.value.1 <= |src|
    ensures forall m | i + 2 <= m < i + r.value.1 :: !IsLineEnd(src[m])
    ensures i + r.value.1 == |src| || IsLineEnd(src[i + r.value.1])
  {
    var n := 2 + LineRest(src, i + 2);
    Ok((Comment(Span(i, n)), n))
  }

  /**
   * An identifier starting at `i`: the maximal run of identifier bytes, a
   * keyword exactly when that run is one of the 22 reserved words.
   */
  function IdentifierToken(src: seq<u8>, i: nat): (r: Result<(Token, nat)>)
    requires i < |src|
    ensures r.Ok? && (r.value.0.Keyword? || r.value.0.Identifier?)
    ensures r.value.0.span == Span(i, r.value.1)
    ensures 1 <= r.value.1 && i + r.value.1 <= |src|
    ensures forall m | i < m < i + r.value.1 :: IsIden(src[m], false)
    ensures i + r.value.1 == |src| || !IsIden(src[i + r.value.1], false)
    ensures r.value.0.Keyword? <==> IsKeyword(src[i..i + r.value.1])
  {
    var n := 1 + IdenRest(src, i + 1);
    if IsKeyword(src[i..i + n]) then Ok((Keyword(Span(i, n)), n))
    else Ok((Identifier(Span(i, n)), n))
  }

  /** A quoted string opened at `i`: its decoded bytes and its length with both delimiters. */
  function StringToken(src: seq<u8>, i: nat): (r: Result<(Token, nat)>)
    requires i < |src|
    ensures r.Ok? ==> r.value.0.String? && 2 <= r.value.1 && i + r.value.1 <= |src|
    ensures r.Ok? ==> src[i + r.value.1 - 1] == src[i]
    ensures r.Ok? ==> |r.value.0.data| <= r.value.1 - 2
    ensures r.Ok? && (src[i] == DQUOTE || src[i] == QUOTE) ==>
      forall m | i < m < i + r.value.1 - 1 :: src[m] != src[i]
  {
    var s := ScanString(src, i + 1, src[i], []);
    ScanClosed(src, i + 1, src[i], []);
    if s.Ok? then Ok((String(s.value.0), s.value.1 - i)) else Err(s.reason)
  }

  /**
   * Punctuation and operators at `i`, each chosen by at most two bytes of
   * lookahead, and the error for a byte no arm accepts.
   */
  function OperatorToken(src: seq<u8>, i: nat): (r: Result<(Token, nat)>)
    requires i < |src|
    ensures r.Ok? ==> 1 <= r.value.1 <= 3 && i + r.value.1 <= |src|
    ensures r.Ok? ==> !HasSpan(r.value.0) && !r.value.0.String? && r.value.0 != Eof
  {
    var b := src[i];
    var next := At(src, i + 1);
    if b == 0x28 then Ok((Open, 1))  // (
    else if b == 0x29 then Ok((Close, 1))  // )
    else if b == 0x5B then Ok((SquareOpen, 1))  // [
    else if b == 0x5D then Ok((SquareClose, 1))  // ]
    else if b == 0x7B then Ok((CurlyOpen, 1))  // {
    else if b == 0x7D then Ok((CurlyClose, 1))  // }
    else if b == 0x2B then Ok((Add, 1))  // +
    else if b == 0x2A then Ok((Mul, 1))  // *
    else if b == 0x5E then Ok((Pow, 1))  // ^
    else if b == 0x25 then Ok((Mod, 1))  // %
    else if b == 0x7C then Ok((Bor, 1))  // |
    else if b == 0x23 then Ok((Len, 1))  // #
    else if b == 0x26 then Ok((Band, 1))  // &
    else if b == DOT then
      if next == Some(DOT) then
        if At(src, i + 2) == Some(DOT) then Ok((Varg, 3)) else Ok((Concat, 2))
      else Ok((Dot, 1))
    else if b == GREATER then
      if next == Some(GREATER) then Ok((Shr, 2))
      else if next == Some(EQUALS) then Ok((Ge, 2))
      else Ok((Gt, 1))
    else if b == LESS then
      if next == Some(LESS) then Ok((Shl, 2))
      else if next == Some(EQUALS) then Ok((Le, 2))
      else Ok((Lt, 1))
    else if b == TILDE then
      if next == Some(EQUALS) then Ok((Neq, 2)) else Ok((Bnot, 1))
    else if b == EQUALS then
      if next == Some(EQUALS) then Ok((Eq, 2)) else Ok((Assign, 1))
    else if b == SLASH then
      if next == Some(SLASH) then Ok((Idiv, 2)) else Ok((Div, 1))
    else if b == DASH then Ok((Sub, 1))
    else Err(A)
  }

  /** True when a line comment starts at `i`. */
  predicate OpensComment(src: seq<u8>, i: nat) {
    i + 1 < |src| && src[i] == DASH && src[i + 1] == DASH
  }

  /**
   * The decision table: the token that starts at position `i`, which is not
   * whitespace, and its length in bytes.  The comment arm is tried before
   * the others, where the original reaches it only below `-`: a dash opens
   * both `Sub` and a comment, so the operator arm comes after the comment
   * test, and it answers `Sub` for a dash that opens no comment.  The bytes
   * that open a string, an identifier and an operator are disjoint, so the
   * remaining order does not matter.
   */
  function Classify(src: seq<u8>, i: nat): (r: Result<(Token, nat)>)
    requires i <= |src|
    requires i == |src| || !IsSpace(src[i])
    ensures r.Ok? ==> i + r.value.1 <= |src|
    ensures r.Ok? ==> (r.value.0 == Eof <==> i == |src|)
    ensures r.Ok? && i < |src| ==> 1 <= r.value.1
    ensures r.Ok? && HasSpan(r.value.0) ==> r.value.0.span == Span(i, r.value.1)
  {
    if i == |src| then Ok((Eof, 0))
    else if OpensComment(src, i) then CommentToken(src, i)
    else if src[i] == DQUOTE || src[i] == QUOTE then StringToken(src, i)
    else if IsIden(src[i], true) then IdentifierToken(src, i)
    else OperatorToken(src, i)
  }

  /** What one `read_token` call at cursor `i` returns: skip whitespace, then classify. */
  function Lex(src: seq<u8>, i: nat): (r: Result<(Token, nat)>)
    requires i <= |src|
    ensures r.Ok? ==> SkipSpace(src, i) + r.value.1 <= |src|
    ensures r.Ok? ==> (r.value.0 == Eof <==> SkipSpace(src, i) == |src|)
    ensures r.Ok? && HasSpan(r.value.0) ==> r.value.0.span == Span(SkipSpace(src, i), r.value.1)
  {
    Classify(src, SkipSpace(src, i))
  }

  /** A scanner over a borrowed source with a byte cursor. */
  class Lexer {
    const source: seq<u8>
    var offset: nat

    /** A scanner positioned at the start of `source`. */
    constructor (source: seq<u8>)
      ensures this.source == source && offset == 0
    {
      this.source := source;
      offset := 0;
    }

    /** Moves the cursor forward by `len` bytes. */
    method Advance(len: nat)
      modifies this
      ensures offset == old(offset) + len
    {
      offset := offset + len;
    }

    /**
     * Skips the whitespace at the cursor (moving the cursor past it) and
     * scans the token that follows, without moving the cursor any further.
     */
    method ReadToken() returns (r: Result<(Token, nat)>)
      requires offset <= |source|
      modifies this
      ensures offset == SkipSpace(source, old(offset))
      ensures r == Classify(source, offset)
      decreases |source| - offset
    {
      if offset == |source| {
        return Ok((Eof, 0));
      }
      var b := source[offset];
      if IsSpace(b) {
        offset := offset + 1;
        r := ReadToken();
      } else if OpensComment(source, offset) {
        r := ScanComment();
      } else if b == DQUOTE || b == QUOTE {
        r := ScanQuoted(b);
      } else if IsIden(b, true) {
        r := ScanIdentifier();
      } else {
        r := OperatorToken(source, offset);
      }
    }

    /** The line-comment arm of `ReadToken`: counts the bytes up to the next LF, CR or the end. */
    method ScanComment() returns (r: Result<(Token, nat)>)
      requires offset + 2 <= |source|
      ensures r == CommentToken(source, offset)
    {
      var len := 2;
      while offset + len < |source| && !IsLineEnd(source[offset + len])
        invariant offset + len <= |source|
        invariant len + LineRest(source, offset + len) == 2 + LineRest(source, offset + 2)
        decreases |source| - len
      {
        len := len + 1;
      }
      r := Ok((Comment(Span(offset, len)), len));
    }

    /**
     * The identifier arm of `ReadToken`: counts the identifier bytes and
     * looks the span up in the keyword table.
     */
    method ScanIdentifier() returns (r: Result<(Token, nat)>)
      requires offset < |source|
      ensures r == IdentifierToken(source, offset)
    {
      var len := 1;
      while offset + len < |source| && IsIden(source[offset + len], false)
        invariant offset + len <= |source|
        invariant len + IdenRest(source, offset + len) == 1 + IdenRest(source, offset + 1)
        decreases |source| - len
      {
        len := len + 1;
      }
      assert len == 1 + IdenRest(source, offset + 1);
      var iden := source[offset..offset + len];
      if IsKeyword(iden) {
        r := Ok((Keyword(Span(offset, len)), len));
      } else {
        r := Ok((Identifier(Span(offset, len)), len));
      }
    }

    /**
     * The quoted-string arm of `ReadToken`: the cursor is on the opening
     * delimiter `end`; collects literal and escape-decoded bytes up to the
     * matching unescaped closing delimiter.
     */
    method ScanQuoted(end: u8) returns (r: Result<(Token, nat)>)
      requires offset < |source| && source[offset] == end
      requires end == DQUOTE || end == QUOTE
      ensures r == StringToken(source, offset)
    {
      var data: seq<u8> := [];
      var k := offset + 1;
      while true
        invariant offset + 1 <= k <= |source|
        invariant ScanString(source, offset + 1, end, []) == ScanString(source, k, end, data)
        decreases |source| - k
      {
        if k == |source| {
          return Err(A);
        }
        var c := source[k];
        if c == end {
          return Ok((String(data), k + 1 - offset));
        } else if c == BACKSLASH {
          if k + 1 == |source| {
            return Err(A);
          }
          match Unescape(source[k + 1]) {
            case None =>
              return Err(A);
            case Some(d) =>
              data := data + [d];
          }
          k := k + 2;
        } else {
          data := data + [c];
          k := k + 1;
        }
      }
    }
  }
}
