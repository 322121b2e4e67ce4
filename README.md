# A verified model of cyan's byte scanner and code buffer

This project models two parts of cyan, a Lua-dialect compiler with a JIT.

1. **The byte-level scanner** (`src/parser/old_lex.rs`). A `Lexer` holds a
   source text and a byte cursor. Each `read_token` call works in three steps:
   - It skips whitespace at the cursor, moving the cursor past it.
   - It recognises one token: punctuation or an operator (longest match,
     with at most two bytes of lookahead), a `--` line comment, a quoted
     string with backslash escapes, or an identifier or reserved word. At
     the end of input the token is `Eof`.
   - It returns the token with the number of bytes the token occupies.
     Bytes that start no token give the error `Reason::A`.
2. **The code buffer** (`src/jit/mem/mod.rs`). A `MappedRegion` is a
   zero-filled region of whole 4096-byte pages with a write cursor. `push`
   appends a byte at the cursor. Indexing reads or patches one byte. `From`
   sizes a region for a byte slice and pushes the slice into it.

The model comes in four files:

- `bytes.dfy` (module `Bytes`): a `u8` byte type and `Option`.
- `old_lex.dfy` (module `OldLex`): the scanner, given twice.
  - The pure decision table `Lex` is `Classify` after `SkipSpace`. It is
    built from one function per arm: `OperatorToken`, `CommentToken`,
    `StringToken` (over `ScanString`) and `IdentifierToken`.
  - The class `Lexer` has `ReadToken` and its looping arms (comment,
    identifier, string) as methods with loops, as in the original. Each
    method is proved to return exactly what the table says. The operator
    arm has no loop; `ReadToken` answers it with `OperatorToken` directly.
- `old_lex_properties.dfy` (module `OldLexProperties`): lemmas about the
  table.
  - Operators: longest match, and each operator token is spelled by the bytes
    it consumes.
  - Position independence of every arm. Leading whitespace is skipped.
  - Exact comment and identifier extents, and the keyword table.
  - A string round trip in both directions, and the error cases.
  - The end of input, and when the table fails.
  - Worked inputs.
- `mem.dfy` (module `Mem`): `MappedRegion` as a class over an `array<u8>`.
  It also holds the page-count arithmetic and the allocation-size finding
  below.

The scanner works on bytes: a Rust `&str` is modelled as `seq<u8>`, and a
span `&source[a..a+n]` as `Span(a, n)`.

### The string branch

The string branch of `read_token` (lines 189-212) cannot run as written:
- Its loop has no `break`. Its only exit is the error return at line 203,
  taken when a backslash is the last byte.
- The inner `match` after a backslash (line 196) has no arm for an unknown
  escape letter, and the outer `match` (line 194) has no arm for the end of
  input. Both are non-exhaustive, so the file does not compile as written.
- The delimiter `end` is bound but never compared with.

The model completes the branch in the way its visible parts point to:
- An unescaped byte equal to the opening delimiter ends the string.
- `\a \b \f \n \t \v` stand for bytes 7, 8, 12, 10, 9 and 11.
- Any other byte is kept verbatim.
- The end of input, a backslash as the last byte, and a backslash before any
  other byte are all `Err(A)`.
- The reported length counts every byte from the opening to the closing
  delimiter. As written, `len` only ever grows by 2 per escape.

The comment `-- note` before a line feed has length 7: the two dashes plus
five bytes, without the line feed (`CommentExample`).

`From` sizes its region as `len / PAGE_SIZE + 1` pages, with integer
division, so 1 byte gets one page and 4096 bytes get two (`PagesFor`).

## Model

| member | source | states |
|---|---|---|
| OldLex.IsIden | src/parser/old_lex.rs:11-17 | A first byte must be a letter or `_`. Later bytes may also be digits. So a first byte is never a digit. |
| OldLex.IsSpace | src/parser/old_lex.rs:19-22 | Whitespace is exactly bytes 9 to 13 and 32. No whitespace byte can be part of an identifier. |
| OldLex.At | src/parser/old_lex.rs:112-114 | The byte stream yields `None` exactly past the end of input, and otherwise the byte at that position. |
| OldLex.SkipSpace | src/parser/old_lex.rs:115-118 | The cursor moves over whitespace only, and stops at the end of input or at the first byte that is not whitespace. |
| OldLex.LineRest | src/parser/old_lex.rs:175-180 | The comment loop counts bytes that are not LF or CR, and stops at an LF, a CR or the end of input. |
| OldLex.IdenRest | src/parser/old_lex.rs:217-222 | The identifier loop counts the maximal run of identifier bytes. |
| OldLex.Unescape | src/parser/old_lex.rs:196-202 | The six escape letters decode to control bytes 7..12. |
| OldLex.Decoded | src/parser/old_lex.rs:195-209 | One step of the string loop. A byte other than a backslash stands for itself. A backslash and an escape letter stand for a control byte, over 2 bytes. It fails exactly on a backslash at the end of input or before a byte that is not an escape letter. |
| OldLex.ScanClosed | src/parser/old_lex.rs:193-211 | The contract of the string loop `ScanString`. A scan that succeeds ends just past a closing delimiter inside the input, and, for a quote delimiter, no byte it passed over equals the delimiter, so it stops at the first one. It adds fewer bytes than it consumed, keeps the bytes collected earlier as a prefix, and adds no delimiter or backslash. |
| OldLex.CommentToken | src/parser/old_lex.rs:171-184 | A `--` comment spans the dashes and the rest of the line, without the terminator. It is followed by LF, CR or the end of input. Its span starts at the cursor with the reported length. |
| OldLex.IdentifierToken | src/parser/old_lex.rs:214-230 | An identifier is the maximal run of identifier bytes, and its span is that run. The token is a `Keyword` exactly when the run is in the keyword table. |
| OldLex.StringToken | src/parser/old_lex.rs:189-212 | A string token ends on the first unescaped byte equal to its opening delimiter: no byte between the delimiters equals it. It is at least 2 bytes long, and it decodes to at most its length minus the two delimiters. |
| OldLex.OperatorToken | src/parser/old_lex.rs:120-187 | An operator or punctuation token takes 1 to 3 bytes, carries no span and is not `Eof`. |
| OldLex.Classify | src/parser/old_lex.rs:114-252 | Every token fits in the input. `Eof` comes exactly at the end of input. Any other token consumes at least one byte. A span always starts at the cursor and has the reported length. |
| OldLex.Lex | src/parser/old_lex.rs:111-253 | One `read_token` call: the token starts at the first byte after the whitespace and fits in the input, `Eof` comes exactly when only whitespace remains before the end, and a span starts where the token does with the reported length. |
| OldLex.Lexer.constructor | src/parser/old_lex.rs:93-98 | A new scanner holds the source with its cursor at 0. |
| OldLex.Lexer.Advance | src/parser/old_lex.rs:106-108 | The cursor moves forward by exactly `len`. |
| OldLex.Lexer.ReadToken | src/parser/old_lex.rs:111-253 | The cursor ends after the skipped whitespace. The result is the table's answer at that cursor. |
| OldLex.Lexer.ScanComment | src/parser/old_lex.rs:171-184 | The comment loop returns exactly `CommentToken`. |
| OldLex.Lexer.ScanIdentifier | src/parser/old_lex.rs:214-230 | The identifier loop and keyword lookup return exactly `IdentifierToken`. |
| OldLex.Lexer.ScanQuoted | src/parser/old_lex.rs:189-212 | The string loop returns exactly `StringToken`. |
| OldLexProperties.ClassifyOperator | src/parser/old_lex.rs:120-169 | At an operator lead that does not open a comment, the scanner takes the operator arm. |
| OldLexProperties.OperatorLeads | src/parser/old_lex.rs:120-187 | The operator arm succeeds exactly on the 20 operator lead bytes. |
| OldLexProperties.OperatorSpelled | src/parser/old_lex.rs:120-187 | Every operator token is a fixed token. Its length is that of its spelling, and its spelling occurs at the cursor. |
| OldLexProperties.LongestMatch | src/parser/old_lex.rs:135-169 | Suppose the spelling of some operator occurs at the cursor and no comment starts there. Then the scanner returns an operator spelled there that is at least as long. |
| OldLexProperties.SkipSpaceExact | src/parser/old_lex.rs:115-118 | Skipping stops exactly at the first byte after a whitespace run. |
| OldLexProperties.ClassifyAfter | src/parser/old_lex.rs:100-103 | The token depends only on the bytes from the cursor on. A prefix moves only the span. |
| OldLexProperties.LeadingWhitespace | src/parser/old_lex.rs:115-118 | A whitespace run before a token is skipped. The cursor lands on the token, whose length excludes the run. |
| OldLexProperties.EofIff | src/parser/old_lex.rs:252 | The result is `Eof` with length 0 exactly when only whitespace remains. |
| OldLexProperties.CommentExtent | src/parser/old_lex.rs:171-184 | A comment opened at `i` is exactly `[i, j)` for the first LF or CR at `j`, or for `j` at the end of input. |
| OldLexProperties.IdentifierExtent | src/parser/old_lex.rs:214-230 | A maximal identifier run `[i, j)` gives a token over exactly that run. It is a keyword exactly when the run is in the keyword table. |
| OldLexProperties.LeadingDigitIsError | src/parser/old_lex.rs:250 | A digit at the cursor opens no token and gives the error. |
| OldLexProperties.KeywordLookup | src/parser/old_lex.rs:226 | The keyword test `IsKeyword` holds exactly when the word is in the keyword table. |
| OldLexProperties.KeywordsAreNames | src/parser/old_lex.rs:4-9 | Every reserved word is at least 2 bytes long and is an identifier run that may open an identifier. |
| OldLexProperties.KeywordScanned | src/parser/old_lex.rs:224-228 | Each reserved word, followed by a byte that cannot continue an identifier or by the end of input, is one `Keyword` over exactly its bytes. |
| OldLexProperties.UnescapeInverse | src/parser/old_lex.rs:196-202 | A letter decodes to `d` exactly when `d` is in 7..12 and the letter is the escape for `d`. |
| OldLexProperties.QuoteVerbatim | src/parser/old_lex.rs:209 | Bytes outside 7..12 are written as themselves. |
| OldLexProperties.ScanStep | src/parser/old_lex.rs:195-209 | The written form of one byte that is neither the delimiter nor a backslash decodes to that byte. |
| OldLexProperties.ScanQuote | src/parser/old_lex.rs:193-211 | Scanning the written form of such bytes, followed by the delimiter, collects exactly those bytes and stops just past the delimiter. |
| OldLexProperties.StringRoundTrip | src/parser/old_lex.rs:189-212 | Bytes containing neither delimiter nor backslash are written with escapes and quoted. The result scans back to the same bytes, with a length that covers both delimiters. |
| OldLexProperties.ScanVerbatim | src/parser/old_lex.rs:193-211 | Bytes with no delimiter and no backslash, raw control bytes included, followed by the delimiter, are collected verbatim, and the scan stops just past the delimiter. |
| OldLexProperties.StringVerbatim | src/parser/old_lex.rs:189-212 | A quoted body with no delimiter and no backslash scans to exactly that body, with a length that covers both delimiters. |
| OldLexProperties.DecodedReencodes | src/parser/old_lex.rs:189-212 | A decoded string contains no delimiter or backslash. Its written form scans back to it. |
| OldLexProperties.StringErrors | src/parser/old_lex.rs:193-211 | A string scan fails when no closing delimiter follows, on a trailing backslash, and on a backslash before a byte that is not an escape letter. |
| OldLexProperties.ErrorIff | src/parser/old_lex.rs:250 | The scanner fails exactly in two cases: a string whose scan fails, or a byte that opens no operator, identifier or string. |
| OldLexProperties.GreaterEqualExample | src/parser/old_lex.rs:144-148 | `>=` is one `Ge` of length 2. |
| OldLexProperties.DotFamilyExample | src/parser/old_lex.rs:135-142 | `.`, `..` and `...` at the end of input are `Dot`, `Concat` and `Varg`. |
| OldLexProperties.ForOneExample | src/parser/old_lex.rs:214-230 | `for1` is an identifier of length 4, and `for` is a keyword of length 3. |
| OldLexProperties.CommentExample | src/parser/old_lex.rs:171-184 | `-- note` before a line feed is a comment of length 7. |
| OldLexProperties.KeywordAfterCommentExample | src/parser/old_lex.rs:115-118 | After the comment, the line feed is skipped, and `local` is a keyword at byte 8 of length 5. |
| OldLexProperties.EscapeExample | src/parser/old_lex.rs:195-204 | `"a\nb"` decodes to `a`, a line feed and `b`, and is 6 bytes long. |
| Mem.RegionSize | src/jit/mem/mod.rs:44 | A region of `pages` pages has `pages * 4096` bytes, a whole number of pages. |
| Mem.PagesFor | src/jit/mem/mod.rs:90 | `From` picks the least page count whose bytes outnumber the input. It is at least 1. |
| Mem.PagesForLeast | src/jit/mem/mod.rs:90 | Any page count that holds the input with room to spare is at least `PagesFor`. |
| Mem.MappedRegion.constructor | src/jit/mem/mod.rs:40-59 | A new region has exactly `pages * 4096` bytes, all zero, and its cursor is at 0. |
| Mem.MappedRegion.Push | src/jit/mem/mod.rs:61-65 | The byte at the cursor becomes `op` and every other byte stays. The cursor moves one byte on, and the page count stays. |
| Mem.MappedRegion.Index | src/jit/mem/mod.rs:74-80 | Reading at `idx` yields the byte stored there. |
| Mem.MappedRegion.IndexMut | src/jit/mem/mod.rs:82-86 | Writing at `idx` changes that byte only. The cursor and the page count stay. |
| Mem.MappedRegion.From | src/jit/mem/mod.rs:88-98 | The result is a fresh region of `PagesFor(len)` pages with the cursor at `len`. The bytes before the cursor are the input, in order, and every byte after it is zero. |
| Mem.AllocatedAsWritten | src/jit/mem/mod.rs:47-50 | The allocation as written is smaller than the region it stands for, for any positive page count. |
| Mem.AllocationTooSmall | src/jit/mem/mod.rs:44-50 | Built from `len >= 2` bytes, the region as written has fewer bytes than it is given, and two bytes already show this. With the intended size every byte fits. |

## Left out

- Numeric literals (`Token::Int`, `Token::Double`): old_lex.rs never produces them, so the model's `Token` has no such variants.
- The second string arm of `read_token` (lines 232-248): the first string arm catches the same bytes, so this arm can never run.
- The struct `T` (lines 80-84): nothing in the scanner uses it.
- `Reason::B` and `Reason::C` appear in the type, but, as in the original, every failure is `A`.
- UTF-8: the source is a Rust `&str`, and slicing it at a byte that is not a character boundary panics. The model works on bytes, so it has no such panic.
- OldLex.Lexer.ReadToken: requires the cursor to be within the source. The original's slice `self.source[self.offset..]` panics beyond the end.
- OldLex.Lexer.Advance: the `usize` cursor is unbounded here, so overflow is not modelled.
- OldLex.Lexer.ReadToken: the original recurses once per whitespace byte. The model keeps that recursion and bounds it by the input length; stack depth is not modelled.
- src/parser/lex.rs and src/runtime/mod.rs are not part of this model.
- Mem.MappedRegion.constructor: leaves out the calls to `posix_memalign`, `mprotect` and `memset`, their unchecked return codes, page alignment, execute permission and the uninitialised handle. The region is a fresh zero-filled array of the intended size (see Findings).
- Mem.RegionSize: `pages * PAGE_SIZE` is a `usize` product in the original and can overflow; here it is an unbounded integer, so the wrap-around is not modelled.
- Mem.MappedRegion.Push: requires the cursor to be inside the region. The original writes through a raw pointer without a check, which is undefined behaviour past the end.
- Mem.MappedRegion.Index: requires `idx` inside the region, for the same reason. The same holds for `IndexMut`.
- `Drop` for `MappedRegion` (lines 68-72): freeing memory, ownership, and running the code the buffer holds are not modelled.

## Findings

| source | as written | input that shows it | evidently intended | confidence | as-written member | corrected member |
|---|---|---|---|---|---|---|
| src/jit/mem/mod.rs:47-50 | `new` computes `size = pages * PAGE_SIZE` and then passes `pages` (a count, not bytes) to `posix_memalign`, `mprotect` and `memset`. A region of `pages` pages gets only `pages` bytes. | `MappedRegion::from(&[0x90, 0xC3])`: `pages = 2 / 4096 + 1 = 1`, so 1 byte is allocated, and the second `push` writes at offset 1, past the allocation. | Allocate, protect and zero `size` bytes, so every byte that `From` pushes lies inside the region. | not executed | Mem.AllocationTooSmall | Mem.MappedRegion.constructor |
