/** Escape sequences in string and character literals (crates/tessera-lexer/src/token.rs, `unescape`).
    A `char` is a Unicode scalar value. */
module Unescape {
  import opened Options

  predicate IsHex(c: char) {
    '0' <= c <= '9' || 'a' <= c <= 'f' || 'A' <= c <= 'F'
  }

  function DigitValue(c: char): (v: nat)
    requires IsHex(c)
    ensures v < 16
  {
    if c <= '9' then c as int - '0' as int
    else if 'a' <= c then c as int - 'a' as int + 10
    else c as int - 'A' as int + 10
  }

  predicate AllHex(s: string) {
    forall k :: 0 <= k < |s| ==> IsHex(s[k])
  }

  /** `u32::from_str_radix(s, 16)` on a string of hexadecimal digits. */
  function HexValue(s: string): nat
    requires AllHex(s)
  {
    if s == "" then 0 else 16 * HexValue(s[..|s| - 1]) + DigitValue(s[|s| - 1])
  }

  predicate IsScalar(v: nat) {
    v < 0xD800 || 0xE000 <= v < 0x11_0000
  }

  /** The character a `\u{…}` with these digits stands for, if it stands for one. */
  function Scalar(hex: string): Option<char>
    requires AllHex(hex)
  {
    if hex != "" && IsScalar(HexValue(hex)) then Some(HexValue(hex) as char) else None
  }

  function Named(c: char): Option<char> {
    match c
    case 'n' => Some('\n')
    case 't' => Some('\t')
    case 'r' => Some('\r')
    case '"' => Some('"')
    case '\'' => Some('\'')
    case '\\' => Some('\\')
    case '0' => Some('\0')
    case _ => None
  }

  const MAX_DIGITS := 6

  /** How many hexadecimal digits the scanner takes from the front, at most `room`. */
  function HexRun(s: string, room: nat): (n: nat)
    ensures n <= |s| && n <= room && AllHex(s[..n])
    ensures n < room && n < |s| ==> !IsHex(s[n])
  {
    if room == 0 || s == "" || !IsHex(s[0]) then 0 else 1 + HexRun(s[1..], room - 1)
  }

  /** `\u` at the front of the text: what is put out, and how much is read. */
  function HeadOfCode(s: string): (r: (string, nat))
    requires |s| >= 2
    ensures 2 <= r.1 <= |s|
  {
    if |s| == 2 || s[2] != '{' then ("\\u", 2)
    else
      var n := HexRun(s[3..], MAX_DIGITS);
      var hex := s[3..][..n];
      if 3 + n < |s| && s[3 + n] == '}' then
        (match Scalar(hex) case Some(c) => [c] case None => "\\u{" + hex + "}", 3 + n + 1)
      else
        ("\\u{" + hex, 3 + n)
  }

  /** One round of the loop. */
  function Head(s: string): (r: (string, nat))
    requires s != ""
    ensures 1 <= r.1 <= |s|
  {
    if s[0] != '\\' then ([s[0]], 1)
    else if |s| == 1 then ("\\", 1)
    else if Named(s[1]).Some? then ([Named(s[1]).value], 2)
    else if s[1] != 'u' then (['\\', s[1]], 2)
    else HeadOfCode(s)
  }

  /** What the loop makes of the text. */
  function Meaning(s: string): string {
    if s == "" then "" else Head(s).0 + Meaning(s[Head(s).1..])
  }

  // ── A grammar of escaped text ──────────────────────────────────────────────

  datatype Piece =
    | Plain(c: char)                  // any character but a backslash
    | Letter(letter: char)            // \n \t \r \" \' \\ \0
    | Code(hex: string)               // \u{…}, one to six digits, a scalar value
    // the malformed ones
    | Unknown(letter: char)           // a backslash before any other character
    | BareU                           // \u without an opening brace
    | NoScalar(hex: string)           // \u{…} that names no scalar value
    | Unclosed(hex: string)           // \u{… cut short
    | Backslash                       // at the very end

  function Text(p: Piece): string {
    match p
    case Plain(c) => [c]
    case Letter(l) => ['\\', l]
    case Code(hex) => "\\u{" + hex + "}"
    case Unknown(l) => ['\\', l]
    case BareU => "\\u"
    case NoScalar(hex) => "\\u{" + hex + "}"
    case Unclosed(hex) => "\\u{" + hex
    case Backslash => "\\"
  }

  predicate HexField(s: string) {
    |s| <= MAX_DIGITS && AllHex(s)
  }

  /** `p` can stand before the text `rest`. */
  predicate Fits(p: Piece, rest: string) {
    match p
    case Plain(c) => c != '\\'
    case Letter(l) => Named(l).Some?
    case Code(hex) => HexField(hex) && Scalar(hex).Some?
    case Unknown(l) => Named(l).None? && l != 'u'
    case BareU => rest == "" || rest[0] != '{'
    case NoScalar(hex) => HexField(hex) && Scalar(hex).None?
    case Unclosed(hex) => HexField(hex) && (rest == "" || (rest[0] != '}' && (|hex| == MAX_DIGITS || !IsHex(rest[0]))))
    case Backslash => rest == ""
  }

  /** A well-formed piece stands for one character; a malformed one for itself, letter by letter. */
  function Denotes(p: Piece): string
    requires p.Letter? ==> Named(p.letter).Some?
    requires p.Code? ==> AllHex(p.hex) && Scalar(p.hex).Some?
  {
    match p
    case Plain(c) => [c]
    case Letter(l) => [Named(l).value]
    case Code(hex) => [Scalar(hex).value]
    case _ => Text(p)
  }

  function TextOf(ps: seq<Piece>): string {
    if ps == [] then "" else Text(ps[0]) + TextOf(ps[1..])
  }

  predicate WellFormed(ps: seq<Piece>) {
    ps == [] || (Fits(ps[0], TextOf(ps[1..])) && WellFormed(ps[1..]))
  }

  function DenotesAll(ps: seq<Piece>): string
    requires WellFormed(ps)
  {
    if ps == [] then "" else Denotes(ps[0]) + DenotesAll(ps[1..])
  }

  lemma {:induction false} HexRunTakesField(hex: string, rest: string, room: nat)
    requires AllHex(hex) && |hex| <= room
    requires |hex| == room || rest == "" || !IsHex(rest[0])
    ensures HexRun(hex + rest, room) == |hex|
  {
    var s := hex + rest;
    if hex == "" {
      assert s == rest;
    } else {
      assert s[1..] == hex[1..] + rest;
      HexRunTakesField(hex[1..], rest, room - 1);
    }
  }

  lemma ClosedCodeHead(p: Piece, rest: string)
    requires (p.Code? || p.NoScalar?) && Fits(p, rest)
    ensures HeadOfCode(Text(p) + rest) == (Denotes(p), |Text(p)|)
  {
    var s, hex, tail := Text(p) + rest, p.hex, "}" + rest;
    assert s[3..] == hex + tail;
    HexRunTakesField(hex, tail, MAX_DIGITS);
    assert s[3..][..|hex|] == hex;
    assert s[3 + |hex|] == '}';
  }

  lemma UnclosedHead(hex: string, rest: string)
    requires Fits(Unclosed(hex), rest)
    ensures HeadOfCode(Text(Unclosed(hex)) + rest) == (Text(Unclosed(hex)), 3 + |hex|)
  {
    var s := Text(Unclosed(hex)) + rest;
    assert s[3..] == hex + rest;
    HexRunTakesField(hex, rest, MAX_DIGITS);
    assert s[3..][..|hex|] == hex;
    assert rest != "" ==> s[3 + |hex|] == rest[0];
  }

  lemma PieceHead(p: Piece, rest: string)
    requires Fits(p, rest)
    ensures Head(Text(p) + rest) == (Denotes(p), |Text(p)|)
  {
    if p.Code? || p.NoScalar? { ClosedCodeHead(p, rest); }
    if p.Unclosed? { UnclosedHead(p.hex, rest); }
  }

  /** One piece in front of any text it fits. */
  lemma PieceMeaning(p: Piece, rest: string)
    requires Fits(p, rest)
    ensures Meaning(Text(p) + rest) == Denotes(p) + Meaning(rest)
  {
    PieceHead(p, rest);
    assert (Text(p) + rest)[|Text(p)|..] == rest;
  }

  /** Whatever mixture of plain, escaped and malformed pieces a text is made of: every escape becomes
      its character and every malformed one is preserved verbatim. */
  lemma {:induction false} UnescapesEveryPiece(ps: seq<Piece>)
    requires WellFormed(ps)
    ensures Meaning(TextOf(ps)) == DenotesAll(ps)
  {
    if ps != [] {
      UnescapesEveryPiece(ps[1..]);
      PieceMeaning(ps[0], TextOf(ps[1..]));
    }
  }

  /** The piece a text begins with. */
  lemma FirstPiece(s: string) returns (p: Piece)
    requires s != ""
    ensures 0 < |Text(p)| <= |s| && s[..|Text(p)|] == Text(p) && Fits(p, s[|Text(p)|..])
  {
    if s[0] != '\\' { p := Plain(s[0]); }
    else if |s| == 1 { p := Backslash; }
    else if Named(s[1]).Some? { p := Letter(s[1]); }
    else if s[1] != 'u' { p := Unknown(s[1]); }
    else if |s| == 2 || s[2] != '{' { p := BareU; }
    else {
      var n := HexRun(s[3..], MAX_DIGITS);
      var hex := s[3..][..n];
      assert s[3..][n..] == s[3 + n..];
      if 3 + n < |s| && s[3 + n] == '}' {
        p := if Scalar(hex).Some? then Code(hex) else NoScalar(hex);
      } else {
        p := Unclosed(hex);
      }
    }
  }

  /** Every text is made of such pieces, so the grammar leaves nothing out. */
  lemma {:induction false} EveryTextHasPieces(s: string) returns (ps: seq<Piece>)
    ensures WellFormed(ps) && TextOf(ps) == s
    decreases |s|
  {
    if s == "" { return []; }
    var p := FirstPiece(s);
    var rest := EveryTextHasPieces(s[|Text(p)|..]);
    ps := [p] + rest;
    assert ps[1..] == rest;
  }

  // ── The tables, by what they say of texts ─────────────────────────────────

  /** The letters that stand for a character, and the codes of these. */
  const LETTERS: map<char, int> := map['n' := 10, 't' := 9, 'r' := 13, '"' := 34, '\'' := 39, '\\' := 92, '0' := 0]

  lemma NamedLetters(letter: char)
    ensures Named(letter) == if letter in LETTERS then Some(LETTERS[letter] as char) else None
  {
  }

  /** A letter escape is one character, by its code; before any other letter but `u` the backslash stays. */
  lemma LetterEscapes(letter: char, rest: string)
    requires letter != 'u'
    ensures Meaning(['\\', letter] + rest)
         == (if letter in LETTERS then [LETTERS[letter] as char] else ['\\', letter]) + Meaning(rest)
  {
    NamedLetters(letter);
    var p := if letter in LETTERS then Letter(letter) else Unknown(letter);
    assert Fits(p, rest);
    PieceMeaning(p, rest);
    assert Text(p) == ['\\', letter];
  }

  /** A hexadecimal digit is one of sixteen, in either case, and its value is its place among them. */
  lemma HexDigits(c: char)
    ensures IsHex(c) <==> c in "0123456789abcdef" || c in "0123456789ABCDEF"
    ensures IsHex(c) ==> "0123456789abcdef"[DigitValue(c)] == c || "0123456789ABCDEF"[DigitValue(c)] == c
  {
    if IsHex(c) {
      assert "0123456789abcdef"[DigitValue(c)] == c || "0123456789ABCDEF"[DigitValue(c)] == c;
    } else {
      assert forall i :: 0 <= i < 16 ==> IsHex("0123456789abcdef"[i]) && IsHex("0123456789ABCDEF"[i]);
    }
  }

  /** The number a sequence of digits writes, from the front. */
  function Horner(value: nat, hex: string): nat
    requires AllHex(hex)
    decreases |hex|
  {
    if hex == "" then value else Horner(16 * value + DigitValue(hex[0]), hex[1..])
  }

  lemma {:induction false} HexValueFromTheFront(hex: string)
    requires AllHex(hex)
    ensures Horner(0, hex) == HexValue(hex)
    decreases |hex|
  {
    if hex != "" {
      var n := |hex| - 1;
      HexValueFromTheFront(hex[..n]);
      HornerSnoc(0, hex[..n], hex[n]);
      assert hex[..n] + [hex[n]] == hex;
    }
  }

  lemma {:induction false} HornerSnoc(value: nat, hex: string, digit: char)
    requires AllHex(hex) && IsHex(digit)
    ensures Horner(value, hex + [digit]) == 16 * Horner(value, hex) + DigitValue(digit)
    decreases |hex|
  {
    if hex != "" {
      assert (hex + [digit])[1..] == hex[1..] + [digit];
      HornerSnoc(16 * value + DigitValue(hex[0]), hex[1..], digit);
    }
  }

  /** `\u{…}` with one to six digits is the character of that number, if it is a scalar value, and stays
      as it is otherwise. */
  lemma CodeEscapes(hex: string, rest: string)
    requires AllHex(hex) && |hex| <= 6
    ensures var v := Horner(0, hex);
      Meaning("\\u{" + hex + "}" + rest)
      == (if hex != "" && (v < 0xD800 || 0xE000 <= v <= 0x10_FFFF) then [v as char] else "\\u{" + hex + "}") + Meaning(rest)
  {
    HexValueFromTheFront(hex);
    var p := if Scalar(hex).Some? then Code(hex) else NoScalar(hex);
    assert Fits(p, rest);
    PieceMeaning(p, rest);
    assert Text(p) == "\\u{" + hex + "}";
  }

  /** With more digits it is never a code. */
  lemma SevenDigitsAreNoCode(hex: string, rest: string)
    requires AllHex(hex) && |hex| > 6
    ensures Meaning("\\u{" + hex + rest) == "\\u{" + hex[..6] + Meaning(hex[6..] + rest)
  {
    var p := Unclosed(hex[..6]);
    assert (hex[6..] + rest)[0] == hex[6];
    assert IsHex(hex[6]);
    assert Fits(p, hex[6..] + rest);
    PieceMeaning(p, hex[6..] + rest);
    assert Text(p) + (hex[6..] + rest) == "\\u{" + hex + rest by { assert hex[..6] + hex[6..] == hex; }
  }

  // ── Round trip ─────────────────────────────────────────────────────────────

  const DIGITS: string := "0123456789abcdef"

  /** `n` hexadecimal digits of a number. */
  function HexOf(v: nat, n: nat): (s: string)
    ensures |s| == n && AllHex(s)
  {
    if n == 0 then "" else HexOf(v / 16, n - 1) + [DIGITS[v % 16]]
  }

  function Power16(n: nat): nat {
    if n == 0 then 1 else 16 * Power16(n - 1)
  }

  lemma {:induction false} HexOfRoundTrip(v: nat, n: nat)
    requires v < Power16(n)
    ensures HexValue(HexOf(v, n)) == v
  {
    if n > 0 {
      HexOfRoundTrip(v / 16, n - 1);
      var s := HexOf(v, n);
      assert s[..|s| - 1] == HexOf(v / 16, n - 1);
    }
  }

  /** Every character has a six-digit code. */
  lemma EveryCharacterHasACode(c: char)
    ensures Fits(Code(HexOf(c as int, 6)), "") && Scalar(HexOf(c as int, 6)) == Some(c)
  {
    assert Power16(6) == 0x100_0000 by {
      assert Power16(2) == 256;
      assert Power16(4) == 0x1_0000;
    }
    HexOfRoundTrip(c as int, 6);
  }

  /** The ways a writer may put one character: as itself, as a letter escape, or as a code. */
  predicate Writes(p: Piece, c: char) {
    (p.Plain? || p.Letter? || p.Code?) && Fits(p, "") && Denotes(p) == [c]
  }

  /** Any choice of spelling for every character of a string reads back as that string. */
  lemma {:induction false} EscapeRoundTrip(s: string, spelling: seq<Piece>)
    requires |spelling| == |s| && forall k :: 0 <= k < |s| ==> Writes(spelling[k], s[k])
    ensures WellFormed(spelling) && Meaning(TextOf(spelling)) == s
  {
    if s != "" {
      EscapeRoundTrip(s[1..], spelling[1..]);
      assert Fits(spelling[0], TextOf(spelling[1..]));
      PieceMeaning(spelling[0], TextOf(spelling[1..]));
    }
  }

  // ── The loop itself ────────────────────────────────────────────────────────

  method ScanHex(s: string, start: nat) returns (hex: string, closed: bool, next: nat)
    requires start <= |s|
    ensures hex == s[start..][..HexRun(s[start..], MAX_DIGITS)]
    ensures closed <==> start + |hex| < |s| && s[start + |hex|] == '}'
    ensures next == start + |hex| + (if closed then 1 else 0) && next <= |s|
  {
    hex, closed := "", false;
    var i := start;
    while i < |s| && !closed
      invariant start <= i <= |s| && |hex| <= MAX_DIGITS && AllHex(hex)
      invariant !closed ==> i == start + |hex| && hex == s[start..i]
      invariant closed ==> i == start + |hex| + 1 && s[i - 1] == '}' && hex == s[start..i - 1]
    {
      if s[i] == '}' {
        i, closed := i + 1, true;
      } else if !IsHex(s[i]) || |hex| >= MAX_DIGITS {
        break;
      } else {
        hex := hex + [s[i]];
        i := i + 1;
      }
    }
    next := i;
    var rest := s[start + |hex|..];
    assert s[start..] == hex + rest;
    HexRunTakesField(hex, rest, MAX_DIGITS);
  }

  /** The body of the loop, at a position inside the text. */
  method ReadOne(s: string, start: nat) returns (piece: string, next: nat)
    requires start < |s|
    ensures start < next <= |s| && (piece, next - start) == Head(s[start..])
  {
    ghost var rest := s[start..];
    next := start + 1;
    if s[start] != '\\' { return [s[start]], next; }
    if next == |s| { return "\\", next; }
    var e := s[next];
    next := next + 1;
    if Named(e).Some? { return [Named(e).value], next; }
    if e != 'u' { return ['\\', e], next; }
    if next == |s| || s[next] != '{' { return "\\u", next; }
    assert rest[3..] == s[next + 1..];
    var hex, closed, after := ScanHex(s, next + 1);
    if !closed { return "\\u{" + hex, after; }
    match Scalar(hex)
    case Some(ch) => return [ch], after;
    case None => return "\\u{" + hex + "}", after;
  }

  method UnescapeText(s: string) returns (out: string)
    ensures out == Meaning(s)
  {
    out := "";
    var i := 0;
    while i < |s|
      invariant 0 <= i <= |s|
      invariant out + Meaning(s[i..]) == Meaning(s)
      decreases |s| - i
    {
      ghost var rest := s[i..];
      var piece, next := ReadOne(s, i);
      MeaningAt(s, i, piece, next);
      assert (out + piece) + Meaning(s[next..]) == out + Meaning(rest);
      out := out + piece;
      i := next;
    }
    assert s[i..] == "";
  }

  lemma MeaningAt(s: string, start: nat, piece: string, next: nat)
    requires start < next <= |s| && (piece, next - start) == Head(s[start..])
    ensures Meaning(s[start..]) == piece + Meaning(s[next..])
  {
    assert s[start..][next - start..] == s[next..];
  }
}
