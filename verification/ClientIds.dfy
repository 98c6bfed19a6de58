/**
 Client identifiers: a UUID in any of its accepted spellings, and the canonical
 lower-case hyphenated text that every parsed identifier is rendered as.
 */
module ClientIds {
  import opened Common

  predicate IsHex(c: char) {
    '0' <= c <= '9' || 'a' <= c <= 'f' || 'A' <= c <= 'F'
  }

  function LowerHex(c: char): char {
    match c
    case 'A' => 'a' case 'B' => 'b' case 'C' => 'c'
    case 'D' => 'd' case 'E' => 'e' case 'F' => 'f'
    case _ => c
  }

  predicate AllHex(s: string) {
    forall i :: 0 <= i < |s| ==> IsHex(s[i])
  }

  function Lower(s: string): (r: string)
    ensures |r| == |s|
  {
    seq(|s|, i requires 0 <= i < |s| => LowerHex(s[i]))
  }

  /** Groups 32 digits as 8-4-4-4-12. */
  function Hyphenate(digits: string): (r: string)
    requires |digits| == 32
    ensures |r| == 36
  {
    digits[..8] + "-" + digits[8..12] + "-" + digits[12..16] + "-" + digits[16..20] + "-" + digits[20..]
  }

  function Digits(text: string): (r: string)
    requires |text| == 36
    ensures |r| == 32
  {
    text[..8] + text[9..13] + text[14..18] + text[19..23] + text[24..]
  }

  function ParseSimple(digits: string): Option<string>
    requires |digits| == 32
  {
    if AllHex(digits) then Some(Hyphenate(Lower(digits))) else None
  }

  function ParseHyphenated(text: string): Option<string>
    requires |text| == 36
  {
    if text[8] == '-' && text[13] == '-' && text[18] == '-' && text[23] == '-'
    then ParseSimple(Digits(text))
    else None
  }

  /** The canonical text of a raw identifier, or `None` when it is not a UUID. */
  function Parse(raw: string): Option<string> {
    if |raw| == 32 then ParseSimple(raw)
    else if |raw| == 36 then ParseHyphenated(raw)
    else if |raw| == 38 && raw[0] == '{' && raw[37] == '}' then ParseHyphenated(raw[1..37])
    else if |raw| == 45 && raw[..9] == "urn:uuid:" then ParseHyphenated(raw[9..])
    else None
  }

  predicate IsCanonical(id: string) {
    Parse(id) == Some(id)
  }

  lemma DigitsOfHyphenate(digits: string)
    requires |digits| == 32
    ensures Digits(Hyphenate(digits)) == digits
  {
    var t := Hyphenate(digits);
    assert t[..8] == digits[..8];
    assert t[9..13] == digits[8..12];
    assert t[14..18] == digits[12..16];
    assert t[19..23] == digits[16..20];
    assert t[24..] == digits[20..];
  }

  lemma ParseSimpleIsCanonical(digits: string)
    requires |digits| == 32 && AllHex(digits)
    ensures IsCanonical(Hyphenate(Lower(digits)))
  {
    var low := Lower(digits);
    DigitsOfHyphenate(low);
    assert AllHex(low);
    assert Lower(low) == low;
  }

  /** Whatever spelling was accepted, the rendered identifier parses to itself. */
  lemma ParseGivesCanonical(raw: string)
    requires Parse(raw).Some?
    ensures IsCanonical(Parse(raw).value)
  {
    var digits :| |digits| == 32 && AllHex(digits) && Parse(raw).value == Hyphenate(Lower(digits));
    ParseSimpleIsCanonical(digits);
  }

  /** An accepted spelling that is not the canonical one: bare upper-case digits. */
  const BARE_DIGITS: string := seq(32, i => 'A')

  lemma BareDigitsAreNotCanonical()
    ensures Parse(BARE_DIGITS).Some?
    ensures Parse(BARE_DIGITS).value != BARE_DIGITS
  {
    assert AllHex(BARE_DIGITS);
    assert |Parse(BARE_DIGITS).value| == 36;
  }

  // --- Spellings ---

  /** The ways to write the same 32 digits. */
  predicate Spells(raw: string, digits: string)
    requires |digits| == 32
  {
    var id := Hyphenate(digits);
    raw == digits || raw == id || raw == "{" + id + "}" || raw == "urn:uuid:" + id
  }

  lemma HyphensAreWhereTheyBelong(text: string)
    requires |text| == 36 && text[8] == '-' && text[13] == '-' && text[18] == '-' && text[23] == '-'
    ensures Hyphenate(Digits(text)) == text
  {
    var d := Digits(text);
    assert d[..8] == text[..8] && d[8..12] == text[9..13] && d[12..16] == text[14..18];
    assert d[16..20] == text[19..23] && d[20..] == text[24..];
  }

  lemma HyphenatedParses(digits: string)
    requires |digits| == 32
    ensures ParseHyphenated(Hyphenate(digits)) == ParseSimple(digits)
  {
    DigitsOfHyphenate(digits);
  }

  lemma SpelledParses(raw: string, digits: string)
    requires |digits| == 32 && Spells(raw, digits)
    ensures Parse(raw) == ParseSimple(digits)
  {
    var id := Hyphenate(digits);
    HyphenatedParses(digits);
    if raw == "{" + id + "}" {
      assert raw[1..37] == id;
    } else if raw == "urn:uuid:" + id {
      assert raw[..9] == "urn:uuid:" && raw[9..] == id;
    }
  }

  lemma AcceptedIsSpelled(raw: string) returns (digits: string)
    requires Parse(raw).Some?
    ensures |digits| == 32 && Spells(raw, digits)
  {
    if |raw| == 32 {
      digits := raw;
    } else if |raw| == 36 {
      digits := Digits(raw);
      HyphensAreWhereTheyBelong(raw);
    } else if |raw| == 38 {
      digits := Digits(raw[1..37]);
      HyphensAreWhereTheyBelong(raw[1..37]);
      assert raw == "{" + raw[1..37] + "}";
    } else {
      digits := Digits(raw[9..]);
      HyphensAreWhereTheyBelong(raw[9..]);
      assert raw == raw[..9] + raw[9..];
    }
  }

  /** Accepted are 32 hexadecimal digits, bare, hyphenated, in braces or as a URN; they are printed in lower case. */
  lemma AcceptedSpellings(raw: string, id: string)
    ensures Parse(raw) == Some(id)
            <==> exists digits ::
                   |digits| == 32 && Spells(raw, digits) && AllHex(digits) && id == Hyphenate(Lower(digits))
  {
    if Parse(raw).Some? {
      var digits := AcceptedIsSpelled(raw);
      SpelledParses(raw, digits);
    }
    forall digits | |digits| == 32 && Spells(raw, digits) ensures Parse(raw) == ParseSimple(digits) {
      SpelledParses(raw, digits);
    }
  }

  /** The same hexadecimal digit, in either case. */
  predicate SameDigit(c: char, d: char) {
    c == d || c as int == d as int + 32 || d as int == c as int + 32
  }

  lemma LowerHexForgetsCase(c: char, d: char)
    requires IsHex(c) && IsHex(d)
    ensures LowerHex(c) == LowerHex(d) <==> SameDigit(c, d)
  {
  }

  /** Two texts of 32 digits name one client exactly if they differ in case alone. */
  lemma OneClientPerNumber(x: string, y: string)
    requires |x| == 32 && |y| == 32 && AllHex(x) && AllHex(y)
    ensures Parse(x) == Parse(y) <==> forall i :: 0 <= i < 32 ==> SameDigit(x[i], y[i])
  {
    DigitsOfHyphenate(Lower(x));
    DigitsOfHyphenate(Lower(y));
    assert Parse(x) == Parse(y) <==> Lower(x) == Lower(y);
    forall i | 0 <= i < 32 ensures Lower(x)[i] == Lower(y)[i] <==> SameDigit(x[i], y[i]) {
      LowerHexForgetsCase(x[i], y[i]);
    }
  }
}
