// Small string utilities used by the unit-file renderer and by its inverse:
// decimal notation of a natural number (as Go's text/template prints a
// `uint`), and splitting a string at a separator character.
module Text {
  import opened Errors

  predicate IsDigit(c: char) {
    '0' <= c <= '9'
  }

  predicate AllDigits(s: string) {
    forall i :: 0 <= i < |s| ==> IsDigit(s[i])
  }

  predicate EndsWith(s: string, suffix: string) {
    |suffix| <= |s| && s[|s| - |suffix|..] == suffix
  }

  function DigitChar(d: nat): (c: char)
    requires d < 10
    ensures IsDigit(c) && c as int - '0' as int == d
  {
    ('0' as int + d) as char
  }

  // The decimal notation of n: no sign, no leading zero.
  function Decimal(n: nat): (s: string)
    ensures |s| >= 1 && AllDigits(s)
    ensures s[0] == '0' ==> n == 0 && s == "0"
  {
    if n < 10 then [DigitChar(n)] else Decimal(n / 10) + [DigitChar(n % 10)]
  }

  // The number a non-empty string of digits denotes.
  function DigitsValue(s: string): nat
    requires AllDigits(s)
  {
    if s == [] then 0 else DigitsValue(s[..|s| - 1]) * 10 + (s[|s| - 1] as int - '0' as int)
  }

  function ParseDecimal(s: string): (r: Option<nat>)
    ensures r.Some? <==> |s| >= 1 && AllDigits(s)
  {
    if |s| >= 1 && AllDigits(s) then Some(DigitsValue(s)) else None
  }

  // Reading the decimal notation back gives the number.
  lemma {:induction false} DecimalRoundTrip(n: nat)
    ensures ParseDecimal(Decimal(n)) == Some(n)
  {
    DecimalValue(n);
  }

  lemma {:induction false} DecimalValue(n: nat)
    ensures DigitsValue(Decimal(n)) == n
  {
    if n >= 10 {
      var prefix, last := Decimal(n / 10), [DigitChar(n % 10)];
      assert Decimal(n)[..|Decimal(n)| - 1] == prefix;
      DecimalValue(n / 10);
    }
  }

  // The text before and after one separator.
  datatype Chunk = Chunk(piece: string, rest: string)

  // Splits s at the first occurrence of sep; None when sep does not occur.
  function TakeUntil(s: string, sep: char): (r: Option<Chunk>)
    ensures r.None? <==> sep !in s
    ensures r.Some? ==> sep !in r.value.piece && s == r.value.piece + [sep] + r.value.rest
  {
    if s == [] then None
    else if s[0] == sep then Some(Chunk("", s[1..]))
    else match TakeUntil(s[1..], sep)
      case None => None
      case Some(c) => Some(Chunk([s[0]] + c.piece, c.rest))
  }

  // The piece is everything before the FIRST separator.
  lemma {:induction false} TakeUntilJoin(piece: string, sep: char, rest: string)
    requires sep !in piece
    ensures TakeUntil(piece + [sep] + rest, sep) == Some(Chunk(piece, rest))
  {
    if piece != [] {
      assert (piece + [sep] + rest)[1..] == piece[1..] + [sep] + rest;
      TakeUntilJoin(piece[1..], sep, rest);
      assert [piece[0]] + piece[1..] == piece;
    } else {
      assert (piece + [sep] + rest)[1..] == rest;
    }
  }

  // The rest of s after prefix, or None when s does not start with prefix.
  function StripPrefix(s: string, prefix: string): (r: Option<string>)
    ensures r.Some? <==> prefix <= s
    ensures r.Some? ==> s == prefix + r.value
  {
    if prefix <= s then Some(s[|prefix|..]) else None
  }

  lemma StripPrefixJoin(prefix: string, rest: string)
    ensures StripPrefix(prefix + rest, prefix) == Some(rest)
  {
    assert (prefix + rest)[|prefix|..] == rest;
  }
}
