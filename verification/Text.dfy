/** The few string operations the configuration code relies on. */
module Text {
  import opened Wrappers

  function LowerChar(c: char): char {
    if 'A' <= c <= 'Z' then c - 'A' + 'a' else c
  }

  /** ASCII lower-casing; every other character is kept. */
  function Lower(s: string): (r: string)
    ensures |r| == |s|
    ensures forall i | 0 <= i < |s| :: r[i] == LowerChar(s[i])
  {
    seq(|s|, i requires 0 <= i < |s| => LowerChar(s[i]))
  }

  predicate EndsWith(s: string, suffix: string) {
    |suffix| <= |s| && s[|s| - |suffix|..] == suffix
  }

  predicate StartsWith(s: string, prefix: string) {
    |prefix| <= |s| && s[..|prefix|] == prefix
  }

  /** Unicode White_Space. */
  predicate IsSpace(c: char) {
    || '\t' <= c <= '\r'
    || c == ' '
    || c == '\U{0085}'
    || c == '\U{00A0}'
    || c == '\U{1680}'
    || '\U{2000}' <= c <= '\U{200A}'
    || c == '\U{2028}'
    || c == '\U{2029}'
    || c == '\U{202F}'
    || c == '\U{205F}'
    || c == '\U{3000}'
  }

  /** Unicode Cc. */
  predicate IsControl(c: char) {
    c < ' ' || '\U{007F}' <= c <= '\U{009F}'
  }

  function TrimStart(s: string): (r: string)
    ensures |r| <= |s| && r == s[|s| - |r|..]
    ensures r != "" ==> !IsSpace(r[0])
  {
    if s == "" || !IsSpace(s[0]) then s else TrimStart(s[1..])
  }

  function TrimEnd(s: string): (r: string)
    ensures |r| <= |s| && r == s[..|r|]
    ensures r != "" ==> !IsSpace(r[|r| - 1])
  {
    if s == "" || !IsSpace(s[|s| - 1]) then s else TrimEnd(s[..|s| - 1])
  }

  /** The string without white space at either end. */
  function Trim(s: string): (r: string)
    ensures r != "" ==> !IsSpace(r[0]) && !IsSpace(r[|r| - 1])
  {
    TrimEnd(TrimStart(s))
  }

  /** The number of bytes of one character in UTF-8. */
  function Utf8Width(c: char): nat {
    if c < '\U{0080}' then 1 else if c < '\U{0800}' then 2 else if c < '\U{10000}' then 3 else 4
  }

  /** The number of bytes of the string in UTF-8. */
  function Utf8Length(s: string): nat {
    if s == "" then 0 else Utf8Width(s[0]) + Utf8Length(s[1..])
  }

  /** Decimal digits without leading zeros. */
  function Decimal(n: nat): (r: string)
    ensures r != ""
    ensures forall i | 0 <= i < |r| :: '0' <= r[i] <= '9'
  {
    (if n < 10 then "" else Decimal(n / 10)) + ['0' + (n % 10) as char]
  }

  predicate AllDigits(s: string) {
    forall i | 0 <= i < |s| :: '0' <= s[i] <= '9'
  }

  function DigitsValue(s: string): nat
    requires AllDigits(s)
  {
    if s == "" then 0 else 10 * DigitsValue(s[..|s| - 1]) + (s[|s| - 1] - '0') as nat
  }

  /** `str::parse` of an unsigned integer below `limit`: an optional plus sign, then digits only. */
  function ParseBelow(s: string, limit: nat): (r: Option<nat>)
    ensures r.Some? ==> r.value < limit
  {
    var digits := if s != "" && s[0] == '+' then s[1..] else s;
    if digits != "" && AllDigits(digits) && DigitsValue(digits) < limit then Some(DigitsValue(digits)) else None
  }

  /** The last digit, and what is before it. */
  lemma DecimalEnds(n: nat)
    ensures var text := Decimal(n);
            && '0' <= text[|text| - 1] <= '9' && (text[|text| - 1] - '0') as nat == n % 10
            && text[..|text| - 1] == (if n < 10 then "" else Decimal(n / 10))
  {}

  lemma {:induction false} DecimalValue(n: nat)
    ensures DigitsValue(Decimal(n)) == n
  {
    hide Decimal;
    DecimalEnds(n);
    if n >= 10 {
      DecimalValue(n / 10);
    }
  }

  /** Printing then parsing gives the number back. */
  lemma ParseDecimal(n: nat, limit: nat)
    requires n < limit
    ensures ParseBelow(Decimal(n), limit) == Some(n)
  {
    hide Decimal, DigitsValue;
    DecimalValue(n);
  }

  /** The pieces between the separators; one piece more than separators. */
  function SplitOn(s: string, separator: char): (r: seq<string>)
    ensures r != []
    ensures forall i | 0 <= i < |r| :: separator !in r[i]
  {
    if s == "" then [""]
    else
      var rest := SplitOn(s[1..], separator);
      if s[0] == separator then [""] + rest else [[s[0]] + rest[0]] + rest[1..]
  }

  function JoinWith(pieces: seq<string>, separator: char): string {
    if pieces == [] then ""
    else if |pieces| == 1 then pieces[0]
    else pieces[0] + [separator] + JoinWith(pieces[1..], separator)
  }

  /** Splitting undoes joining when no piece contains the separator. */
  lemma {:induction false} SplitJoin(pieces: seq<string>, separator: char)
    requires pieces != [] && forall i | 0 <= i < |pieces| :: separator !in pieces[i]
    ensures SplitOn(JoinWith(pieces, separator), separator) == pieces
    decreases |pieces|, |pieces[0]|
  {
    if pieces[0] == "" {
      if |pieces| > 1 {
        SplitJoin(pieces[1..], separator);
        assert JoinWith(pieces, separator)[1..] == JoinWith(pieces[1..], separator);
      }
    } else {
      var shorter := [pieces[0][1..]] + pieces[1..];
      SplitJoin(shorter, separator);
      assert JoinWith(pieces, separator)[1..] == JoinWith(shorter, separator) by {
        assert shorter[1..] == pieces[1..];
      }
      assert JoinWith(pieces, separator)[0] == pieces[0][0] != separator by {
        assert pieces[0][0] in pieces[0];
      }
      assert [pieces[0][0]] + pieces[0][1..] == pieces[0];
    }
  }

  /** `split_list`: the pieces between commas, trimmed, without the empty ones. */
  function SplitList(s: string): seq<string> {
    Kept(SplitOn(s, ','))
  }

  function Kept(pieces: seq<string>): (r: seq<string>)
    ensures forall i | 0 <= i < |r| :: r[i] != ""
  {
    if pieces == [] then []
    else
      var piece := Trim(pieces[0]);
      if piece == "" then Kept(pieces[1..]) else [piece] + Kept(pieces[1..])
  }

  lemma TrimTwice(s: string)
    ensures Trim(Trim(s)) == Trim(s)
  {}

  lemma {:induction false} TrimStartIn(s: string, c: char)
    requires c !in s
    ensures c !in TrimStart(s)
  {
    if s != "" && IsSpace(s[0]) {
      TrimStartIn(s[1..], c);
    }
  }

  lemma {:induction false} TrimEndIn(s: string, c: char)
    requires c !in s
    ensures c !in TrimEnd(s)
  {
    if s != "" && IsSpace(s[|s| - 1]) {
      TrimEndIn(s[..|s| - 1], c);
    }
  }

  lemma {:induction false} KeptPieces(pieces: seq<string>, separator: char)
    requires forall i | 0 <= i < |pieces| :: separator !in pieces[i]
    ensures forall i | 0 <= i < |Kept(pieces)| ::
              separator !in Kept(pieces)[i] && Trim(Kept(pieces)[i]) == Kept(pieces)[i]
  {
    hide TrimStart, TrimEnd, Trim;
    if pieces != [] {
      KeptPieces(pieces[1..], separator);
      assert separator !in pieces[0];
      assert separator !in Trim(pieces[0]) && Trim(Trim(pieces[0])) == Trim(pieces[0]) by
             { TrimPiece(pieces[0], separator); }
    }
  }

  lemma TrimPiece(piece: string, separator: char)
    requires separator !in piece
    ensures separator !in Trim(piece) && Trim(Trim(piece)) == Trim(piece)
  {
    TrimStartIn(piece, separator);
    TrimEndIn(TrimStart(piece), separator);
    TrimTwice(piece);
  }

  lemma {:induction false} KeptAll(pieces: seq<string>)
    requires forall i | 0 <= i < |pieces| :: pieces[i] != "" && Trim(pieces[i]) == pieces[i]
    ensures Kept(pieces) == pieces
  {
    hide Trim;
    if pieces != [] {
      KeptAll(pieces[1..]);
    }
  }

  /** A list that was split survives being joined and split again. */
  lemma SplitListJoin(s: string)
    requires SplitList(s) != []
    ensures SplitList(JoinWith(SplitList(s), ',')) == SplitList(s)
    ensures JoinWith(SplitList(s), ',') != ""
  {
    hide SplitOn, Kept, Trim;
    var pieces := SplitList(s);
    KeptPieces(SplitOn(s, ','), ',');
    SplitJoin(pieces, ',');
    KeptAll(pieces);
    assert pieces[0] != "";
  }
}
