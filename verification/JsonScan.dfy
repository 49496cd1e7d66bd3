/** What the scanner of apps/api/src/http/raw-json.ts computes, as functions on the text that is left. */
module JsonScan {
  import opened JsonGrammar

  /** The place of an error: member names that look like identifiers, and array indices. */
  datatype Part = Field(name: Text) | Index(index: nat)

  type Path = seq<Part>

  /** `Repeated` is the DUPLICATE_FIELD error; `Malformed` any SyntaxError. */
  datatype Scan = Done(rest: Text) | Malformed | Repeated(path: Path)

  datatype Literal = NoLiteral | Literal(value: Text, rest: Text)

  function Skip(s: Text): (r: Text)
    ensures |r| <= |s|
    ensures r == [] || !IsSpace(r[0])
  {
    if s != [] && IsSpace(s[0]) then Skip(s[1..]) else s
  }

  predicate IsLetter(u: Unit) { 'a' as int <= u <= 'z' as int || 'A' as int <= u <= 'Z' as int }

  predicate IsIdentifier(key: Text) {
    && key != [] && IsLetter(key[0])
    && forall i | 0 <= i < |key| :: IsLetter(key[i]) || IsDigit(key[i])
  }

  function KeyPath(path: Path, key: Text): Path {
    if IsIdentifier(key) then path + [Field(key)] else path
  }

  /* ---- strings ---- */

  /** The number of units up to and with the first quote that no backslash precedes as an escape; 0 when the
      text ends before. */
  function ToQuote(s: Text): (n: nat)
    ensures n <= |s|
  {
    if s == [] then 0
    else if s[0] == QUOTE then 1
    else if s[0] == BACKSLASH then
      if |s| < 2 || ToQuote(s[2..]) == 0 then 0 else 2 + ToQuote(s[2..])
    else if ToQuote(s[1..]) == 0 then 0 else 1 + ToQuote(s[1..])
  }

  /** JSON.parse of a string literal, after its opening quote: the decoded string, unless it is malformed. */
  datatype Unquoted = Bad | Good(value: Text)

  function Put(u: Unit, r: Unquoted): Unquoted { if r.Bad? then Bad else Good([u] + r.value) }

  function Unquote(s: Text): Unquoted {
    if s == [] then Bad
    else if s[0] == QUOTE then if |s| == 1 then Good([]) else Bad
    else if s[0] != BACKSLASH then if IsPlain(s[0]) then Put(s[0], Unquote(s[1..])) else Bad
    else if |s| >= 2 && IsShort(s[1]) then Put(ShortValue(s[1]), Unquote(s[2..]))
    else if |s| >= 6 && s[1] == 'u' as int && IsHex(s[2]) && IsHex(s[3]) && IsHex(s[4]) && IsHex(s[5]) then
      Put(ItemValue(Hex(s[2], s[3], s[4], s[5])), Unquote(s[6..]))
    else Bad
  }

  /** A string literal at the start of the text. */
  function ScanString(s: Text): (r: Literal)
    requires s != [] && s[0] == QUOTE
    ensures r.Literal? ==> |r.rest| < |s|
  {
    var n := ToQuote(s[1..]);
    if n == 0 then NoLiteral
    else
      match Unquote(s[1..][..n])
      case Bad => NoLiteral
      case Good(value) => Literal(value, s[1..][n..])
  }

  /* ---- words and numbers ---- */

  function ScanWord(s: Text, word: Text): Scan {
    if |word| <= |s| && s[..|word|] == word then Done(s[|word|..]) else Malformed
  }

  function SkipDigits(s: Text): (r: Text)
    ensures |r| <= |s|
  {
    if s != [] && IsDigit(s[0]) then SkipDigits(s[1..]) else s
  }

  function SkipFraction(s: Text): (r: Text)
    ensures |r| <= |s|
  {
    if |s| >= 2 && s[0] == DOT && IsDigit(s[1]) then SkipDigits(s[1..]) else s
  }

  function SkipSign(s: Text): (r: Text)
    ensures |r| <= |s|
  {
    if s != [] && (s[0] == '+' as int || s[0] == MINUS) then s[1..] else s
  }

  function SkipExponent(s: Text): (r: Text)
    ensures |r| <= |s|
  {
    if s != [] && (s[0] == 'e' as int || s[0] == 'E' as int)
       && SkipSign(s[1..]) != [] && IsDigit(SkipSign(s[1..])[0])
    then SkipDigits(SkipSign(s[1..])) else s
  }

  /** The longest number at the start of the text. */
  function ScanNumber(s: Text): (r: Scan)
    ensures r.Done? ==> |r.rest| < |s|
    ensures !r.Repeated?
  {
    var whole := if s != [] && s[0] == MINUS then s[1..] else s;
    if whole == [] || !IsDigit(whole[0]) then Malformed
    else
      var after := if whole[0] == '0' as int then whole[1..] else SkipDigits(whole[1..]);
      Done(SkipExponent(SkipFraction(after)))
  }

  /* ---- values ---- */

  function ScanValue(s: Text, path: Path): (r: Scan)
    ensures r.Done? ==> |r.rest| < |s|
    decreases |s|, 3
  {
    var t := Skip(s);
    if t == [] then Malformed
    else if t[0] == OPEN_OBJECT then ScanObject(t[1..], path)
    else if t[0] == OPEN_ARRAY then ScanArray(t[1..], path)
    else if t[0] == QUOTE then
      var literal := ScanString(t);
      if literal.NoLiteral? then Malformed else Done(literal.rest)
    else if t[0] == 't' as int then ScanWord(t, TRUE)
    else if t[0] == 'f' as int then ScanWord(t, FALSE)
    else if t[0] == 'n' as int then ScanWord(t, NULL)
    else ScanNumber(t)
  }

  /** After the opening brace. */
  function ScanObject(s: Text, path: Path): (r: Scan)
    ensures r.Done? ==> |r.rest| < |s|
    decreases |s|, 2
  {
    var t := Skip(s);
    if t != [] && t[0] == CLOSE_OBJECT then Done(t[1..]) else ScanMembers(t, path, {})
  }

  /** At the quote of a key, with the keys seen so far. */
  function ScanMembers(s: Text, path: Path, keys: set<Text>): (r: Scan)
    ensures r.Done? ==> |r.rest| < |s|
    decreases |s|, 1
  {
    if s == [] || s[0] != QUOTE then Malformed
    else
      match ScanString(s)
      case NoLiteral => Malformed
      case Literal(key, rest) =>
        if key in keys then Repeated(KeyPath(path, key)) else AfterKey(rest, path, key, keys)
  }

  function AfterKey(s: Text, path: Path, key: Text, keys: set<Text>): (r: Scan)
    ensures r.Done? ==> |r.rest| < |s|
    decreases |s|, 1
  {
    var colon := Skip(s);
    if colon == [] || colon[0] != COLON then Malformed
    else
      match ScanValue(colon[1..], KeyPath(path, key))
      case Malformed => Malformed
      case Repeated(p) => Repeated(p)
      case Done(after) => MoreMembers(Skip(after), path, keys + {key})
  }

  function MoreMembers(s: Text, path: Path, keys: set<Text>): (r: Scan)
    ensures r.Done? ==> |r.rest| < |s|
    decreases |s|, 0
  {
    if s == [] then Malformed
    else if s[0] == CLOSE_OBJECT then Done(s[1..])
    else if s[0] == COMMA then ScanMembers(Skip(s[1..]), path, keys)
    else Malformed
  }

  /** After the opening bracket. */
  function ScanArray(s: Text, path: Path): (r: Scan)
    ensures r.Done? ==> |r.rest| < |s|
    decreases |s|, 5
  {
    var t := Skip(s);
    if t != [] && t[0] == CLOSE_ARRAY then Done(t[1..]) else ScanElements(t, path, 0)
  }

  function ScanElements(s: Text, path: Path, index: nat): (r: Scan)
    ensures r.Done? ==> |r.rest| < |s|
    decreases |s|, 4
  {
    match ScanValue(s, path + [Index(index)])
    case Malformed => Malformed
    case Repeated(p) => Repeated(p)
    case Done(after) => MoreElements(Skip(after), path, index + 1)
  }

  function MoreElements(s: Text, path: Path, index: nat): (r: Scan)
    ensures r.Done? ==> |r.rest| < |s|
    decreases |s|, 0
  {
    if s == [] then Malformed
    else if s[0] == CLOSE_ARRAY then Done(s[1..])
    else if s[0] == COMMA then ScanElements(Skip(s[1..]), path, index)
    else Malformed
  }

  datatype Verdict = Accepted | Rejected | RejectedDuplicate(path: Path)

  function ScanText(s: Text): Verdict {
    match ScanValue(Skip(s), [])
    case Malformed => Rejected
    case Repeated(path) => RejectedDuplicate(path)
    case Done(rest) => if Skip(rest) == [] then Accepted else Rejected
  }
}
