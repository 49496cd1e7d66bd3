/** The JSON grammar of sections 2 to 7 of RFC 8259 as concrete syntax trees over UTF-16 code units: a tree
    keeps every unit of its text, white space and the spelling of strings and numbers included. */
module JsonGrammar {

  type Unit = u: int | 0 <= u < 0x1_0000

  type Text = seq<Unit>

  const QUOTE: Unit := '\"' as int
  const BACKSLASH: Unit := '\\' as int
  const MINUS: Unit := '-' as int
  const DOT: Unit := '.' as int
  const COMMA: Unit := ',' as int
  const COLON: Unit := ':' as int
  const OPEN_OBJECT: Unit := '{' as int
  const CLOSE_OBJECT: Unit := '}' as int
  const OPEN_ARRAY: Unit := '[' as int
  const CLOSE_ARRAY: Unit := ']' as int

  predicate IsSpace(u: Unit) { u == 9 || u == 10 || u == 13 || u == 32 }

  predicate IsDigit(u: Unit) { '0' as int <= u <= '9' as int }

  predicate IsHex(u: Unit) {
    IsDigit(u) || 'a' as int <= u <= 'f' as int || 'A' as int <= u <= 'F' as int
  }

  function HexValue(u: Unit): (v: int)
    requires IsHex(u)
    ensures 0 <= v < 16
  {
    if IsDigit(u) then u - '0' as int
    else if 'a' as int <= u then u - 'a' as int + 10
    else u - 'A' as int + 10
  }

  ghost predicate Spaces(t: Text) { forall i | 0 <= i < |t| :: IsSpace(t[i]) }

  ghost predicate Digits(t: Text) { forall i | 0 <= i < |t| :: IsDigit(t[i]) }

  /* ---- strings ---- */

  /** One character of a string as it is spelled. */
  datatype Item = Plain(u: Unit) | Short(letter: Unit) | Hex(a: Unit, b: Unit, c: Unit, d: Unit)

  predicate IsPlain(u: Unit) { 0x20 <= u && u != QUOTE && u != BACKSLASH }

  /** The second unit of the two-unit escapes. */
  predicate IsShort(u: Unit) {
    || u == '\"' as int || u == '\\' as int || u == '/' as int || u == 'b' as int
    || u == 'f' as int || u == 'n' as int || u == 'r' as int || u == 't' as int
  }

  function ShortValue(u: Unit): Unit {
    if u == 'b' as int then 8
    else if u == 'f' as int then 12
    else if u == 'n' as int then 10
    else if u == 'r' as int then 13
    else if u == 't' as int then 9
    else u
  }

  predicate ItemFits(i: Item) {
    match i
    case Plain(u) => IsPlain(u)
    case Short(letter) => IsShort(letter)
    case Hex(a, b, c, d) => IsHex(a) && IsHex(b) && IsHex(c) && IsHex(d)
  }

  function ItemText(i: Item): Text {
    match i
    case Plain(u) => [u]
    case Short(letter) => [BACKSLASH, letter]
    case Hex(a, b, c, d) => [BACKSLASH, 'u' as int, a, b, c, d]
  }

  function ItemValue(i: Item): Unit
    requires ItemFits(i)
  {
    match i
    case Plain(u) => u
    case Short(letter) => ShortValue(letter)
    case Hex(a, b, c, d) => ((HexValue(a) * 16 + HexValue(b)) * 16 + HexValue(c)) * 16 + HexValue(d)
  }

  datatype Name = End | Char(item: Item, rest: Name)

  predicate NameFits(n: Name) { n.Char? ==> ItemFits(n.item) && NameFits(n.rest) }

  /** The spelling up to and with the closing quote. */
  function NameText(n: Name): (t: Text)
    ensures t != []
  {
    if n.End? then [QUOTE] else ItemText(n.item) + NameText(n.rest)
  }

  /** The string that a spelling stands for. */
  function Decoded(n: Name): Text
    requires NameFits(n)
  {
    if n.End? then [] else [ItemValue(n.item)] + Decoded(n.rest)
  }

  /* ---- values ---- */

  datatype Exponent = NoExponent | Exponent(e: Unit, sign: Text, digits: Text)

  /** Array elements and object members keep the white space around them; `gap` is the white space of an
      empty array or object. */
  datatype Json =
    | Word(word: Text)
    | Number(minus: bool, whole: Text, fraction: Text, exponent: Exponent)
    | String(name: Name)
    | Array(gap: Text, elements: Elements)
    | Object(gap: Text, members: Members)

  datatype Elements = NoElements | Element(before: Text, value: Json, after: Text, rest: Elements)

  datatype Members =
    | NoMembers
    | Member(before: Text, name: Name, beforeColon: Text, afterColon: Text, value: Json, after: Text, rest: Members)

  const TRUE: Text := ['t' as int, 'r' as int, 'u' as int, 'e' as int]
  const FALSE: Text := ['f' as int, 'a' as int, 'l' as int, 's' as int, 'e' as int]
  const NULL: Text := ['n' as int, 'u' as int, 'l' as int, 'l' as int]

  ghost predicate ExponentFits(x: Exponent) {
    match x
    case NoExponent => true
    case Exponent(e, sign, digits) =>
      && (e == 'e' as int || e == 'E' as int)
      && (sign == [] || sign == ['+' as int] || sign == [MINUS])
      && digits != [] && Digits(digits)
  }

  ghost predicate Fits(v: Json) {
    match v
    case Word(word) => word == TRUE || word == FALSE || word == NULL
    case Number(_, whole, fraction, exponent) =>
      && whole != [] && Digits(whole) && (whole[0] == '0' as int ==> |whole| == 1)
      && Digits(fraction) && ExponentFits(exponent)
    case String(name) => NameFits(name)
    case Array(gap, elements) => Spaces(gap) && ElementsFit(elements)
    case Object(gap, members) => Spaces(gap) && MembersFit(members)
  }

  ghost predicate ElementsFit(es: Elements) {
    es.Element? ==> Spaces(es.before) && Fits(es.value) && Spaces(es.after) && ElementsFit(es.rest)
  }

  ghost predicate MembersFit(ms: Members) {
    ms.Member? ==>
      && Spaces(ms.before) && NameFits(ms.name) && Spaces(ms.beforeColon) && Spaces(ms.afterColon)
      && Fits(ms.value) && Spaces(ms.after) && MembersFit(ms.rest)
  }

  function ExponentText(x: Exponent): Text {
    match x
    case NoExponent => []
    case Exponent(e, sign, digits) => [e] + sign + digits
  }

  function FractionText(fraction: Text): Text { if fraction == [] then [] else [DOT] + fraction }

  function Printed(v: Json): Text {
    match v
    case Word(word) => word
    case Number(minus, whole, fraction, exponent) =>
      (if minus then [MINUS] else []) + whole + FractionText(fraction) + ExponentText(exponent)
    case String(name) => [QUOTE] + NameText(name)
    case Array(gap, elements) =>
      [OPEN_ARRAY] + if elements.NoElements? then gap + [CLOSE_ARRAY] else ElementsText(elements)
    case Object(gap, members) =>
      [OPEN_OBJECT] + if members.NoMembers? then gap + [CLOSE_OBJECT] else MembersText(members)
  }

  /** The elements up to and with the closing bracket. */
  function ElementsText(es: Elements): Text
    requires es.Element?
  {
    es.before + Printed(es.value) + es.after
    + if es.rest.NoElements? then [CLOSE_ARRAY] else [COMMA] + ElementsText(es.rest)
  }

  function MembersText(ms: Members): Text
    requires ms.Member?
  {
    ms.before + ([QUOTE] + NameText(ms.name)) + ms.beforeColon + [COLON] + ms.afterColon + Printed(ms.value) + ms.after
    + if ms.rest.NoMembers? then [CLOSE_OBJECT] else [COMMA] + MembersText(ms.rest)
  }

  /* ---- repeated keys ---- */

  /** The decoded keys of an object in order. */
  function Keys(ms: Members): seq<Text>
    requires MembersFit(ms)
  {
    if ms.NoMembers? then [] else [Decoded(ms.name)] + Keys(ms.rest)
  }

  ghost predicate AllDifferent(keys: seq<Text>) {
    forall i, j | 0 <= i < j < |keys| :: keys[i] != keys[j]
  }

  /** No object at any depth has the same decoded key twice. */
  ghost predicate KeysDiffer(v: Json)
    requires Fits(v)
  {
    match v
    case Array(_, elements) => ElementsDiffer(elements)
    case Object(_, members) => AllDifferent(Keys(members)) && MembersDiffer(members)
    case _ => true
  }

  ghost predicate ElementsDiffer(es: Elements)
    requires ElementsFit(es)
  {
    es.Element? ==> KeysDiffer(es.value) && ElementsDiffer(es.rest)
  }

  ghost predicate MembersDiffer(ms: Members)
    requires MembersFit(ms)
  {
    ms.Member? ==> KeysDiffer(ms.value) && MembersDiffer(ms.rest)
  }
}
