/** The scanner accepts exactly the RFC 8259 texts in which no object repeats a key. */
module JsonTheorems {
  import opened JsonGrammar
  import opened JsonScan

  /* ---- the first repeated key, in the order of the text ---- */

  datatype Found = Nowhere | At(path: Path)

  ghost function FirstRepeat(v: Json, path: Path): Found
    requires Fits(v)
  {
    match v
    case Array(_, elements) => FirstInElements(elements, path, 0)
    case Object(_, members) => FirstInMembers(members, path, {})
    case _ => Nowhere
  }

  ghost function FirstInElements(es: Elements, path: Path, index: nat): Found
    requires ElementsFit(es)
  {
    if es.NoElements? then Nowhere
    else
      match FirstRepeat(es.value, path + [Index(index)])
      case At(p) => At(p)
      case Nowhere => FirstInElements(es.rest, path, index + 1)
  }

  ghost function FirstInMembers(ms: Members, path: Path, keys: set<Text>): Found
    requires MembersFit(ms)
  {
    if ms.NoMembers? then Nowhere
    else if Decoded(ms.name) in keys then At(KeyPath(path, Decoded(ms.name)))
    else
      match FirstRepeat(ms.value, KeyPath(path, Decoded(ms.name)))
      case At(p) => At(p)
      case Nowhere => FirstInMembers(ms.rest, path, keys + {Decoded(ms.name)})
  }

  function Outcome(found: Found, rest: Text): Scan {
    if found.Nowhere? then Done(rest) else Repeated(found.path)
  }

  /** There is none exactly when the keys of every object differ. */
  lemma {:induction false} NowhereIffDifferent(v: Json, path: Path)
    requires Fits(v)
    ensures FirstRepeat(v, path) == Nowhere <==> KeysDiffer(v)
    decreases v
  {
    match v {
      case Array(_, elements) => ElementsNowhere(elements, path, 0);
      case Object(_, members) => MembersNowhere(members, path, {});
      case _ =>
    }
  }

  lemma {:induction false} ElementsNowhere(es: Elements, path: Path, index: nat)
    requires ElementsFit(es)
    ensures FirstInElements(es, path, index) == Nowhere <==> ElementsDiffer(es)
    decreases es
  {
    if es.Element? {
      NowhereIffDifferent(es.value, path + [Index(index)]);
      ElementsNowhere(es.rest, path, index + 1);
    }
  }

  ghost predicate Avoid(names: seq<Text>, keys: set<Text>) { forall i | 0 <= i < |names| :: names[i] !in keys }

  lemma DifferentFromFirst(first: Text, rest: seq<Text>, keys: set<Text>)
    ensures AllDifferent([first] + rest) && Avoid([first] + rest, keys)
      <==> first !in keys && AllDifferent(rest) && Avoid(rest, keys + {first})
  {
    var names := [first] + rest;
    forall i | 0 <= i < |rest| ensures rest[i] == names[i + 1] {}
    if AllDifferent(names) && Avoid(names, keys) {
      assert names[0] == first;
      forall i, j | 0 <= i < j < |rest| ensures rest[i] != rest[j] {
        assert names[i + 1] != names[j + 1];
      }
      forall i | 0 <= i < |rest| ensures rest[i] !in keys + {first} {
        assert names[0] != names[i + 1];
      }
    }
  }

  lemma {:induction false} MembersNowhere(ms: Members, path: Path, keys: set<Text>)
    requires MembersFit(ms)
    ensures FirstInMembers(ms, path, keys) == Nowhere
      <==> AllDifferent(Keys(ms)) && Avoid(Keys(ms), keys) && MembersDiffer(ms)
    decreases ms
  {
    if ms.Member? {
      var key := Decoded(ms.name);
      NowhereIffDifferent(ms.value, KeyPath(path, key));
      MembersNowhere(ms.rest, path, keys + {key});
      DifferentFromFirst(key, Keys(ms.rest), keys);
    }
  }

  /* ---- scanning what was printed ---- */

  lemma {:induction false} SkipSpaces(before: Text, t: Text)
    requires Spaces(before) && (t == [] || !IsSpace(t[0]))
    ensures Skip(before + t) == t
  {
    if before == [] {
      assert before + t == t;
    } else {
      assert (before + t)[1..] == before[1..] + t;
      SkipSpaces(before[1..], t);
    }
  }

  lemma {:induction false} SkipDigitsStops(digits: Text, rest: Text)
    requires Digits(digits) && (rest == [] || !IsDigit(rest[0]))
    ensures SkipDigits(digits + rest) == rest
  {
    if digits == [] {
      assert digits + rest == rest;
    } else {
      assert (digits + rest)[1..] == digits[1..] + rest;
      SkipDigitsStops(digits[1..], rest);
    }
  }

  lemma {:induction false} QuoteAtEnd(n: Name, rest: Text)
    requires NameFits(n)
    ensures ToQuote(NameText(n) + rest) == |NameText(n)|
  {
    if n.Char? {
      QuoteAtEnd(n.rest, rest);
      var text, more := ItemText(n.item), NameText(n.rest) + rest;
      assert NameText(n) + rest == text + more;
      if n.item.Hex? {
        assert (text + more)[2..] == text[2..] + more;
        HexHasNoQuote(text[2..], more);
      } else {
        assert (text + more)[|text|..] == more;
      }
    }
  }

  /** Hexadecimal digits are stepped over one by one. */
  lemma {:induction false} HexHasNoQuote(digits: Text, more: Text)
    requires forall i | 0 <= i < |digits| :: IsHex(digits[i])
    requires ToQuote(more) > 0
    ensures ToQuote(digits + more) == |digits| + ToQuote(more)
  {
    if digits == [] {
      assert digits + more == more;
    } else {
      assert (digits + more)[1..] == digits[1..] + more;
      HexHasNoQuote(digits[1..], more);
    }
  }

  lemma UnquoteItem(i: Item, rest: Text)
    requires ItemFits(i)
    ensures Unquote(ItemText(i) + rest) == Put(ItemValue(i), Unquote(rest))
  {
    var text := ItemText(i) + rest;
    assert text[|ItemText(i)|..] == rest;
  }

  lemma {:induction false} UnquotePrinted(n: Name)
    requires NameFits(n)
    ensures Unquote(NameText(n)) == Good(Decoded(n))
  {
    if n.Char? {
      UnquotePrinted(n.rest);
      UnquoteItem(n.item, NameText(n.rest));
    }
  }

  lemma CutAt(a: Text, b: Text)
    ensures (a + b)[..|a|] == a && (a + b)[|a|..] == b
  {
  }

  lemma ScanPrintedString(n: Name, rest: Text)
    requires NameFits(n)
    ensures ScanString([QUOTE] + NameText(n) + rest) == Literal(Decoded(n), rest)
  {
    assert ([QUOTE] + NameText(n) + rest)[1..] == NameText(n) + rest;
    QuoteAtEnd(n, rest);
    UnquotePrinted(n);
    CutAt(NameText(n), rest);
  }

  /** No number goes on into what follows a value. */
  predicate Stops(rest: Text) {
    rest == [] || !(IsDigit(rest[0]) || rest[0] == DOT || rest[0] == 'e' as int || rest[0] == 'E' as int)
  }

  lemma SkipPrintedExponent(x: Exponent, rest: Text)
    requires ExponentFits(x) && Stops(rest)
    ensures SkipExponent(ExponentText(x) + rest) == rest
  {
    match x {
      case NoExponent => assert ExponentText(x) + rest == rest;
      case Exponent(e, sign, digits) =>
        var s := ExponentText(x) + rest;
        assert s[1..] == sign + (digits + rest);
        assert SkipSign(s[1..]) == digits + rest by {
          if sign == [] {
            assert s[1..] == digits + rest;
          } else {
            assert s[1..][1..] == digits + rest;
          }
        }
        SkipDigitsStops(digits, rest);
    }
  }

  lemma SkipPrintedFraction(fraction: Text, rest: Text)
    requires Digits(fraction) && (rest == [] || (!IsDigit(rest[0]) && rest[0] != DOT))
    ensures SkipFraction(FractionText(fraction) + rest) == rest
  {
    var s := FractionText(fraction) + rest;
    if fraction == [] {
      assert s == rest;
    } else {
      assert s[1..] == fraction + rest;
      SkipDigitsStops(fraction, rest);
    }
  }

  lemma SkipPrintedWhole(whole: Text, after: Text)
    requires whole != [] && Digits(whole) && (whole[0] == '0' as int ==> |whole| == 1)
    requires after == [] || !IsDigit(after[0])
    ensures var s := whole + after; (if s[0] == '0' as int then s[1..] else SkipDigits(s[1..])) == after
  {
    assert (whole + after)[1..] == whole[1..] + after;
    SkipDigitsStops(whole[1..], after);
  }

  /** What follows the whole part of a number does not begin with a digit. */
  lemma AfterWhole(fraction: Text, x: Exponent, rest: Text)
    requires Digits(fraction) && ExponentFits(x) && Stops(rest)
    ensures var tail := ExponentText(x) + rest; tail == [] || (!IsDigit(tail[0]) && tail[0] != DOT)
    ensures var after := FractionText(fraction) + (ExponentText(x) + rest); after == [] || !IsDigit(after[0])
  {
  }

  lemma Regroup(a: Text, b: Text, c: Text, d: Text, e: Text)
    ensures a + b + c + d + e == a + (b + (c + (d + e)))
  {
  }

  lemma NumberParts(v: Json, rest: Text)
    requires v.Number? && v.whole != [] && IsDigit(v.whole[0])
    ensures
      var s := Printed(v) + rest;
      s != [] && (if s[0] == MINUS then s[1..] else s) == v.whole + (FractionText(v.fraction) + (ExponentText(v.exponent) + rest))
  {
    var t := v.whole + (FractionText(v.fraction) + (ExponentText(v.exponent) + rest));
    Regroup(if v.minus then [MINUS] else [], v.whole, FractionText(v.fraction), ExponentText(v.exponent), rest);
    assert [] + t == t;
  }

  lemma ScanPrintedNumber(v: Json, rest: Text)
    requires v.Number? && Fits(v) && Stops(rest)
    ensures ScanNumber(Printed(v) + rest) == Done(rest)
  {
    var tail := ExponentText(v.exponent) + rest;
    NumberParts(v, rest);
    AfterWhole(v.fraction, v.exponent, rest);
    SkipPrintedWhole(v.whole, FractionText(v.fraction) + tail);
    SkipPrintedFraction(v.fraction, tail);
    SkipPrintedExponent(v.exponent, rest);
  }

  /** How a value begins. */
  lemma PrintedBegins(v: Json)
    requires Fits(v)
    ensures var t := Printed(v);
      && t != [] && !IsSpace(t[0])
      && (t[0] == OPEN_OBJECT <==> v.Object?) && (t[0] == OPEN_ARRAY <==> v.Array?) && (t[0] == QUOTE <==> v.String?)
      && (t[0] in {'t' as int, 'f' as int, 'n' as int} <==> v.Word?)
      && t[0] != CLOSE_ARRAY
  {
  }

  lemma AfterFirst(v: Json, rest: Text)
    requires Printed(v) != []
    ensures (Printed(v) + rest)[1..] == Printed(v)[1..] + rest && (Printed(v) + rest)[0] == Printed(v)[0]
  {
  }

  lemma {:induction false} ScanPrinted(v: Json, before: Text, rest: Text, path: Path)
    requires Fits(v) && Spaces(before) && Stops(rest)
    ensures ScanValue(before + Printed(v) + rest, path) == Outcome(FirstRepeat(v, path), rest)
    decreases v
  {
    var t := Printed(v) + rest;
    PrintedBegins(v);
    assert before + Printed(v) + rest == before + t;
    SkipSpaces(before, t);
    AfterFirst(v, rest);
    match v {
      case Word(word) =>
        assert t[..|word|] == word && t[|word|..] == rest;
      case Number(_, _, _, _) => ScanPrintedNumber(v, rest);
      case String(name) =>
        ScanPrintedString(name, rest);
      case Array(gap, elements) =>
        ScanPrintedArray(gap, elements, rest, path);
        assert t[1..] == (if elements.NoElements? then gap + [CLOSE_ARRAY] else ElementsText(elements)) + rest;
      case Object(gap, members) =>
        ScanPrintedObject(gap, members, rest, path);
        assert t[1..] == (if members.NoMembers? then gap + [CLOSE_OBJECT] else MembersText(members)) + rest;
    }
  }

  lemma {:induction false} ScanPrintedArray(gap: Text, es: Elements, rest: Text, path: Path)
    requires Spaces(gap) && ElementsFit(es)
    ensures ScanArray((if es.NoElements? then gap + [CLOSE_ARRAY] else ElementsText(es)) + rest, path)
         == Outcome(FirstInElements(es, path, 0), rest)
    decreases es, 1
  {
    if es.NoElements? {
      assert gap + [CLOSE_ARRAY] + rest == gap + ([CLOSE_ARRAY] + rest);
      SkipSpaces(gap, [CLOSE_ARRAY] + rest);
    } else {
      ElementsTextIs(es);
      Group(es.before, ElementBody(es), rest);
      PrintedBegins(es.value);
      SkipSpaces(es.before, ElementBody(es) + rest);
      ScanPrintedElements(es, rest, path, 0);
    }
  }

  function AfterElement(es: Elements): Text
    requires es.Element?
  {
    if es.rest.NoElements? then [CLOSE_ARRAY] else [COMMA] + ElementsText(es.rest)
  }

  lemma ScanValueSkips(s: Text, path: Path)
    ensures ScanValue(Skip(s), path) == ScanValue(s, path)
  {
  }

  lemma ElementParts(es: Elements, rest: Text)
    requires es.Element?
    ensures ElementsText(es) + rest == es.before + Printed(es.value) + (es.after + (AfterElement(es) + rest))
  {
  }

  /** What follows an element: the closing bracket, or a comma and the rest. */
  lemma AfterElementBegins(es: Elements, rest: Text)
    requires es.Element?
    ensures var next := AfterElement(es) + rest;
      if es.rest.NoElements? then next == [CLOSE_ARRAY] + rest && next[1..] == rest
      else next[0] == COMMA && next[1..] == ElementsText(es.rest) + rest
  {
  }

  lemma SpacesThen(after: Text, next: Text)
    requires Spaces(after) && next != [] && !IsSpace(next[0]) && Stops(next)
    ensures Stops(after + next) && Skip(after + next) == next
  {
    SkipSpaces(after, next);
  }

  lemma {:induction false} ScanPrintedElements(es: Elements, rest: Text, path: Path, index: nat)
    requires es.Element? && ElementsFit(es)
    ensures ScanElements(Skip(ElementsText(es) + rest), path, index) == Outcome(FirstInElements(es, path, index), rest)
    decreases es, 0
  {
    ElementParts(es, rest);
    AfterElementBegins(es, rest);
    SpacesThen(es.after, AfterElement(es) + rest);
    ScanPrinted(es.value, es.before, es.after + (AfterElement(es) + rest), path + [Index(index)]);
    ScanValueSkips(ElementsText(es) + rest, path + [Index(index)]);
    if es.rest.Element? {
      ScanPrintedElements(es.rest, rest, path, index + 1);
    }
  }

  lemma {:induction false} ScanPrintedObject(gap: Text, ms: Members, rest: Text, path: Path)
    requires Spaces(gap) && MembersFit(ms)
    ensures ScanObject((if ms.NoMembers? then gap + [CLOSE_OBJECT] else MembersText(ms)) + rest, path)
         == Outcome(FirstInMembers(ms, path, {}), rest)
    decreases ms, 1
  {
    if ms.NoMembers? {
      assert gap + [CLOSE_OBJECT] + rest == gap + ([CLOSE_OBJECT] + rest);
      SkipSpaces(gap, [CLOSE_OBJECT] + rest);
    } else {
      MembersBegin(ms, rest);
      ScanPrintedMembers(ms, rest, path, {});
    }
  }

  function AfterMember(ms: Members): Text
    requires ms.Member?
  {
    if ms.rest.NoMembers? then [CLOSE_OBJECT] else [COMMA] + MembersText(ms.rest)
  }

  /** What follows the key of a member. */
  function AfterName(ms: Members, rest: Text): Text
    requires ms.Member?
  {
    ms.beforeColon + ([COLON] + (ms.afterColon + Printed(ms.value) + (ms.after + (AfterMember(ms) + rest))))
  }

  lemma MemberParts(ms: Members, rest: Text)
    requires ms.Member?
    ensures MembersText(ms) + rest == ms.before + ([QUOTE] + NameText(ms.name) + AfterName(ms, rest))
  {
    var key, tail := [QUOTE] + NameText(ms.name), AfterMember(ms) + rest;
    var upToColon := ms.before + key + ms.beforeColon;
    var value := ms.afterColon + Printed(ms.value);
    Group(upToColon + [COLON] + ms.afterColon + Printed(ms.value) + ms.after, AfterMember(ms), rest);
    Group(upToColon + [COLON] + ms.afterColon + Printed(ms.value), ms.after, tail);
    Group(upToColon + [COLON], ms.afterColon, Printed(ms.value));
    Group(upToColon + [COLON], value, ms.after + tail);
    Group(upToColon, [COLON], value + (ms.after + tail));
    Group(ms.before + key, ms.beforeColon, [COLON] + (value + (ms.after + tail)));
    Group(ms.before, key, AfterName(ms, rest));
  }

  lemma MembersBegin(ms: Members, rest: Text)
    requires ms.Member? && MembersFit(ms)
    ensures Skip(MembersText(ms) + rest) == [QUOTE] + NameText(ms.name) + AfterName(ms, rest)
  {
    var more := [QUOTE] + NameText(ms.name) + AfterName(ms, rest);
    MemberParts(ms, rest);
    SkipSpaces(ms.before, more);
  }

  lemma AfterMemberBegins(ms: Members, rest: Text)
    requires ms.Member?
    ensures var next := AfterMember(ms) + rest;
      if ms.rest.NoMembers? then next == [CLOSE_OBJECT] + rest && next[1..] == rest
      else next[0] == COMMA && next[1..] == MembersText(ms.rest) + rest
  {
  }

  /** From the quote of a key to the value behind its colon. */
  lemma ScanOneKey(ms: Members, rest: Text, path: Path, keys: set<Text>)
    requires ms.Member? && MembersFit(ms)
    ensures var key := Decoded(ms.name);
      ScanMembers([QUOTE] + NameText(ms.name) + AfterName(ms, rest), path, keys) ==
      if key in keys then Repeated(KeyPath(path, key))
      else
        match ScanValue(ms.afterColon + Printed(ms.value) + (ms.after + (AfterMember(ms) + rest)), KeyPath(path, key))
        case Malformed => Malformed
        case Repeated(p) => Repeated(p)
        case Done(after) => MoreMembers(Skip(after), path, keys + {key})
  {
    var value := ms.afterColon + Printed(ms.value) + (ms.after + (AfterMember(ms) + rest));
    ScanPrintedString(ms.name, AfterName(ms, rest));
    SkipSpaces(ms.beforeColon, [COLON] + value);
    assert ([COLON] + value)[1..] == value;
  }

  lemma {:induction false} ScanPrintedMembers(ms: Members, rest: Text, path: Path, keys: set<Text>)
    requires ms.Member? && MembersFit(ms)
    ensures ScanMembers(Skip(MembersText(ms) + rest), path, keys) == Outcome(FirstInMembers(ms, path, keys), rest)
    decreases ms, 0
  {
    var key := Decoded(ms.name);
    MembersBegin(ms, rest);
    ScanOneKey(ms, rest, path, keys);
    AfterMemberBegins(ms, rest);
    SpacesThen(ms.after, AfterMember(ms) + rest);
    ScanPrinted(ms.value, ms.afterColon, ms.after + (AfterMember(ms) + rest), KeyPath(path, key));
    if ms.rest.Member? {
      ScanPrintedMembers(ms.rest, rest, path, keys + {key});
    }
  }

  /** The text of a value is accepted when its keys differ, and otherwise refused with the place of the first
      repetition. */
  lemma PrintedIsJudged(before: Text, v: Json, after: Text)
    requires Spaces(before) && Fits(v) && Spaces(after)
    ensures ScanText(before + Printed(v) + after)
         == match FirstRepeat(v, []) case Nowhere => Accepted case At(path) => RejectedDuplicate(path)
  {
    ScanPrinted(v, before, after, []);
    ScanValueSkips(before + Printed(v) + after, []);
    SkipSpaces(after, []);
    assert after + [] == after;
  }

  /* ---- whatever is accepted was printed ---- */

  function Skipped(s: Text): Text { s[..|s| - |Skip(s)|] }

  lemma {:induction false} SkippedIsSpaces(s: Text)
    ensures s == Skipped(s) + Skip(s) && Spaces(Skipped(s))
  {
    if s != [] && IsSpace(s[0]) {
      SkippedIsSpaces(s[1..]);
      assert Skipped(s) == [s[0]] + Skipped(s[1..]);
    }
  }

  function SkippedDigits(s: Text): Text { s[..|s| - |SkipDigits(s)|] }

  lemma {:induction false} SkippedIsDigits(s: Text)
    ensures s == SkippedDigits(s) + SkipDigits(s) && Digits(SkippedDigits(s))
  {
    if s != [] && IsDigit(s[0]) {
      SkippedIsDigits(s[1..]);
      assert SkippedDigits(s) == [s[0]] + SkippedDigits(s[1..]);
    }
  }

  /** How the first unit of a string literal is spelled. */
  function ItemOf(s: Text): Item
    requires Unquote(s).Good? && s[0] != QUOTE
  {
    if s[0] != BACKSLASH then Plain(s[0])
    else if IsShort(s[1]) then Short(s[1])
    else Hex(s[2], s[3], s[4], s[5])
  }

  lemma ItemOfMeans(s: Text)
    requires Unquote(s).Good? && s[0] != QUOTE
    ensures var item := ItemOf(s);
      && ItemFits(item) && |ItemText(item)| <= |s|
      && Unquote(s) == Put(ItemValue(item), Unquote(s[|ItemText(item)|..]))
  {
  }

  lemma ItemOfSpells(s: Text)
    requires Unquote(s).Good? && s[0] != QUOTE && |ItemText(ItemOf(s))| <= |s|
    ensures s[..|ItemText(ItemOf(s))|] == ItemText(ItemOf(s))
  {
    match ItemOf(s) {
      case Plain(_) => assert s[..1] == [s[0]];
      case Short(_) => assert s[..2] == [s[0], s[1]];
      case Hex(_, _, _, _) => assert s[..6] == [s[0], s[1], s[2], s[3], s[4], s[5]];
    }
  }

  lemma CutTogether(s: Text, n: nat)
    requires n <= |s|
    ensures s == s[..n] + s[n..]
  {
  }

  lemma ItemOfFits(s: Text)
    requires Unquote(s).Good? && s[0] != QUOTE
    ensures var item := ItemOf(s);
      && ItemFits(item) && |ItemText(item)| <= |s| && s == ItemText(item) + s[|ItemText(item)|..]
      && Unquote(s) == Put(ItemValue(item), Unquote(s[|ItemText(item)|..]))
  {
    ItemOfMeans(s);
    ItemOfSpells(s);
    CutTogether(s, |ItemText(ItemOf(s))|);
  }

  /** The spelling of a string literal. */
  function NameOf(s: Text): Name
    requires Unquote(s).Good?
  {
    if s[0] == QUOTE then End
    else
      ItemOfFits(s);
      Char(ItemOf(s), NameOf(s[|ItemText(ItemOf(s))|..]))
  }

  lemma {:induction false} NameOfFits(s: Text)
    requires Unquote(s).Good?
    ensures NameFits(NameOf(s)) && NameText(NameOf(s)) == s && Decoded(NameOf(s)) == Unquote(s).value
  {
    if s[0] != QUOTE {
      ItemOfFits(s);
      NameOfFits(s[|ItemText(ItemOf(s))|..]);
    }
  }

  lemma StringWasPrinted(s: Text) returns (n: Name)
    requires s != [] && s[0] == QUOTE && ScanString(s).Literal?
    ensures NameFits(n) && s == [QUOTE] + NameText(n) + ScanString(s).rest && Decoded(n) == ScanString(s).value
  {
    var literal := s[1..][..ToQuote(s[1..])];
    n := NameOf(literal);
    NameOfFits(literal);
  }

  lemma Group(a: Text, b: Text, c: Text)
    ensures a + b + c == a + (b + c)
  {
  }

  lemma SignWasPrinted(s: Text) returns (sign: Text)
    ensures s == sign + SkipSign(s) && (sign == [] || sign == ['+' as int] || sign == [MINUS])
  {
    sign := if s != [] && (s[0] == '+' as int || s[0] == MINUS) then [s[0]] else [];
    assert s != [] ==> s == [s[0]] + s[1..];
  }

  lemma DigitsWerePrinted(s: Text) returns (digits: Text)
    requires s != [] && IsDigit(s[0])
    ensures digits != [] && Digits(digits) && s == digits + SkipDigits(s)
  {
    SkippedIsDigits(s);
    digits := SkippedDigits(s);
  }

  lemma ExponentWasPrinted(s: Text) returns (x: Exponent)
    ensures ExponentFits(x) && s == ExponentText(x) + SkipExponent(s)
  {
    x := NoExponent;
    if s != [] && (s[0] == 'e' as int || s[0] == 'E' as int)
       && SkipSign(s[1..]) != [] && IsDigit(SkipSign(s[1..])[0])
    {
      var sign := SignWasPrinted(s[1..]);
      var digits := DigitsWerePrinted(SkipSign(s[1..]));
      x := Exponent(s[0], sign, digits);
      JoinedExponent(s, sign, digits, SkipExponent(s));
    }
  }

  lemma JoinedExponent(s: Text, sign: Text, digits: Text, rest: Text)
    requires s != [] && s[1..] == sign + (digits + rest)
    ensures s == [s[0]] + sign + digits + rest
  {
    assert s == [s[0]] + s[1..];
    Group([s[0]] + sign, digits, rest);
    Group([s[0]], sign, digits + rest);
  }

  lemma FractionWasPrinted(s: Text) returns (fraction: Text)
    ensures Digits(fraction) && s == FractionText(fraction) + SkipFraction(s)
  {
    fraction := [];
    if |s| >= 2 && s[0] == DOT && IsDigit(s[1]) {
      fraction := DigitsWerePrinted(s[1..]);
      assert s == [DOT] + s[1..];
      Group([DOT], fraction, SkipFraction(s));
    }
  }

  lemma WholeWasPrinted(s: Text) returns (whole: Text)
    requires s != [] && IsDigit(s[0])
    ensures whole != [] && Digits(whole) && (whole[0] == '0' as int ==> |whole| == 1)
    ensures s == whole + if s[0] == '0' as int then s[1..] else SkipDigits(s[1..])
  {
    SkippedIsDigits(s[1..]);
    whole := [s[0]] + if s[0] == '0' as int then [] else SkippedDigits(s[1..]);
    assert s == [s[0]] + s[1..];
  }

  /** What a number without its sign leaves of the text. */
  function AfterNumber(t: Text): Text
    requires t != []
  {
    SkipExponent(SkipFraction(if t[0] == '0' as int then t[1..] else SkipDigits(t[1..])))
  }

  lemma UnsignedWasPrinted(t: Text) returns (whole: Text, fraction: Text, x: Exponent)
    requires t != [] && IsDigit(t[0])
    ensures whole != [] && Digits(whole) && (whole[0] == '0' as int ==> |whole| == 1)
    ensures Digits(fraction) && ExponentFits(x)
    ensures t == whole + (FractionText(fraction) + (ExponentText(x) + AfterNumber(t)))
  {
    whole := WholeWasPrinted(t);
    var after := if t[0] == '0' as int then t[1..] else SkipDigits(t[1..]);
    fraction := FractionWasPrinted(after);
    x := ExponentWasPrinted(SkipFraction(after));
  }

  function Sign(minus: bool): Text { if minus then [MINUS] else [] }

  lemma PrintedNumber(minus: bool, whole: Text, fraction: Text, x: Exponent, rest: Text)
    ensures Printed(Number(minus, whole, fraction, x)) + rest
         == Sign(minus) + (whole + (FractionText(fraction) + (ExponentText(x) + rest)))
  {
    Regroup(Sign(minus), whole, FractionText(fraction), ExponentText(x), rest);
  }

  lemma SignedText(s: Text) returns (minus: bool, t: Text)
    requires s != []
    ensures minus == (s[0] == MINUS) && t == (if s[0] == MINUS then s[1..] else s) && s == Sign(minus) + t
  {
    minus, t := s[0] == MINUS, if s[0] == MINUS then s[1..] else s;
  }

  lemma NumberWasPrinted(s: Text) returns (v: Json)
    requires ScanNumber(s).Done?
    ensures v.Number? && Fits(v) && s == Printed(v) + ScanNumber(s).rest
  {
    var minus, t := SignedText(s);
    var whole, fraction, x := UnsignedWasPrinted(t);
    v := Number(minus, whole, fraction, x);
    PrintedNumber(minus, whole, fraction, x, AfterNumber(t));
  }

  lemma WordWasPrinted(s: Text, word: Text)
    requires ScanWord(s, word).Done?
    ensures s == word + ScanWord(s, word).rest
  {
  }

  lemma {:induction false} ValueWasPrinted(s: Text, path: Path) returns (v: Json)
    requires ScanValue(s, path).Done?
    ensures Fits(v) && Skip(s) == Printed(v) + ScanValue(s, path).rest && FirstRepeat(v, path) == Nowhere
    decreases |s|, 3
  {
    var t := Skip(s);
    if t[0] == OPEN_OBJECT {
      v := ObjectWasPrinted(t[1..], path);
      assert t == [OPEN_OBJECT] + t[1..];
    } else if t[0] == OPEN_ARRAY {
      v := ArrayWasPrinted(t[1..], path);
      assert t == [OPEN_ARRAY] + t[1..];
    } else if t[0] == QUOTE {
      var name := StringWasPrinted(t);
      v := String(name);
    } else if t[0] in {'t' as int, 'f' as int, 'n' as int} {
      var word := if t[0] == 't' as int then TRUE else if t[0] == 'f' as int then FALSE else NULL;
      WordWasPrinted(t, word);
      v := Word(word);
    } else {
      v := NumberWasPrinted(t);
    }
  }

  /** White space in front of the first element, or of the first member, belongs to it. */
  lemma SpaceBeforeElements(gap: Text, es: Elements, path: Path, index: nat)
    requires Spaces(gap) && es.Element? && ElementsFit(es)
    ensures var wider := es.(before := gap + es.before);
      && ElementsFit(wider) && ElementsText(wider) == gap + ElementsText(es)
      && FirstInElements(wider, path, index) == FirstInElements(es, path, index)
  {
    WiderElementsText(gap, es);
  }

  /** An element from its value on. */
  function ElementBody(es: Elements): Text
    requires es.Element?
  {
    Printed(es.value) + (es.after + AfterElement(es))
  }

  lemma ElementsTextIs(es: Elements)
    requires es.Element?
    ensures ElementsText(es) == es.before + ElementBody(es)
  {
    Group(es.before + Printed(es.value), es.after, AfterElement(es));
    Group(es.before, Printed(es.value), es.after + AfterElement(es));
  }

  lemma WiderElementsText(gap: Text, es: Elements)
    requires es.Element?
    ensures ElementsText(es.(before := gap + es.before)) == gap + ElementsText(es)
  {
    ElementsTextIs(es);
    ElementsTextIs(es.(before := gap + es.before));
    Group(gap, es.before, ElementBody(es));
  }

  lemma SpaceBeforeMembers(gap: Text, ms: Members, path: Path, keys: set<Text>)
    requires Spaces(gap) && ms.Member? && MembersFit(ms)
    ensures var wider := ms.(before := gap + ms.before);
      && MembersFit(wider) && MembersText(wider) == gap + MembersText(ms)
      && FirstInMembers(wider, path, keys) == FirstInMembers(ms, path, keys)
  {
    var wider := ms.(before := gap + ms.before);
    var more := [QUOTE] + NameText(ms.name) + AfterName(ms, []);
    MemberParts(ms, []);
    MemberParts(wider, []);
    assert MembersText(ms) + [] == MembersText(ms) && MembersText(wider) + [] == MembersText(wider);
    assert (gap + ms.before) + more == gap + (ms.before + more);
  }

  lemma {:induction false} ArrayWasPrinted(s: Text, path: Path) returns (v: Json)
    requires ScanArray(s, path).Done?
    ensures v.Array? && Fits(v) && [OPEN_ARRAY] + s == Printed(v) + ScanArray(s, path).rest && FirstRepeat(v, path) == Nowhere
    decreases |s|, 5
  {
    SkippedIsSpaces(s);
    var t := Skip(s);
    if t != [] && t[0] == CLOSE_ARRAY {
      v := Array(Skipped(s), NoElements);
      Wrapped([OPEN_ARRAY], Skipped(s), [CLOSE_ARRAY], Skipped(s) + [CLOSE_ARRAY], s, t, t[1..]);
    } else {
      var es := ElementsWerePrinted(t, path, 0);
      SpaceBeforeElements(Skipped(s), es, path, 0);
      v := Array([], es.(before := Skipped(s) + es.before));
      Wrapped([OPEN_ARRAY], Skipped(s), ElementsText(es), ElementsText(v.elements), s, t, ScanArray(s, path).rest);
    }
  }

  lemma Wrapped(open: Text, gap: Text, body: Text, wide: Text, s: Text, t: Text, remaining: Text)
    requires s == gap + t && t == body + remaining && wide == gap + body
    ensures open + s == open + wide + remaining
  {
    assert s == wide + remaining;
  }

  /** Putting an element together from what was read. */
  lemma ElementTail(es: Elements, t: Text, remaining: Text)
    requires es.Element?
    requires if es.rest.NoElements? then t == [CLOSE_ARRAY] + remaining
             else t == [COMMA] + (ElementsText(es.rest) + remaining)
    ensures AfterElement(es) + remaining == t
  {
    if es.rest.Element? {
      Group([COMMA], ElementsText(es.rest), remaining);
    }
  }

  lemma ElementOf(before: Text, value: Json, after: Text, rest: Elements, s: Text, behind: Text, t: Text, remaining: Text)
    requires s == before + (Printed(value) + behind) && behind == after + t
    requires if rest.NoElements? then t == [CLOSE_ARRAY] + remaining
             else t == [COMMA] + (ElementsText(rest) + remaining)
    ensures s == ElementsText(Element(before, value, after, rest)) + remaining
  {
    var es := Element(before, value, after, rest);
    ElementTail(es, t, remaining);
    ElementParts(es, remaining);
    Group(before, Printed(value), behind);
  }

  lemma {:induction false} ElementsWerePrinted(s: Text, path: Path, index: nat) returns (es: Elements)
    requires ScanElements(s, path, index).Done?
    ensures es.Element? && ElementsFit(es) && s == ElementsText(es) + ScanElements(s, path, index).rest
    ensures FirstInElements(es, path, index) == Nowhere
    decreases |s|, 4
  {
    var value := ValueWasPrinted(s, path + [Index(index)]);
    var after := ScanValue(s, path + [Index(index)]).rest;
    var t := Skip(after);
    SkippedIsSpaces(s);
    SkippedIsSpaces(after);
    var rest := MoreElementsWerePrinted(t, path, index + 1);
    es := Element(Skipped(s), value, Skipped(after), rest);
    ElementOf(Skipped(s), value, Skipped(after), rest, s, after, t, ScanElements(s, path, index).rest);
  }

  lemma {:induction false} MoreElementsWerePrinted(t: Text, path: Path, index: nat) returns (rest: Elements)
    requires MoreElements(t, path, index).Done?
    ensures ElementsFit(rest) && FirstInElements(rest, path, index) == Nowhere
    ensures var remaining := MoreElements(t, path, index).rest;
      if rest.NoElements? then t == [CLOSE_ARRAY] + remaining else t == [COMMA] + (ElementsText(rest) + remaining)
    decreases |t|, 0
  {
    rest := NoElements;
    if t[0] == COMMA {
      SkippedIsSpaces(t[1..]);
      var more := ElementsWerePrinted(Skip(t[1..]), path, index);
      SpaceBeforeElements(Skipped(t[1..]), more, path, index);
      rest := more.(before := Skipped(t[1..]) + more.before);
      Behind(t, Skipped(t[1..]), ElementsText(more), MoreElements(t, path, index).rest, ElementsText(rest));
    }
  }

  lemma {:induction false} ObjectWasPrinted(s: Text, path: Path) returns (v: Json)
    requires ScanObject(s, path).Done?
    ensures v.Object? && Fits(v) && [OPEN_OBJECT] + s == Printed(v) + ScanObject(s, path).rest && FirstRepeat(v, path) == Nowhere
    decreases |s|, 5
  {
    SkippedIsSpaces(s);
    var t := Skip(s);
    if t != [] && t[0] == CLOSE_OBJECT {
      v := Object(Skipped(s), NoMembers);
      Wrapped([OPEN_OBJECT], Skipped(s), [CLOSE_OBJECT], Skipped(s) + [CLOSE_OBJECT], s, t, t[1..]);
    } else {
      var ms := MembersWerePrinted(t, path, {});
      SpaceBeforeMembers(Skipped(s), ms, path, {});
      v := Object([], ms.(before := Skipped(s) + ms.before));
      Wrapped([OPEN_OBJECT], Skipped(s), MembersText(ms), MembersText(v.members), s, t, ScanObject(s, path).rest);
    }
  }

  lemma Behind(t: Text, gap: Text, body: Text, remaining: Text, wide: Text)
    requires t != [] && t[0] == COMMA && t[1..] == gap + (body + remaining) && wide == gap + body
    ensures t == [COMMA] + (wide + remaining)
  {
    assert t == [COMMA] + t[1..];
  }

  lemma MemberFits(name: Name, beforeColon: Text, afterColon: Text, value: Json, after: Text, rest: Members, path: Path, keys: set<Text>)
    requires NameFits(name) && Spaces(beforeColon) && Spaces(afterColon) && Fits(value) && Spaces(after) && MembersFit(rest)
    requires Decoded(name) !in keys && FirstRepeat(value, KeyPath(path, Decoded(name))) == Nowhere
    requires FirstInMembers(rest, path, keys + {Decoded(name)}) == Nowhere
    ensures var ms := Member([], name, beforeColon, afterColon, value, after, rest);
      MembersFit(ms) && FirstInMembers(ms, path, keys) == Nowhere
  {
  }

  /** Putting a member together from what was read. */
  lemma MemberTail(ms: Members, t: Text, remaining: Text)
    requires ms.Member?
    requires if ms.rest.NoMembers? then t == [CLOSE_OBJECT] + remaining
             else t == [COMMA] + (MembersText(ms.rest) + remaining)
    ensures AfterMember(ms) + remaining == t
  {
    if ms.rest.Member? {
      Group([COMMA], MembersText(ms.rest), remaining);
    }
  }

  lemma ColonThen(colon: Text, afterColon: Text, value: Text, follow: Text)
    requires colon != [] && colon[0] == COLON && colon[1..] == afterColon + (value + follow)
    ensures colon == [COLON] + (afterColon + value + follow)
  {
    Group(afterColon, value, follow);
    assert colon == [colon[0]] + colon[1..];
  }

  lemma MemberOf(
    name: Name, beforeColon: Text, afterColon: Text, value: Json, after: Text, rest: Members, s: Text, behind: Text,
    colon: Text, follow: Text, t: Text, remaining: Text)
    requires s == [QUOTE] + NameText(name) + behind && behind == beforeColon + colon
    requires colon != [] && colon[0] == COLON && colon[1..] == afterColon + (Printed(value) + follow) && follow == after + t
    requires if rest.NoMembers? then t == [CLOSE_OBJECT] + remaining
             else t == [COMMA] + (MembersText(rest) + remaining)
    ensures s == MembersText(Member([], name, beforeColon, afterColon, value, after, rest)) + remaining
  {
    var ms := Member([], name, beforeColon, afterColon, value, after, rest);
    MemberTail(ms, t, remaining);
    ColonThen(colon, afterColon, Printed(value), follow);
    MemberParts(ms, remaining);
    assert [] + s == s;
  }

  function ColonOf(s: Text): Text
    requires s != [] && s[0] == QUOTE && ScanString(s).Literal?
  {
    Skip(ScanString(s).rest)
  }

  /** The key and the value of a member that was accepted. */
  lemma {:induction false} PairWasPrinted(s: Text, path: Path, keys: set<Text>) returns (name: Name, value: Json)
    requires ScanMembers(s, path, keys).Done?
    ensures s != [] && s[0] == QUOTE && ScanString(s).Literal?
    ensures NameFits(name) && s == [QUOTE] + NameText(name) + ScanString(s).rest && Decoded(name) !in keys
    ensures var colon := ColonOf(s);
      && colon != [] && colon[0] == COLON && Fits(value)
      && var path' := KeyPath(path, Decoded(name));
         && FirstRepeat(value, path') == Nowhere
         && ScanValue(colon[1..], path').Done?
         && Skip(colon[1..]) == Printed(value) + ScanValue(colon[1..], path').rest
         && ScanMembers(s, path, keys) == MoreMembers(Skip(ScanValue(colon[1..], path').rest), path, keys + {Decoded(name)})
    decreases |s|, 3
  {
    name := StringWasPrinted(s);
    value := ValueWasPrinted(ColonOf(s)[1..], KeyPath(path, Decoded(name)));
  }

  lemma {:induction false} MembersWerePrinted(s: Text, path: Path, keys: set<Text>) returns (ms: Members)
    requires ScanMembers(s, path, keys).Done?
    ensures ms.Member? && MembersFit(ms) && s == MembersText(ms) + ScanMembers(s, path, keys).rest
    ensures FirstInMembers(ms, path, keys) == Nowhere
    decreases |s|, 4
  {
    var name, value := PairWasPrinted(s, path, keys);
    var behind, colon := ScanString(s).rest, ColonOf(s);
    var after := ScanValue(colon[1..], KeyPath(path, Decoded(name))).rest;
    SkippedIsSpaces(behind);
    SkippedIsSpaces(colon[1..]);
    SkippedIsSpaces(after);
    var rest := MoreMembersWerePrinted(Skip(after), path, keys + {Decoded(name)});
    ms := Member([], name, Skipped(behind), Skipped(colon[1..]), value, Skipped(after), rest);
    MemberFits(name, Skipped(behind), Skipped(colon[1..]), value, Skipped(after), rest, path, keys);
    MemberOf(name, Skipped(behind), Skipped(colon[1..]), value, Skipped(after), rest, s, behind, colon, after,
             Skip(after), ScanMembers(s, path, keys).rest);
  }

  lemma {:induction false} MoreMembersWerePrinted(t: Text, path: Path, keys: set<Text>) returns (rest: Members)
    requires MoreMembers(t, path, keys).Done?
    ensures MembersFit(rest) && FirstInMembers(rest, path, keys) == Nowhere
    ensures var remaining := MoreMembers(t, path, keys).rest;
      if rest.NoMembers? then t == [CLOSE_OBJECT] + remaining else t == [COMMA] + (MembersText(rest) + remaining)
    decreases |t|, 0
  {
    rest := NoMembers;
    if t[0] == COMMA {
      SkippedIsSpaces(t[1..]);
      var more := MembersWerePrinted(Skip(t[1..]), path, keys);
      SpaceBeforeMembers(Skipped(t[1..]), more, path, keys);
      rest := more.(before := Skipped(t[1..]) + more.before);
      Behind(t, Skipped(t[1..]), MembersText(more), MoreMembers(t, path, keys).rest, MembersText(rest));
    }
  }

  /* ---- the scanner is exact ---- */

  /** The text is a value between white space. */
  ghost predicate Is(s: Text, v: Json) {
    && Fits(v)
    && exists before, after :: IsBetween(s, before, v, after)
  }

  ghost predicate IsBetween(s: Text, before: Text, v: Json, after: Text) {
    Spaces(before) && Spaces(after) && s == before + Printed(v) + after
  }

  /** Every text of the grammar is judged by its keys: accepted when they differ, and otherwise refused with
      the place of the first repetition. */
  lemma EveryTextIsJudged(s: Text, v: Json)
    requires Is(s, v)
    ensures ScanText(s) == match FirstRepeat(v, []) case Nowhere => Accepted case At(path) => RejectedDuplicate(path)
    ensures ScanText(s) == Accepted <==> KeysDiffer(v)
  {
    var before, after :| IsBetween(s, before, v, after);
    PrintedIsJudged(before, v, after);
    NowhereIffDifferent(v, []);
  }

  lemma AcceptedWasPrinted(s: Text) returns (v: Json)
    requires ScanText(s) == Accepted
    ensures Is(s, v) && KeysDiffer(v)
  {
    ScanValueSkips(s, []);
    v := ValueWasPrinted(s, []);
    var rest := ScanValue(s, []).rest;
    SkippedIsSpaces(s);
    SkippedIsSpaces(rest);
    assert IsBetween(s, Skipped(s), v, rest);
    NowhereIffDifferent(v, []);
  }

  /** The scanner accepts exactly the RFC 8259 texts in which no object at any depth repeats a decoded key. */
  lemma ScannerIsExact(s: Text)
    ensures ScanText(s) == Accepted <==> exists v :: Is(s, v) && KeysDiffer(v)
  {
    if ScanText(s) == Accepted {
      var v := AcceptedWasPrinted(s);
      assert Is(s, v) && KeysDiffer(v);
    }
    if v :| Is(s, v) && KeysDiffer(v) {
      EveryTextIsJudged(s, v);
    }
  }
}
