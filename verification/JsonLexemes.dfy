/** The units that the grammar and the scanner tell apart, by the numbers that RFC 8259 gives them. */
module JsonLexemes {
  import opened JsonGrammar
  import opened JsonScan

  /** Section 7: the unit behind a backslash, and what both stand for. */
  const ESCAPES: map<int, int> :=
    map[0x22 := 0x22, 0x5C := 0x5C, 0x2F := 0x2F, 0x62 := 0x08, 0x66 := 0x0C, 0x6E := 0x0A, 0x72 := 0x0D, 0x74 := 0x09]

  /** The value of a hexadecimal digit. */
  predicate Worth(u: int, v: int) {
    || (0x30 <= u <= 0x39 && v == u - 0x30)
    || (0x41 <= u <= 0x46 && v == u - 0x37)
    || (0x61 <= u <= 0x66 && v == u - 0x57)
  }

  predicate Alphabetic(u: int) { 0x41 <= u <= 0x5A || 0x61 <= u <= 0x7A }

  predicate Numeric(u: int) { 0x30 <= u <= 0x39 }

  /** Section 2: white space, structural units and the three words; section 6: digits and what stands between them. */
  lemma TokensAreOfTheRfc(u: Unit)
    ensures IsSpace(u) <==> u in {0x20, 0x09, 0x0A, 0x0D}
    ensures OPEN_ARRAY == 0x5B && CLOSE_ARRAY == 0x5D && OPEN_OBJECT == 0x7B && CLOSE_OBJECT == 0x7D
    ensures COLON == 0x3A && COMMA == 0x2C && QUOTE == 0x22 && BACKSLASH == 0x5C && MINUS == 0x2D && DOT == 0x2E
    ensures TRUE == [0x74, 0x72, 0x75, 0x65] && FALSE == [0x66, 0x61, 0x6C, 0x73, 0x65] && NULL == [0x6E, 0x75, 0x6C, 0x6C]
    ensures IsDigit(u) <==> Numeric(u)
  {
  }

  /** Section 7: which units stand for themselves, which escapes there are, and what each stands for. */
  lemma StringsAreOfTheRfc(i: Item)
    ensures ItemFits(i) <==>
      match i
      case Plain(u) => 0x20 <= u <= 0x21 || 0x23 <= u <= 0x5B || 0x5D <= u
      case Short(letter) => letter in ESCAPES
      case Hex(a, b, c, d) => forall x | x in [a, b, c, d] :: exists v: int :: Worth(x, v)
    ensures ItemFits(i) ==>
      match i
      case Plain(u) => ItemText(i) == [u] && ItemValue(i) == u
      case Short(letter) => ItemText(i) == [0x5C, letter] && ItemValue(i) == ESCAPES[letter]
      case Hex(a, b, c, d) =>
        && ItemText(i) == [0x5C, 0x75, a, b, c, d]
        && exists p, q, r, s: int ::
             Worth(a, p) && Worth(b, q) && Worth(c, r) && Worth(d, s) && ItemValue(i) == 4096 * p + 256 * q + 16 * r + s
  {
    if i.Hex? {
      forall x: Unit | x in [i.a, i.b, i.c, i.d] ensures IsHex(x) <==> exists v: int :: Worth(x, v) {
        HexIsWorth(x);
      }
      assert i.a in [i.a, i.b, i.c, i.d] && i.b in [i.a, i.b, i.c, i.d];
      assert i.c in [i.a, i.b, i.c, i.d] && i.d in [i.a, i.b, i.c, i.d];
      if ItemFits(i) {
        HexIsWorth(i.a);
        HexIsWorth(i.b);
        HexIsWorth(i.c);
        HexIsWorth(i.d);
      }
    }
  }

  lemma HexIsWorth(u: Unit)
    ensures IsHex(u) <==> exists v: int :: Worth(u, v)
    ensures IsHex(u) ==> Worth(u, HexValue(u))
  {
    if IsHex(u) {
      assert Worth(u, HexValue(u));
    }
  }

  /** An error names a key on its path exactly if the key is a letter followed by letters and digits. */
  lemma PathsNameIdentifiers(path: Path, key: Text)
    ensures KeyPath(path, key) ==
      if |key| >= 1 && Alphabetic(key[0]) && forall i | 1 <= i < |key| :: Alphabetic(key[i]) || Numeric(key[i])
      then path + [Field(key)] else path
  {
  }
}
