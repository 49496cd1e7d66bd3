/** The signed page cursors of apps/api/src/routes/reporting.ts. The keyed hash and the JSON text of a payload
    are parameters; of JSON only that parsing undoes printing is used. Base64url is the encoding of section 5
    of RFC 4648 without padding. */
module CursorCodec {
  import opened Basics

  type Byte = b: int | 0 <= b < 256

  /* ---- base64url ---- */

  type Sextet = s: int | 0 <= s < 64

  function CharOf(s: Sextet): char {
    if s < 26 then ('A' as int + s) as char
    else if s < 52 then ('a' as int + (s - 26)) as char
    else if s < 62 then ('0' as int + (s - 52)) as char
    else if s == 62 then '-'
    else '_'
  }

  function SextetOf(c: char): Option<Sextet> {
    if 'A' <= c <= 'Z' then Some(c as int - 'A' as int)
    else if 'a' <= c <= 'z' then Some(c as int - 'a' as int + 26)
    else if '0' <= c <= '9' then Some(c as int - '0' as int + 52)
    else if c == '-' then Some(62)
    else if c == '_' then Some(63)
    else None
  }

  lemma SextetOfChar(s: Sextet)
    ensures SextetOf(CharOf(s)) == Some(s) && CharOf(s) != '.'
  {
  }

  /** Three bytes become four characters; one or two bytes at the end become two or three. */
  function Encode(b: seq<Byte>): string {
    if b == [] then ""
    else if |b| == 1 then [CharOf(b[0] / 4), CharOf(b[0] % 4 * 16)]
    else if |b| == 2 then [CharOf(b[0] / 4), CharOf(b[0] % 4 * 16 + b[1] / 16), CharOf(b[1] % 16 * 4)]
    else
      [CharOf(b[0] / 4), CharOf(b[0] % 4 * 16 + b[1] / 16), CharOf(b[1] % 16 * 4 + b[2] / 64), CharOf(b[2] % 64)]
      + Encode(b[3..])
  }

  function Sextets(s: string): Option<seq<Sextet>> {
    if s == "" then Some([])
    else
      match SextetOf(s[0])
      case None => None
      case Some(x) =>
        match Sextets(s[1..])
        case None => None
        case Some(rest) => Some([x] + rest)
  }

  function First(a: int, b: int): Byte
    requires 0 <= a < 64 && 0 <= b < 64
  {
    a * 4 + b / 16
  }

  function Second(b: int, c: int): Byte
    requires 0 <= b < 64 && 0 <= c < 64
  {
    b % 16 * 16 + c / 4
  }

  function Third(c: int, d: int): Byte
    requires 0 <= c < 64 && 0 <= d < 64
  {
    c % 4 * 64 + d
  }

  function Bytes(x: seq<Sextet>): seq<Byte> {
    if |x| < 2 then []
    else if |x| == 2 then [First(x[0], x[1])]
    else if |x| == 3 then [First(x[0], x[1]), Second(x[1], x[2])]
    else [First(x[0], x[1]), Second(x[1], x[2]), Third(x[2], x[3])] + Bytes(x[4..])
  }

  function Decode(s: string): Option<seq<Byte>> {
    match Sextets(s)
    case None => None
    case Some(x) => Some(Bytes(x))
  }

  function SextetsOf(b: seq<Byte>): seq<Sextet> {
    if b == [] then []
    else if |b| == 1 then [b[0] / 4, b[0] % 4 * 16]
    else if |b| == 2 then [b[0] / 4, b[0] % 4 * 16 + b[1] / 16, b[1] % 16 * 4]
    else [b[0] / 4, b[0] % 4 * 16 + b[1] / 16, b[1] % 16 * 4 + b[2] / 64, b[2] % 64] + SextetsOf(b[3..])
  }

  function Chars(x: seq<Sextet>): string { seq(|x|, i requires 0 <= i < |x| => CharOf(x[i])) }

  lemma {:induction false} EncodeIsChars(b: seq<Byte>)
    ensures Encode(b) == Chars(SextetsOf(b))
  {
    if |b| >= 3 {
      EncodeIsChars(b[3..]);
    }
  }

  lemma {:induction false} SextetsUndoChars(x: seq<Sextet>)
    ensures Sextets(Chars(x)) == Some(x)
    ensures '.' !in Chars(x)
  {
    if x != [] {
      SextetOfChar(x[0]);
      SextetsUndoChars(x[1..]);
      assert Chars(x)[1..] == Chars(x[1..]) && Chars(x)[0] == CharOf(x[0]);
      assert [x[0]] + x[1..] == x;
    }
  }

  lemma ThreeBytes(a: Byte, b: Byte, c: Byte)
    ensures First(a / 4, a % 4 * 16 + b / 16) == a
    ensures Second(a % 4 * 16 + b / 16, b % 16 * 4 + c / 64) == b
    ensures Third(b % 16 * 4 + c / 64, c % 64) == c
  {
  }

  lemma {:induction false} BytesUndoSextets(b: seq<Byte>)
    ensures Bytes(SextetsOf(b)) == b
  {
    if |b| == 1 {
      ThreeBytes(b[0], 0, 0);
    } else if |b| == 2 {
      ThreeBytes(b[0], b[1], 0);
    } else if |b| >= 3 {
      ThreeBytes(b[0], b[1], b[2]);
      BytesUndoSextets(b[3..]);
      assert SextetsOf(b)[4..] == SextetsOf(b[3..]);
    }
  }

  /** Decoding undoes encoding, for every sequence of bytes, and the text never holds a dot. */
  lemma DecodeUndoesEncode(b: seq<Byte>)
    ensures Decode(Encode(b)) == Some(b) && '.' !in Encode(b)
  {
    EncodeIsChars(b);
    SextetsUndoChars(SextetsOf(b));
    BytesUndoSextets(b);
  }

  /* ---- the text in groups of 24 bits ---- */

  /** Which number a character stands for, by its code point: A to Z are 0 to 25, a to z are 26 to 51, the digits are
      52 to 61, minus is 62 and underscore 63. */
  predicate Stands(c: char, s: int) {
    var code := c as int;
    || (65 <= code <= 90 && s == code - 65) || (97 <= code <= 122 && s == code - 71) || (48 <= code <= 57 && s == code + 4)
    || (code == 45 && s == 62) || (code == 95 && s == 63)
  }

  function At(x: seq<int>, i: nat): int { if i < |x| then x[i] else 0 }

  /** Three bytes from `i` on and four numbers from `j` on are the same 24 bits, the first being the most significant;
      what is not there counts as zeros. */
  predicate SameBits(b: seq<int>, i: nat, x: seq<int>, j: nat) {
    65536 * At(b, i) + 256 * At(b, i + 1) + At(b, i + 2)
    == 262144 * At(x, j) + 4096 * At(x, j + 1) + 64 * At(x, j + 2) + At(x, j + 3)
  }

  lemma TheBitsOfThree(a: Byte, b: Byte, c: Byte)
    ensures 65536 * a + 256 * b + c
         == 262144 * (a / 4) + 4096 * (a % 4 * 16 + b / 16) + 64 * (b % 16 * 4 + c / 64) + c % 64
  {
  }

  lemma FirstGroup(b: seq<Byte>)
    requires b != []
    ensures SameBits(b, 0, SextetsOf(b), 0)
  {
    TheBitsOfThree(b[0], if |b| > 1 then b[1] else 0, if |b| > 2 then b[2] else 0);
  }

  lemma AtBehind(x: seq<int>, n: nat, i: nat)
    requires n <= |x|
    ensures At(x, n + i) == At(x[n..], i)
  {
  }

  lemma GroupBehind(b: seq<int>, i: nat, x: seq<int>, j: nat)
    requires |b| >= 3 && |x| >= 4 && SameBits(b[3..], i, x[4..], j)
    ensures SameBits(b, 3 + i, x, 4 + j)
  {
    AtBehind(b, 3, i);
    AtBehind(b, 3, i + 1);
    AtBehind(b, 3, i + 2);
    AtBehind(x, 4, j);
    AtBehind(x, 4, j + 1);
    AtBehind(x, 4, j + 2);
    AtBehind(x, 4, j + 3);
  }

  lemma {:induction false} GroupsAreTheBits(b: seq<Byte>, g: nat)
    ensures 3 * g < |b| ==> SameBits(b, 3 * g, SextetsOf(b), 4 * g)
  {
    if g == 0 && b != [] {
      FirstGroup(b);
    } else if 3 * g < |b| {
      GroupsAreTheBits(b[3..], g - 1);
      assert SextetsOf(b)[4..] == SextetsOf(b[3..]);
      GroupBehind(b, 3 * (g - 1), SextetsOf(b), 4 * (g - 1));
    }
  }

  lemma {:induction false} FourForThree(b: seq<Byte>)
    ensures |SextetsOf(b)| == (4 * |b| + 2) / 3
  {
    if |b| >= 3 {
      FourForThree(b[3..]);
    }
  }

  lemma StandsForSextet(s: Sextet)
    ensures Stands(CharOf(s), s)
  {
  }

  /** A text has four characters for three bytes, rounded up; its characters stand for the numbers of a list that has
      the same bits as the bytes, group by group. */
  lemma EncodeIsTheBits(b: seq<Byte>)
    ensures
      exists x: seq<Sextet> ::
        && |Encode(b)| == |x| == (4 * |b| + 2) / 3
        && (forall i | 0 <= i < |x| :: Stands(Encode(b)[i], x[i]))
        && forall g: nat | 3 * g < |b| :: SameBits(b, 3 * g, x, 4 * g)
  {
    var x := SextetsOf(b);
    EncodeIsChars(b);
    FourForThree(b);
    forall i | 0 <= i < |x| ensures Stands(Encode(b)[i], x[i]) { StandsForSextet(x[i]); }
    forall g: nat | 3 * g < |b| ensures SameBits(b, 3 * g, x, 4 * g) { GroupsAreTheBits(b, g); }
  }

  /* ---- parts between dots ---- */

  function Split(s: string): (r: seq<string>)
    ensures r != []
  {
    if s == "" then [""]
    else if s[0] == '.' then [""] + Split(s[1..])
    else [[s[0]] + Split(s[1..])[0]] + Split(s[1..])[1..]
  }

  lemma {:induction false} SplitPart(part: string, rest: string)
    requires '.' !in part
    ensures Split(part + "." + rest) == [part] + Split(rest)
  {
    if part == "" {
      assert (part + "." + rest)[1..] == rest;
    } else {
      assert (part + "." + rest)[1..] == part[1..] + "." + rest;
      SplitPart(part[1..], rest);
      assert [part[0]] + part[1..] == part;
    }
  }

  lemma {:induction false} SplitLast(part: string)
    requires '.' !in part
    ensures Split(part) == [part]
  {
    if part != "" {
      SplitLast(part[1..]);
      assert [part[0]] + part[1..] == part;
    }
  }

  /* ---- cursors ---- */

  datatype Position = Position(attempt: string, e: int, W: int, elapsed: int)

  datatype Payload = Payload(slot: string, position: Position)

  datatype Key = Key(version: string, secret: seq<Byte>)

  datatype Keys = Keys(active: Key, previous: Option<Key>)

  /** The signature of a text under a key, and the JSON text of a payload with its reading, which fails on
      anything that the cursor schema refuses. */
  datatype Codec = Codec(
    mac: (seq<Byte>, string) -> seq<Byte>, text: Payload -> seq<Byte>, parse: seq<Byte> -> Option<Payload>)

  ghost predicate Sound(c: Codec, p: Payload) { c.parse(c.text(p)) == Some(p) }

  predicate VersionChar(c: char) { 'a' <= c <= 'z' || 'A' <= c <= 'Z' || '0' <= c <= '9' || c == '_' || c == '-' }

  predicate KeyFits(k: Key) {
    && 1 <= |k.version| <= 16 && (forall i | 0 <= i < |k.version| :: VersionChar(k.version[i]))
    && k.version[0] != '_' && k.version[0] != '-' && |k.secret| >= 32
  }

  /** validateKeys */
  predicate KeysFit(k: Keys) {
    && KeyFits(k.active)
    && (k.previous.Some? ==>
          KeyFits(k.previous.value) && k.active.version != k.previous.value.version && k.active.secret != k.previous.value.secret)
  }

  function Signed(version: string, encoded: string): string { "v1" + "." + (version + "." + encoded) }

  function EncodeCursor(c: Codec, keys: Keys, slot: string, position: Position): string {
    var signed := Signed(keys.active.version, Encode(c.text(Payload(slot, position))));
    signed + "." + Encode(c.mac(keys.active.secret, signed))
  }

  function KeyOf(keys: Keys, version: string): Option<Key> {
    if keys.active.version == version then Some(keys.active)
    else if keys.previous.Some? && keys.previous.value.version == version then keys.previous
    else None
  }

  function DecodeCursor(c: Codec, keys: Keys, slot: string, cursor: string): Option<Position> {
    var parts := Split(cursor);
    if |parts| != 4 || parts[0] != "v1" || KeyOf(keys, parts[1]).None? then None
    else
      var signed := Signed(parts[1], parts[2]);
      var actual := Decode(parts[3]);
      if actual != Some(c.mac(KeyOf(keys, parts[1]).value.secret, signed)) then None
      else
        match Decode(parts[2])
        case None => None
        case Some(bytes) =>
          match c.parse(bytes)
          case None => None
          case Some(payload) => if payload.slot != slot then None else Some(payload.position)
  }

  lemma NoDot(k: Key)
    requires KeyFits(k)
    ensures '.' !in k.version
  {
  }

  lemma Regroup(a: string, b: string, c: string, d: string)
    ensures a + "." + (b + "." + c) + "." + d == a + "." + (b + "." + (c + "." + d))
  {
  }

  /** The four parts of a cursor. */
  lemma CursorParts(c: Codec, keys: Keys, slot: string, position: Position)
    requires KeysFit(keys)
    ensures var encoded := Encode(c.text(Payload(slot, position)));
      Split(EncodeCursor(c, keys, slot, position))
      == ["v1", keys.active.version, encoded, Encode(c.mac(keys.active.secret, Signed(keys.active.version, encoded)))]
  {
    var version, encoded := keys.active.version, Encode(c.text(Payload(slot, position)));
    var signature := Encode(c.mac(keys.active.secret, Signed(version, encoded)));
    NoDot(keys.active);
    DecodeUndoesEncode(c.text(Payload(slot, position)));
    DecodeUndoesEncode(c.mac(keys.active.secret, Signed(version, encoded)));
    SplitPart("v1", version + "." + (encoded + "." + signature));
    SplitPart(version, encoded + "." + signature);
    SplitPart(encoded, signature);
    SplitLast(signature);
    Regroup("v1", version, encoded, signature);
  }

  /** For every slot and position a cursor is read back, also after its key has become the previous one; for
      any other slot, or once its key version is gone, it is refused. */
  lemma CursorRoundTrip(c: Codec, keys: Keys, slot: string, position: Position, later: Keys, asked: string)
    requires KeysFit(keys) && KeysFit(later) && Sound(c, Payload(slot, position))
    ensures DecodeCursor(c, keys, slot, EncodeCursor(c, keys, slot, position)) == Some(position)
    ensures later.previous == Some(keys.active) ==>
      DecodeCursor(c, later, slot, EncodeCursor(c, keys, slot, position)) == Some(position)
    ensures asked != slot ==> DecodeCursor(c, later, asked, EncodeCursor(c, keys, slot, position)) == None
    ensures KeyOf(later, keys.active.version) == None ==>
      DecodeCursor(c, later, asked, EncodeCursor(c, keys, slot, position)) == None
  {
    var encoded := Encode(c.text(Payload(slot, position)));
    CursorParts(c, keys, slot, position);
    DecodeUndoesEncode(c.text(Payload(slot, position)));
    DecodeUndoesEncode(c.mac(keys.active.secret, Signed(keys.active.version, encoded)));
  }

  /* ---- what is accepted ---- */

  function Join(parts: seq<string>): string {
    if |parts| <= 1 then (if parts == [] then "" else parts[0]) else parts[0] + "." + Join(parts[1..])
  }

  lemma {:induction false} SplitJoins(s: string)
    ensures Join(Split(s)) == s && forall i | 0 <= i < |Split(s)| :: '.' !in Split(s)[i]
  {
    if s != "" {
      SplitJoins(s[1..]);
      var rest := Split(s[1..]);
      assert s == [s[0]] + s[1..];
      if s[0] == '.' {
        assert Split(s)[1..] == rest;
      } else {
        assert Split(s)[1..] == rest[1..] && Split(s)[0] == [s[0]] + rest[0];
        assert |rest| > 1 ==> [s[0]] + (rest[0] + "." + Join(rest[1..])) == [s[0]] + rest[0] + "." + Join(rest[1..]);
      }
    }
  }

  /** The cursor is v1, a key version, a payload and a signature with dots between them; the key is one of the two,
      and the signature is what that key makes of all before it; the payload is of the slot and holds the
      position. */
  ghost predicate IsSignedBy(
    c: Codec, key: Key, encoded: string, signature: string, slot: string, cursor: string, position: Position)
  {
    var authenticated := "v1" + ("." + (key.version + ("." + encoded)));
    && '.' !in encoded && '.' !in signature && cursor == authenticated + ("." + signature)
    && Decode(signature) == Some(c.mac(key.secret, authenticated))
    && Decode(encoded).Some? && c.parse(Decode(encoded).value) == Some(Payload(slot, position))
  }

  ghost predicate IsSigned(c: Codec, keys: Keys, slot: string, cursor: string, position: Position) {
    exists key, encoded, signature ::
      (key == keys.active || keys.previous == Some(key)) && IsSignedBy(c, key, encoded, signature, slot, cursor, position)
  }

  lemma SignedIs(version: string, encoded: string)
    ensures Signed(version, encoded) == "v1" + ("." + (version + ("." + encoded)))
  {
  }

  lemma SignedRegroups(version: string, encoded: string, signature: string)
    ensures Signed(version, encoded) + ("." + signature) == "v1" + "." + (version + "." + (encoded + "." + signature))
  {
  }

  lemma SignedParts(version: string, encoded: string, signature: string)
    requires '.' !in version && '.' !in encoded && '.' !in signature
    ensures Split(Signed(version, encoded) + ("." + signature)) == ["v1", version, encoded, signature]
  {
    SignedRegroups(version, encoded, signature);
    SplitPart("v1", version + "." + (encoded + "." + signature));
    SplitPart(version, encoded + "." + signature);
    SplitPart(encoded, signature);
    SplitLast(signature);
  }

  lemma FourParts(parts: seq<string>)
    requires |parts| == 4
    ensures Join(parts) == parts[0] + "." + (parts[1] + "." + (parts[2] + "." + parts[3]))
  {
    assert parts[1..][1..] == parts[2..] && parts[2..][1..] == parts[3..];
    assert Join(parts[3..]) == parts[3];
    assert Join(parts[2..]) == parts[2] + "." + Join(parts[3..]);
    assert Join(parts[1..]) == parts[1] + "." + Join(parts[2..]);
  }

  lemma AcceptedIsSigned(c: Codec, keys: Keys, slot: string, cursor: string, position: Position)
    requires DecodeCursor(c, keys, slot, cursor) == Some(position)
    ensures IsSigned(c, keys, slot, cursor, position)
  {
    var parts := Split(cursor);
    SplitJoins(cursor);
    FourParts(parts);
    var key := KeyOf(keys, parts[1]).value;
    SignedIs(key.version, parts[2]);
    SignedRegroups(key.version, parts[2], parts[3]);
    assert IsSignedBy(c, key, parts[2], parts[3], slot, cursor, position);
  }

  lemma SignedIsAccepted(c: Codec, keys: Keys, slot: string, cursor: string, position: Position)
    requires KeysFit(keys) && IsSigned(c, keys, slot, cursor, position)
    ensures DecodeCursor(c, keys, slot, cursor) == Some(position)
  {
    var key, encoded, signature :|
      (key == keys.active || keys.previous == Some(key)) && IsSignedBy(c, key, encoded, signature, slot, cursor, position);
    NoDot(key);
    SignedIs(key.version, encoded);
    SignedParts(key.version, encoded, signature);
  }

  /** A cursor is read as a position exactly when it is signed for it. */
  lemma AcceptedIffSigned(c: Codec, keys: Keys, slot: string, cursor: string, position: Position)
    requires KeysFit(keys)
    ensures DecodeCursor(c, keys, slot, cursor) == Some(position) <==> IsSigned(c, keys, slot, cursor, position)
  {
    if DecodeCursor(c, keys, slot, cursor) == Some(position) {
      AcceptedIsSigned(c, keys, slot, cursor, position);
    }
    if IsSigned(c, keys, slot, cursor, position) {
      SignedIsAccepted(c, keys, slot, cursor, position);
    }
  }

  ghost predicate StandsBelow(c: char, n: int) { exists s | 0 <= s < n :: Stands(c, s) }

  /** The version begins with a letter or a digit and goes on with at most fifteen letters, digits, underscores and
      minus signs, and the secret has 32 bytes at least. */
  ghost predicate IsKey(key: Key) {
    && 0 < |key.version| < 17 && StandsBelow(key.version[0], 62) && (forall c <- key.version :: StandsBelow(c, 64))
    && |key.secret| > 31
  }

  /** Keys are accepted exactly if both are keys, and neither the version nor the secret comes twice. */
  lemma KeysFitExactly(keys: Keys)
    ensures KeysFit(keys) <==>
      match keys.previous
      case None => IsKey(keys.active)
      case Some(other) =>
        IsKey(keys.active) && IsKey(other)
        && !(keys.active.version == other.version || keys.active.secret == other.secret)
  {
    KeyFitsExactly(keys.active);
    if keys.previous.Some? {
      KeyFitsExactly(keys.previous.value);
    }
  }

  lemma StandsForSome(c: char)
    ensures VersionChar(c) <==> StandsBelow(c, 64)
    ensures VersionChar(c) && c != '-' && c != '_' <==> StandsBelow(c, 62)
  {
    if SextetOf(c).Some? {
      assert Stands(c, SextetOf(c).value);
    }
  }

  lemma KeyFitsExactly(key: Key)
    ensures KeyFits(key) <==> IsKey(key)
  {
    forall c | c in key.version ensures VersionChar(c) <==> StandsBelow(c, 64) { StandsForSome(c); }
    if key.version != "" {
      StandsForSome(key.version[0]);
    }
  }
}
