/** The scanner as it runs: one offset that every method moves, and a set of keys for each object. Every
    method is proved to do what JsonScan says of the text from the offset on. */
module JsonScannerClass {
  import opened Basics
  import opened JsonGrammar
  import opened JsonScan
  import opened JsonNumbers

  /** What a method throws, if anything. */
  datatype Thrown = Nothing | SyntaxFault | DuplicateField(path: Path)

  class JsonScanner {
    const source: Text
    var offset: nat

    constructor (source: Text)
      ensures this.source == source && offset == 0
    {
      this.source := source;
      offset := 0;
    }

    predicate Inside()
      reads this
    {
      offset <= |source|
    }

    function Rest(): Text
      requires Inside()
      reads this
    {
      source[offset..]
    }

    /** The method ended as the function says, standing at the text that the function leaves. */
    predicate Ended(thrown: Thrown, scan: Scan)
      reads this
    {
      match scan
      case Done(rest) => thrown == Nothing && Inside() && Rest() == rest
      case Malformed => thrown == SyntaxFault
      case Repeated(path) => thrown == DuplicateField(path)
    }

    /** One unit further. */
    method Advance()
      requires offset < |source|
      modifies this
      ensures offset == old(offset) + 1 && Inside() && Rest() == old(Rest())[1..]
    {
      assert Rest()[1..] == source[offset + 1..];
      offset := offset + 1;
    }

    method SkipWhitespace()
      requires Inside()
      modifies this
      ensures Inside() && Rest() == Skip(old(Rest())) && old(offset) <= offset
    {
      while offset < |source| && IsSpace(source[offset])
        invariant Inside() && Skip(Rest()) == Skip(old(Rest())) && old(offset) <= offset
      {
        Advance();
      }
    }

    /** Moves past the closing quote of a string, skipping every unit behind a backslash. */
    method FindQuote() returns (closed: bool)
      requires Inside()
      modifies this
      ensures closed <==> ToQuote(old(Rest())) > 0
      ensures closed ==> offset == old(offset) + ToQuote(old(Rest()))
    {
      while offset < |source|
        invariant old(offset) <= offset
        invariant Inside() ==> (ToQuote(Rest()) == 0 <==> ToQuote(old(Rest())) == 0)
        invariant Inside() && ToQuote(Rest()) > 0 ==> ToQuote(old(Rest())) == offset - old(offset) + ToQuote(Rest())
        invariant !Inside() ==> ToQuote(old(Rest())) == 0
      {
        var character := source[offset];
        if character == QUOTE {
          offset := offset + 1;
          return true;
        }
        if character == BACKSLASH {
          assert |Rest()| >= 2 ==> Rest()[2..] == source[offset + 2..];
          offset := offset + 2;
        } else {
          Advance();
        }
      }
      return false;
    }

    method ReadString() returns (literal: Literal)
      requires Inside() && Rest() != [] && Rest()[0] == QUOTE
      modifies this
      ensures literal == ScanString(old(Rest()))
      ensures literal.Literal? ==> Inside() && Rest() == literal.rest && old(offset) < offset
    {
      var start := offset;
      offset := offset + 1;
      assert Rest() == old(Rest())[1..];
      var closed := FindQuote();
      if !closed {
        return NoLiteral;
      }
      assert source[start..offset][1..] == old(Rest())[1..][..offset - start - 1];
      assert Rest() == old(Rest())[1..][offset - start - 1..];
      match Unquote(source[start..offset][1..]) {
        case Bad => return NoLiteral;
        case Good(value) => return Literal(value, source[offset..]);
      }
    }

    method ReadWord(word: Text) returns (thrown: Thrown)
      requires Inside()
      modifies this
      ensures Ended(thrown, ScanWord(old(Rest()), word))
    {
      if offset + |word| > |source| || source[offset..offset + |word|] != word {
        assert |word| <= |Rest()| ==> Rest()[..|word|] == source[offset..offset + |word|];
        return SyntaxFault;
      }
      assert Rest()[..|word|] == source[offset..offset + |word|];
      assert Rest()[|word|..] == source[offset + |word|..];
      offset := offset + |word|;
      return Nothing;
    }

    /** The pattern match: over the longest number that begins here, or an error when none does. */
    method ReadNumber() returns (thrown: Thrown)
      requires Inside()
      modifies this
      ensures Ended(thrown, ScanNumber(old(Rest())))
      ensures if thrown == Nothing then LongestNumber(old(Rest()), offset - old(offset)) else NoNumber(old(Rest()))
    {
      var length := MatchNumber(source[offset..]);
      NumberIsLongest(Rest());
      if length.None? {
        return SyntaxFault;
      }
      assert source[offset..][length.value..] == source[offset + length.value..];
      offset := offset + length.value;
      return Nothing;
    }

    method ReadValue(path: Path) returns (thrown: Thrown)
      requires Inside()
      modifies this
      ensures Ended(thrown, ScanValue(old(Rest()), path))
      decreases |source| - offset, 3
    {
      SkipWhitespace();
      if offset == |source| {
        return SyntaxFault;
      }
      var character := source[offset];
      if character == OPEN_OBJECT {
        thrown := ReadObject(path);
      } else if character == OPEN_ARRAY {
        thrown := ReadArray(path);
      } else if character == QUOTE {
        var literal := ReadString();
        return if literal.Literal? then Nothing else SyntaxFault;
      } else if character == 't' as int {
        thrown := ReadWord(TRUE);
      } else if character == 'f' as int {
        thrown := ReadWord(FALSE);
      } else if character == 'n' as int {
        thrown := ReadWord(NULL);
      } else {
        thrown := ReadNumber();
      }
    }

    method ReadAfterKey(path: Path, key: Text, ghost keys: set<Text>) returns (thrown: Thrown)
      requires Inside()
      modifies this
      ensures thrown == Nothing ==> Inside() && old(offset) < offset
      ensures thrown == Nothing ==>
        AfterKey(old(Rest()), path, key, keys) == MoreMembers(Skip(Rest()), path, keys + {key})
      ensures thrown != Nothing ==> Ended(thrown, AfterKey(old(Rest()), path, key, keys))
      decreases |source| - offset, 4
    {
      SkipWhitespace();
      if offset == |source| || source[offset] != COLON {
        return SyntaxFault;
      }
      Advance();
      thrown := ReadValue(KeyPath(path, key));
    }

    /** One round of the object loop up to the value: a key that is new, a colon and a value. */
    method ReadMember(path: Path, keys: set<Text>) returns (thrown: Thrown, key: Text)
      requires Inside()
      modifies this
      ensures thrown == Nothing ==> Inside() && old(offset) < offset
      ensures thrown == Nothing ==>
        ScanMembers(old(Rest()), path, keys) == MoreMembers(Skip(Rest()), path, keys + {key})
      ensures thrown != Nothing ==> Ended(thrown, ScanMembers(old(Rest()), path, keys))
      decreases |source| - offset, 4
    {
      if offset == |source| || source[offset] != QUOTE {
        return SyntaxFault, [];
      }
      var literal := ReadString();
      if literal.NoLiteral? {
        return SyntaxFault, [];
      }
      key := literal.value;
      if key in keys {
        return DuplicateField(KeyPath(path, key)), key;
      }
      thrown := ReadAfterKey(path, key, keys);
    }

    method ReadObject(path: Path) returns (thrown: Thrown)
      requires Inside() && Rest() != [] && Rest()[0] == OPEN_OBJECT
      modifies this
      ensures Ended(thrown, ScanObject(old(Rest())[1..], path))
      decreases |source| - offset, 2
    {
      ghost var start := source[offset..][1..];
      offset := offset + 1;
      assert Rest() == start;
      SkipWhitespace();
      ghost var before := offset;
      var keys: set<Text> := {};
      if offset < |source| && source[offset] == CLOSE_OBJECT {
        Advance();
        return Nothing;
      }
      while true
        invariant Inside() && before <= offset
        invariant ScanObject(start, path) == ScanMembers(Rest(), path, keys)
        decreases |source| - offset
      {
        var key;
        thrown, key := ReadMember(path, keys);
        if thrown != Nothing {
          return;
        }
        keys := keys + {key};
        SkipWhitespace();
        if offset == |source| {
          return SyntaxFault;
        }
        var delimiter := source[offset];
        Advance();
        if delimiter == CLOSE_OBJECT {
          return Nothing;
        }
        if delimiter != COMMA {
          return SyntaxFault;
        }
        SkipWhitespace();
      }
    }

    method ReadArray(path: Path) returns (thrown: Thrown)
      requires Inside() && Rest() != [] && Rest()[0] == OPEN_ARRAY
      modifies this
      ensures Ended(thrown, ScanArray(old(Rest())[1..], path))
      decreases |source| - offset, 2
    {
      ghost var start := source[offset..][1..];
      offset := offset + 1;
      assert Rest() == start;
      SkipWhitespace();
      ghost var before := offset;
      if offset < |source| && source[offset] == CLOSE_ARRAY {
        Advance();
        return Nothing;
      }
      var index := 0;
      while true
        invariant Inside() && before <= offset
        invariant ScanArray(start, path) == ScanElements(Rest(), path, index)
        decreases |source| - offset
      {
        thrown := ReadValue(path + [Index(index)]);
        if thrown != Nothing {
          return;
        }
        index := index + 1;
        SkipWhitespace();
        if offset == |source| {
          return SyntaxFault;
        }
        var delimiter := source[offset];
        Advance();
        if delimiter == CLOSE_ARRAY {
          return Nothing;
        }
        if delimiter != COMMA {
          return SyntaxFault;
        }
        SkipWhitespace();
      }
    }

    /** scan: the whole source, with white space around one value. */
    method Scan() returns (verdict: Verdict)
      requires offset == 0
      modifies this
      ensures verdict == ScanText(source)
    {
      SkipWhitespace();
      var thrown := ReadValue([]);
      match thrown {
        case SyntaxFault => return Rejected;
        case DuplicateField(path) => return RejectedDuplicate(path);
        case Nothing =>
          SkipWhitespace();
          return if offset != |source| then Rejected else Accepted;
      }
    }
  }

  predicate Suffix(t: Text, s: Text) { |t| <= |s| && t == s[|s| - |t|..] }

  lemma SuffixOfSuffix(r: Text, t: Text, s: Text)
    requires Suffix(r, t) && Suffix(t, s)
    ensures Suffix(r, s)
  {
  }

  lemma {:induction false} DigitsSuffix(s: Text)
    ensures Suffix(SkipDigits(s), s)
  {
    if s != [] && IsDigit(s[0]) {
      DigitsSuffix(s[1..]);
    }
  }

  lemma FractionSuffix(s: Text)
    ensures Suffix(SkipFraction(s), s)
  {
    if s != [] {
      DigitsSuffix(s[1..]);
    }
  }

  lemma ExponentSuffix(s: Text)
    ensures Suffix(SkipExponent(s), s)
  {
    if s != [] {
      assert Suffix(SkipSign(s[1..]), s);
      DigitsSuffix(SkipSign(s[1..]));
      SuffixOfSuffix(SkipDigits(SkipSign(s[1..])), SkipSign(s[1..]), s);
    }
  }

  /** How far the pattern reaches, if it matches. */
  function MatchNumber(s: Text): (r: Option<nat>)
    ensures r.Some? ==> r.value <= |s| && ScanNumber(s) == Done(s[r.value..])
    ensures r.None? ==> ScanNumber(s) == Malformed
  {
    var scan := ScanNumber(s);
    if !scan.Done? then None
    else
      NumberIsSuffix(s);
      Some(|s| - |scan.rest|)
  }

  lemma NumberIsSuffix(s: Text)
    requires ScanNumber(s).Done?
    ensures Suffix(ScanNumber(s).rest, s)
  {
    var whole := if s[0] == MINUS then s[1..] else s;
    var after := if whole[0] == '0' as int then whole[1..] else SkipDigits(whole[1..]);
    DigitsSuffix(whole[1..]);
    SuffixOfSuffix(after, whole[1..], whole);
    SuffixOfSuffix(after, whole, s);
    FractionSuffix(after);
    ExponentSuffix(SkipFraction(after));
    SuffixOfSuffix(SkipFraction(after), after, s);
    SuffixOfSuffix(SkipExponent(SkipFraction(after)), SkipFraction(after), s);
  }
}
