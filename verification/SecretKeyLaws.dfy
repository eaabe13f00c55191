/** What the Secret Key codec promises: round trips, the exact language of `parse`, and the display shape. */
module SecretKeyLaws {
  import opened Common
  import opened Words
  import opened SecretKeyCodec

  // ---- The alphabet ----

  /** The alphabet in closed form: character codes climb with the value, skipping I, L, O and U. */
  function SymbolCode(v: Symbol): nat {
    v + (if v < 10 then 48 else if v < 18 then 55 else if v < 20 then 56
         else if v < 22 then 57 else if v < 27 then 58 else 59)
  }

  lemma AlphabetInClosedForm(v: Symbol)
    ensures SymbolChar(v) as int == SymbolCode(v)
  {
    if v < 8 {
      assert ALPHABET[0] == '0' && ALPHABET[1] == '1' && ALPHABET[2] == '2' && ALPHABET[3] == '3' && ALPHABET[4] == '4'
             && ALPHABET[5] == '5' && ALPHABET[6] == '6' && ALPHABET[7] == '7';
    } else if v < 16 {
      assert ALPHABET[8] == '8' && ALPHABET[9] == '9' && ALPHABET[10] == 'A' && ALPHABET[11] == 'B'
             && ALPHABET[12] == 'C' && ALPHABET[13] == 'D' && ALPHABET[14] == 'E' && ALPHABET[15] == 'F';
    } else if v < 24 {
      assert ALPHABET[16] == 'G' && ALPHABET[17] == 'H' && ALPHABET[18] == 'J' && ALPHABET[19] == 'K'
             && ALPHABET[20] == 'M' && ALPHABET[21] == 'N' && ALPHABET[22] == 'P' && ALPHABET[23] == 'Q';
    } else {
      assert ALPHABET[24] == 'R' && ALPHABET[25] == 'S' && ALPHABET[26] == 'T' && ALPHABET[27] == 'V'
             && ALPHABET[28] == 'W' && ALPHABET[29] == 'X' && ALPHABET[30] == 'Y' && ALPHABET[31] == 'Z';
    }
  }

  lemma SymbolRoundTrip(v: Symbol)
    ensures ToAsciiUppercase(SymbolChar(v)) == SymbolChar(v) && SymbolValue(SymbolChar(v)) == Ok(v)
  {
    var c := SymbolChar(v);
    AlphabetInClosedForm(v);
    assert ALPHABET[v] == c;
    var p := Position(c, 0);
    AlphabetInClosedForm(p.value);
  }

  /** What a user may type for a symbol: any ASCII digit or letter but U. */
  predicate Acceptable(c: char) {
    '0' <= c <= '9' || ('A' <= c <= 'Z' && c != 'U') || ('a' <= c <= 'z' && c != 'u')
  }

  /** The value whose symbol an acceptable upper-case character is, look-alikes aside. */
  function Candidate(upper: char): Symbol {
    var u := upper as int;
    if 48 <= u < 58 then u - 48 else if 65 <= u < 73 then u - 55 else if 74 <= u < 76 then u - 56
    else if 77 <= u < 79 then u - 57 else if 80 <= u < 85 then u - 58 else if 86 <= u < 91 then u - 59 else 0
  }

  lemma AcceptableHasValue(c: char)
    ensures SymbolValue(ToAsciiUppercase(c)).Ok? <==> Acceptable(c)
  {
    var upper := ToAsciiUppercase(c);
    var v, p := Candidate(upper), Position(upper, 0);
    AlphabetInClosedForm(v);
    if p.Some? {
      AlphabetInClosedForm(p.value);
    }
  }

  // ---- Round trips ----

  lemma {:induction false} NormaliseOfGrouped(vs: seq<Symbol>)
    ensures Normalise(Grouped(vs)) == Ok(vs)
  {
    if vs != [] {
      var n := |vs| - 1;
      var before, v := vs[..n], vs[n];
      assert vs == before + [v];
      NormaliseOfGrouped(before);
      GroupedPush(before, v);
      var text := Grouped(before) + HyphenOwed(n);
      HyphenChangesNothing(before);
      SymbolRoundTrip(v);
      NoSymbolIsSkipped(v);
      assert (text + [SymbolChar(v)])[..|text|] == text;
    }
  }

  lemma HyphenChangesNothing(vs: seq<Symbol>)
    ensures Normalise(Grouped(vs) + HyphenOwed(|vs|)) == Normalise(Grouped(vs))
  {
    hide Grouped, Normalise;
    SkippedAtTheEnd(Grouped(vs));
    assert Grouped(vs) + "" == Grouped(vs);
  }

  lemma SkippedAtTheEnd(text: string)
    ensures Normalise(text + "-") == Normalise(text)
  {
    assert (text + "-")[..|text|] == text;
  }

  /** Five-bit groups hold the bits they were cut from, and fewer than five zeros. */
  lemma {:induction false} FlatOfFives(bits: seq<bool>, pad: nat)
    requires pad == 5 * |Fives(bits)| - |bits|
    ensures pad < 5 && Flat(Fives(bits), 5) == bits + Zeros(pad)
  {
    GroupSizes();
    if bits == [] {
    } else if |bits| < 5 {
      BitsOfValue(bits + Zeros(pad));
    } else {
      FlatOfFives(bits[5..], pad);
      BitsOfValue(bits[..5]);
      FlatFront(Fives(bits), 5);
      assert Fives(bits)[1..] == Fives(bits[5..]);
      assert bits == bits[..5] + bits[5..];
      ConcatAssociates(bits[..5], bits[5..], Zeros(pad));
    }
  }

  /** `decode_forgiving(encode_grouped(b)) == b` for byte strings of every length. */
  lemma RoundTrip(bytes: Bytes)
    ensures Decoded(Grouped(Symbols(bytes))) == Ok(bytes)
  {
    var bits := Flat(bytes, 8);
    var pad := 5 * |Fives(bits)| - |bits|;
    NormaliseOfGrouped(Symbols(bytes));
    FlatOfFives(bits, pad);
    EightsUnique(bytes, Zeros(pad));
  }

  /** Every Secret Key parses back from its display. */
  lemma DisplayRoundTrip(key: Bytes)
    requires |key| == SECRET_KEY_LEN
    ensures Parse(Display(key)) == Ok(key)
  {
    RoundTrip(key);
  }

  // ---- The language of parse ----

  /** The characters that stand for symbols: all but hyphens and spaces. */
  function Typed(input: string): string {
    if input == [] then []
    else
      var c := input[|input| - 1];
      Typed(input[..|input| - 1]) + (if c == '-' || c == ' ' then [] else [c])
  }

  predicate AllAcceptable(s: string) { forall c | c in s :: Acceptable(c) }

  lemma {:induction false} NormaliseSucceeds(input: string)
    ensures Normalise(input).Ok? <==> AllAcceptable(Typed(input))
    ensures Normalise(input).Ok? ==> |Normalise(input).value| == |Typed(input)|
    ensures Normalise(input).Err? ==> Normalise(input).error == InvalidCharacter
  {
    if input != [] {
      var c := input[|input| - 1];
      NormaliseSucceeds(input[..|input| - 1]);
      AcceptableHasValue(c);
      assert Skipped(ToAsciiUppercase(c)) == Skipped(c);
      if !Skipped(c) {
        assert c in Typed(input);
      }
    }
  }

  /** `parse` accepts exactly the texts whose symbols are all acceptable and number 32 or 33: a 33rd symbol
      never completes a byte. Otherwise the error says which of the two failed. */
  lemma ParseLanguage(input: string)
    ensures Parse(input).Ok? <==> AllAcceptable(Typed(input)) && 32 <= |Typed(input)| <= 33
    ensures !AllAcceptable(Typed(input)) <==> Parse(input) == Err(InvalidCharacter)
  {
    NormaliseSucceeds(input);
  }

  /** The normal form of an accepted text: its first 32 symbols. */
  function NormalForm(input: string): (vs: seq<Symbol>)
    requires Parse(input).Ok?
    ensures |vs| == 32
  {
    NormaliseSucceeds(input);
    ParseLanguage(input);
    Normalise(input).value[..32]
  }

  lemma {:induction false} FlatPrefix(digits: seq<nat>, k: nat)
    requires k <= |digits|
    ensures Flat(digits, 5) == Flat(digits[..k], 5) + Flat(digits[k..], 5)
  {
    if k == |digits| {
      assert digits[..k] == digits && digits[k..] == [];
    } else {
      var n := |digits| - 1;
      FlatPrefix(digits[..n], k);
      assert digits[..n][..k] == digits[..k] && digits[..n][k..] == digits[k..][..n - k];
      ConcatAssociates(Flat(digits[..k], 5), Flat(digits[k..n], 5), Bits(digits[n], 5));
      assert digits[k..][..n - k] == digits[k..n];
    }
  }

  /** Eight-bit groups hold the bits they were cut from. */
  lemma {:induction false} FlatOfEights(bits: seq<bool>)
    requires |bits| % 8 == 0
    ensures Flat(Eights(bits), 8) == bits
  {
    if bits != [] {
      GroupSizes();
      FlatOfEights(bits[8..]);
      BitsOfValue(bits[..8]);
      FlatFront(Eights(bits), 8);
      assert Eights(bits)[1..] == Eights(bits[8..]);
      assert bits == bits[..8] + bits[8..];
    }
  }

  lemma {:induction false} EightsPrefix(bits: seq<bool>, tail: seq<bool>)
    requires |bits| % 8 == 0 && |tail| < 8
    ensures Eights(bits + tail) == Eights(bits)
  {
    FlatOfEights(bits);
    EightsUnique(Eights(bits), tail);
  }

  lemma UnpackDropsThe33rd(vs: seq<Symbol>)
    requires 32 <= |vs| <= 33
    ensures Flat(Unpack(vs), 8) == Flat(vs[..32], 5)
  {
    hide Flat, Eights;
    var bits, tail := Flat(vs[..32], 5), Flat(vs[32..], 5);
    FlatPrefix(vs, 32);
    EightsPrefix(bits, tail);
    FlatOfEights(bits);
  }

  /** Whatever was typed, the key is spelled by the normal form. */
  lemma ParsedKeyBits(input: string)
    requires Parse(input).Ok?
    ensures Flat(Parse(input).value, 8) == Flat(NormalForm(input), 5)
  {
    hide Flat, Eights, Typed;
    NormaliseSucceeds(input);
    ParseLanguage(input);
    UnpackDropsThe33rd(Normalise(input).value);
  }

  lemma DisplayOfParsed(input: string)
    requires Parse(input).Ok?
    ensures Display(Parse(input).value) == Grouped(NormalForm(input))
  {
    ParsedKeyBits(input);
    var bits := Flat(NormalForm(input), 5);
    assert bits + Zeros(0) == bits;
    FivesUnique(bits, NormalForm(input), 0);
  }

  /** Two accepted texts give the same key exactly when their first 32 normalised symbols agree. */
  lemma SameKeyExactlyWhenSameNormalForm(a: string, b: string)
    requires Parse(a).Ok? && Parse(b).Ok?
    ensures Parse(a) == Parse(b) <==> NormalForm(a) == NormalForm(b)
  {
    DisplayOfParsed(a);
    DisplayOfParsed(b);
    NormaliseOfGrouped(NormalForm(a));
    NormaliseOfGrouped(NormalForm(b));
    ParsedKeyBits(a);
    ParsedKeyBits(b);
    if NormalForm(a) == NormalForm(b) {
      EightsUnique(Parse(a).value, []);
      EightsUnique(Parse(b).value, []);
    }
  }

  // ---- What was typed and what it means ----

  /** The symbol that a typed character stands for: O is zero, I and L are one, letters are upper case. */
  function CanonChar(c: char): char {
    if c == 'O' || c == 'o' then '0'
    else if c == 'I' || c == 'i' || c == 'L' || c == 'l' then '1'
    else if 'a' <= c <= 'z' then ('A' as int + (c as int - 'a' as int)) as char
    else c
  }

  /** The canonical text: no hyphens, no spaces, every character in its canonical form. */
  function Canon(input: string): (s: string)
    ensures |s| == |Typed(input)|
  {
    var typed := Typed(input);
    seq(|typed|, i requires 0 <= i < |typed| => CanonChar(typed[i]))
  }

  lemma CanonCharKeepsValue(c: char)
    ensures SymbolValue(ToAsciiUppercase(CanonChar(c))) == SymbolValue(ToAsciiUppercase(c))
    ensures Skipped(ToAsciiUppercase(CanonChar(c))) == Skipped(ToAsciiUppercase(c)) == (c == '-' || c == ' ')
    ensures SymbolValue(ToAsciiUppercase(c)).Ok? ==> CanonChar(c) == SymbolChar(SymbolValue(ToAsciiUppercase(c)).value)
  {
    SymbolRoundTrip(0);
    SymbolRoundTrip(1);
    AlphabetInClosedForm(0);
    AlphabetInClosedForm(1);
    var p := Position(ToAsciiUppercase(c), 0);
  }

  lemma {:induction false} TypedIsIdempotent(input: string)
    ensures forall c | c in Typed(input) :: c != '-' && c != ' '
  {
    if input != [] {
      TypedIsIdempotent(input[..|input| - 1]);
    }
  }

  /** The symbols read from a text are those of its canonical form, character by character. */
  lemma {:induction false} NormaliseOfCanon(input: string)
    ensures Normalise(Canon(input)) == Normalise(input)
    ensures Normalise(input).Ok? ==> Chars(Normalise(input).value) == Canon(input)
  {
    hide SymbolValue, ToAsciiUppercase, CanonChar, SymbolChar;
    if input != [] {
      var n := |input| - 1;
      var c := input[n];
      NormaliseOfCanon(input[..n]);
      CanonCharKeepsValue(c);
      if c == '-' || c == ' ' {
        assert Canon(input) == Canon(input[..n]);
      } else {
        assert Canon(input) == Canon(input[..n]) + [CanonChar(c)];
        assert Canon(input)[..|Canon(input)| - 1] == Canon(input[..n]);
      }
    }
  }

  /** A text and its canonical form are parsed alike, whatever they are. */
  lemma ParseOfCanon(input: string)
    ensures Parse(Canon(input)) == Parse(input)
  {
    NormaliseOfCanon(input);
  }

  /** What is shown of a parsed key is the canonical form of what was typed, up to its 32nd symbol. */
  lemma ShownIsTyped(input: string)
    requires Parse(input).Ok?
    ensures |Canon(input)| >= 32 && Typed(Display(Parse(input).value)) == Canon(input)[..32]
  {
    ParseLanguage(input);
    NormaliseSucceeds(input);
    NormaliseOfCanon(input);
    DisplayOfParsed(input);
    TypedOfGrouped(NormalForm(input));
    assert Chars(NormalForm(input)) == Canon(input)[..32];
  }

  lemma {:induction false} TypedOfAppend(a: string, b: string)
    ensures Typed(a + b) == Typed(a) + Typed(b)
    decreases |b|
  {
    if b == [] {
      assert a + b == a;
    } else {
      var n := |b| - 1;
      TypedOfAppend(a, b[..n]);
      assert (a + b)[..|a| + n] == a + b[..n];
    }
  }

  lemma {:induction false} TypedOfChars(vs: seq<Symbol>)
    ensures Typed(Chars(vs)) == Chars(vs)
  {
    if vs != [] {
      var n := |vs| - 1;
      TypedOfChars(vs[..n]);
      assert Chars(vs)[..n] == Chars(vs[..n]);
      NoSymbolIsSkipped(vs[n]);
    }
  }

  lemma {:induction false} TypedOfGrouped(vs: seq<Symbol>)
    ensures Typed(Grouped(vs)) == Chars(vs)
    decreases |vs|
  {
    if |vs| <= 4 {
      TypedOfChars(vs);
    } else {
      TypedOfChars(vs[..4]);
      TypedOfGrouped(vs[4..]);
      TypedOfAppend(Chars(vs[..4]), "-");
      TypedOfAppend(Chars(vs[..4]) + "-", Grouped(vs[4..]));
      assert Typed("-") == [] by { assert "-"[..0] == ""; }
      assert Chars(vs) == Chars(vs[..4]) + Chars(vs[4..]);
    }
  }

  /** A digit string read in some base, most significant digit first. */
  function Number(digits: seq<nat>, base: nat): nat {
    if digits == [] then 0
    else Number(digits[..|digits| - 1], base) * base + digits[|digits| - 1]
  }

  lemma {:induction false} NumberOfFlat(digits: seq<nat>, n: nat)
    requires forall d | d in digits :: d < Pow2(n)
    ensures Value(Flat(digits, n)) == Number(digits, Pow2(n))
  {
    hide Pow2, Bits, Value;
    if digits == [] {
      EmptyIsZero();
    }
    if digits != [] {
      var k := |digits| - 1;
      assert forall d | d in digits[..k] :: d in digits;
      assert digits[k] in digits;
      NumberOfFlat(digits[..k], n);
      ValueOfAppend(Flat(digits[..k], n), digits[k], n);
    }
  }

  lemma EmptyIsZero()
    ensures Value([]) == 0
  {
  }

  /** A key and the symbols that spell it are one number, in base 256 and in base 32. */
  lemma ParsedKeyNumber(input: string)
    requires Parse(input).Ok?
    ensures Number(Parse(input).value, 256) == Number(NormalForm(input), 32)
  {
    hide Flat, Number;
    GroupSizes();
    ParsedKeyBits(input);
    NumberOfFlat(Parse(input).value, 8);
    NumberOfFlat(NormalForm(input), 5);
  }

  // ---- The display shape ----

  /** k > 0 symbols show as k + (k-1)/4 characters with a hyphen exactly at every fifth one, never last. */
  lemma {:induction false} DisplayShape(vs: seq<Symbol>)
    requires vs != []
    ensures |Grouped(vs)| == |vs| + (|vs| - 1) / 4
    ensures forall i | 0 <= i < |Grouped(vs)| :: Grouped(vs)[i] == '-' <==> i % 5 == 4
    ensures Grouped(vs)[|Grouped(vs)| - 1] != '-'
  {
    var g := Grouped(vs);
    if |vs| <= 4 {
      forall i | 0 <= i < |g| ensures g[i] != '-' { NoSymbolIsSkipped(vs[i]); }
    } else {
      DisplayShape(vs[4..]);
      var head, rest := Chars(vs[..4]), Grouped(vs[4..]);
      forall i | 0 <= i < |g| ensures g[i] == '-' <==> i % 5 == 4 {
        if i < 4 {
          NoSymbolIsSkipped(vs[i]);
          assert g[i] == head[i];
        } else if i > 4 {
          assert g[i] == rest[i - 5];
        }
      }
    }
  }

  /** A Secret Key shows as eight groups of four: 39 characters. */
  lemma KeyShowsAsEightGroups(key: Bytes)
    requires |key| == SECRET_KEY_LEN
    ensures |Display(key)| == 39
    ensures forall i | 0 <= i < 39 :: Display(key)[i] == '-' <==> i % 5 == 4
  {
    DisplayShape(Symbols(key));
  }
}
