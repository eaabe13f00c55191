/** The Secret Key text codec (src/crypto/secret_key.rs): Crockford base32 over a 32-bit accumulator that
    is never masked. The two loops are proved against unbounded bit strings. */
module SecretKeyCodec {
  import opened Common
  import opened Words

  /** Crockford's alphabet: no I, L, O or U. */
  const ALPHABET: string := "0123456789ABCDEFGHJKMNPQRSTVWXYZ"

  /** A 5-bit value. */
  type Symbol = v: nat | v < 32

  datatype KeyError = InvalidCharacter | WrongLength

  // ---- Specification: bit strings ----

  /** The concatenated bits of a string of n-bit digits. */
  function Flat(digits: seq<nat>, n: nat): (bits: seq<bool>)
    ensures n == 5 ==> |bits| == 5 * |digits|
    ensures n == 8 ==> |bits| == 8 * |digits|
  {
    if digits == [] then []
    else Flat(digits[..|digits| - 1], n) + Bits(digits[|digits| - 1], n)
  }

  function Zeros(n: nat): seq<bool> { seq(n, _ => false) }

  /** Groups of five bits; the last is filled up with zeros on the right. */
  function Fives(bits: seq<bool>): (vs: seq<Symbol>)
    ensures |vs| == (|bits| + 4) / 5
  {
    assert Pow2(5) == 32;
    if bits == [] then []
    else if |bits| < 5 then [Value(bits + Zeros(5 - |bits|))]
    else [Value(bits[..5])] + Fives(bits[5..])
  }

  /** Groups of eight bits; an incomplete last one is dropped. */
  function Eights(bits: seq<bool>): (bytes: Bytes)
    ensures |bytes| == |bits| / 8
  {
    assert Pow2(8) == 256;
    if |bits| < 8 then [] else [Value(bits[..8])] + Eights(bits[8..])
  }

  function Symbols(bytes: Bytes): (vs: seq<Symbol>)
    ensures |vs| == (8 * |bytes| + 4) / 5
  {
    Fives(Flat(bytes, 8))
  }

  function Unpack(vs: seq<Symbol>): (bytes: Bytes)
    ensures |bytes| == 5 * |vs| / 8
  {
    Eights(Flat(vs, 5))
  }

  function SymbolChar(v: Symbol): char { ALPHABET[v] }

  function Chars(vs: seq<Symbol>): (s: string)
    ensures |s| == |vs|
  {
    seq(|vs|, i requires 0 <= i < |vs| => SymbolChar(vs[i]))
  }

  /** Groups of four characters joined by hyphens. */
  function Grouped(vs: seq<Symbol>): string {
    if |vs| <= 4 then Chars(vs) else Chars(vs[..4]) + "-" + Grouped(vs[4..])
  }

  function ToAsciiUppercase(c: char): char {
    if 'a' <= c <= 'z' then (c as int - 32) as char else c
  }

  /** First position of c in the alphabet, from an index on. */
  function Position(c: char, from: nat): (p: Option<nat>)
    requires from <= |ALPHABET|
    ensures p.Some? ==> from <= p.value < |ALPHABET| && ALPHABET[p.value] == c
    ensures p.None? ==> forall i | from <= i < |ALPHABET| :: ALPHABET[i] != c
    decreases |ALPHABET| - from
  {
    if from == |ALPHABET| then None
    else if ALPHABET[from] == c then Some(from)
    else Position(c, from + 1)
  }

  function SymbolValue(upper: char): Result<Symbol, KeyError> {
    if upper == 'O' then Ok(0)
    else if upper == 'I' || upper == 'L' then Ok(1)
    else match Position(upper, 0)
      case Some(p) => Ok(p)
      case None => Err(InvalidCharacter)
  }

  predicate Skipped(c: char) { c == '-' || c == ' ' }

  /** The symbols a user typed, or the first invalid character's error. */
  function Normalise(input: string): Result<seq<Symbol>, KeyError> {
    if input == [] then Ok([])
    else
      var before :- Normalise(input[..|input| - 1]);
      var upper := ToAsciiUppercase(input[|input| - 1]);
      if Skipped(upper) then Ok(before)
      else
        var v :- SymbolValue(upper);
        Ok(before + [v])
  }

  function Decoded(input: string): Result<Bytes, KeyError> {
    var vs :- Normalise(input);
    Ok(Unpack(vs))
  }

  // ---- The SecretKey methods ----

  function FromBytes(bytes: Bytes): Result<Bytes, KeyError> {
    if |bytes| == SECRET_KEY_LEN then Ok(bytes) else Err(WrongLength)
  }

  function Display(key: Bytes): string { Grouped(Symbols(key)) }

  function Parse(input: string): Result<Bytes, KeyError> {
    var decoded :- Decoded(input);
    FromBytes(decoded)
  }

  // ---- The loops ----

  /** The hyphen written after every full group. */
  function HyphenOwed(n: nat): string { if n > 0 && n % 4 == 0 then "-" else "" }

  /** What the encoder has written after the symbols vs. */
  function Hyphenated(vs: seq<Symbol>): string { Grouped(vs) + HyphenOwed(|vs|) }

  function TrimEndHyphens(s: string): string {
    if s != "" && s[|s| - 1] == '-' then TrimEndHyphens(s[..|s| - 1]) else s
  }

  /** The bits read are the digits written, then the low accBits bits of the accumulator; the bits above
      those are leftovers. */
  ghost predicate Pending(read: seq<bool>, written: seq<bool>, acc: nat, accBits: nat) {
    read == written + Bits(acc, accBits)
  }

  /** Encodes bytes, hyphenated into groups of four. */
  method EncodeGrouped(bytes: Bytes) returns (text: string)
    ensures text == Grouped(Symbols(bytes))
  {
    hide *;
    var acc: nat, accBits: nat, symbols: nat, out: string := 0, 0, 0, "";
    ghost var vs: seq<Symbol> := [];
    GroupSizes();
    NothingRead(bytes);
    for i := 0 to |bytes|
      invariant accBits < 5 && symbols == |vs|
      invariant Pending(Flat(bytes[..i], 8), Flat(vs, 5), acc, accBits)
      invariant out == Hyphenated(vs)
    {
      PushByte(bytes, i, acc, accBits, vs);
      acc := BitOr(Shl32(acc, 8), bytes[i]);
      accBits := accBits + 8;
      while accBits >= 5
        invariant symbols == |vs|
        invariant Pending(Flat(bytes[..i + 1], 8), Flat(vs, 5), acc, accBits)
        invariant out == Hyphenated(vs)
      {
        accBits := accBits - 5;
        var idx: Symbol := Low(Shr(acc, accBits), 5);
        TakeGroup(Flat(bytes[..i + 1], 8), vs, acc, accBits, 5);
        HyphenatedPush(vs, idx);
        out := out + [SymbolChar(idx)];
        symbols := symbols + 1;
        vs := vs + [idx];
        if symbols % 4 == 0 {
          out := out + "-";
        }
      }
    }
    assert bytes[..|bytes|] == bytes;
    if accBits > 0 {
      var idx: Symbol := Low(Shl32(acc, 5 - accBits), 5);
      EncodedWithPadding(bytes, vs, acc, accBits);
      out := out + [SymbolChar(idx)];
    } else {
      EncodedExactly(bytes, vs, acc);
    }
    text := TrimEndHyphens(out);
  }

  /** Decodes, forgiving case, hyphens, spaces and look-alikes. */
  method DecodeForgiving(input: string) returns (r: Result<Bytes, KeyError>)
    ensures r == Decoded(input)
  {
    hide *;
    var acc: nat, accBits: nat, out: Bytes := 0, 0, [];
    ghost var vs: seq<Symbol> := [];
    GroupSizes();
    NothingTyped(input);
    for i := 0 to |input|
      invariant Normalise(input[..i]) == Ok(vs)
      invariant accBits < 8 && Pending(Flat(vs, 5), Flat(out, 8), acc, accBits)
    {
      NormalisePush(input, i);
      var upper := ToAsciiUppercase(input[i]);
      if Skipped(upper) {
        continue;
      }
      var value := SymbolValue(upper);
      if value.Err? {
        FirstErrorStays(input, i + 1);
        return Err(value.error);
      }
      PushSymbol(vs, value.value, acc, accBits, out);
      acc := BitOr(Shl32(acc, 5), value.value);
      accBits := accBits + 5;
      vs := vs + [value.value];
      if accBits >= 8 {
        accBits := accBits - 8;
        var b: Byte := Low(Shr(acc, accBits), 8);
        TakeGroup(Flat(vs, 5), out, acc, accBits, 8);
        out := out + [b];
      }
    }
    assert input[..|input|] == input;
    DecodedIs(input, vs, out, acc, accBits);
    r := Ok(out);
  }

  // ---- Accumulator steps ----

  lemma NothingRead(bytes: Bytes)
    ensures Pending(Flat(bytes[..0], 8), Flat([], 5), 0, 0) && Hyphenated([]) == ""
  {
  }

  lemma NothingTyped(input: string)
    ensures Pending(Flat([], 5), Flat([], 8), 0, 0) && Normalise(input[..0]) == Ok([])
  {
  }

  /** A byte shifted in keeps every pending bit, although older bits fall off the word. */
  lemma PushByte(bytes: Bytes, i: nat, acc: nat, accBits: nat, vs: seq<Symbol>)
    requires i < |bytes| && accBits <= 24
    requires Pending(Flat(bytes[..i], 8), Flat(vs, 5), acc, accBits)
    ensures Pending(Flat(bytes[..i + 1], 8), Flat(vs, 5), BitOr(Shl32(acc, 8), bytes[i]), accBits + 8)
  {
    hide Flat, Bits, Low, Shl32, BitOr;
    GroupSizes();
    assert bytes[..i + 1] == bytes[..i] + [bytes[i]];
    FlatPush(bytes[..i], bytes[i], 8);
    BitsAppend32(acc, 8, bytes[i], accBits);
    ConcatAssociates(Flat(vs, 5), Bits(acc, accBits), Bits(bytes[i], 8));
  }

  lemma PushSymbol(vs: seq<Symbol>, v: Symbol, acc: nat, accBits: nat, out: Bytes)
    requires accBits <= 27
    requires Pending(Flat(vs, 5), Flat(out, 8), acc, accBits)
    ensures Pending(Flat(vs + [v], 5), Flat(out, 8), BitOr(Shl32(acc, 5), v), accBits + 5)
  {
    hide Flat, Bits, Low, Shl32, BitOr;
    GroupSizes();
    FlatPush(vs, v, 5);
    BitsAppend32(acc, 5, v, accBits);
    ConcatAssociates(Flat(out, 8), Bits(acc, accBits), Bits(v, 5));
  }

  /** The n top pending bits written out as one digit. */
  lemma TakeGroup(read: seq<bool>, digits: seq<nat>, acc: nat, left: nat, n: nat)
    requires Pending(read, Flat(digits, n), acc, n + left)
    ensures Pending(read, Flat(digits + [Low(Shr(acc, left), n)], n), acc, left)
  {
    hide Flat, Bits, Low, Shr;
    FlatPush(digits, Low(Shr(acc, left), n), n);
    BitsOfLow(Shr(acc, left), n, n);
    BitsSplit(acc, n, left);
    ConcatAssociates(Flat(digits, n), Bits(Shr(acc, left), n), Bits(acc, left));
  }

  lemma EncodedExactly(bytes: Bytes, vs: seq<Symbol>, acc: nat)
    requires Pending(Flat(bytes, 8), Flat(vs, 5), acc, 0)
    ensures TrimEndHyphens(Hyphenated(vs)) == Grouped(Symbols(bytes))
  {
    assert Flat(bytes, 8) + Zeros(0) == Flat(bytes, 8) == Flat(vs, 5);
    FivesUnique(Flat(bytes, 8), vs, 0);
    TrimmedGroups(vs, HyphenOwed(|vs|));
  }

  /** The last, incomplete group is shifted up by the missing bits. */
  lemma EncodedWithPadding(bytes: Bytes, vs: seq<Symbol>, acc: nat, accBits: nat)
    requires Pending(Flat(bytes, 8), Flat(vs, 5), acc, accBits) && 0 < accBits < 5
    ensures var idx := Low(Shl32(acc, 5 - accBits), 5);
            idx < 32 && TrimEndHyphens(Hyphenated(vs) + [SymbolChar(idx)]) == Grouped(Symbols(bytes))
  {
    hide Flat, Bits, Low, Shl32, BitOr, Fives, Grouped, TrimEndHyphens;
    GroupSizes();
    var n := 5 - accBits;
    var shifted := Shl32(acc, n);
    var idx: Symbol := Low(shifted, 5);
    assert Flat(vs + [idx], 5) == Flat(bytes, 8) + Zeros(n) by {
      FlatPush(vs, idx, 5);
      BitsOfLow(shifted, 5, 5);
      BitOrZero(shifted);
      BitsAppend32(acc, n, 0, accBits);
      BitsOfZero(n);
      ConcatAssociates(Flat(vs, 5), Bits(acc, accBits), Zeros(n));
    }
    FivesUnique(Flat(bytes, 8), vs + [idx], n);
    GroupedPush(vs, idx);
    TrimmedGroups(vs + [idx], "");
    assert Grouped(vs + [idx]) + "" == Grouped(vs + [idx]);
  }

  lemma BitsAppend32(acc: nat, n: nat, group: nat, k: nat)
    requires k + n <= 32 && group < Pow2(n)
    ensures Bits(BitOr(Shl32(acc, n), group), k + n) == Bits(acc, k) + Bits(group, n)
  {
    BitsAppend(acc, n, group, k, 32);
  }

  lemma {:induction false} BitsOfZero(n: nat)
    ensures Bits(0, n) == Zeros(n)
  {
    if n > 0 {
      BitsOfZero(n - 1);
    }
  }

  lemma FlatPush(digits: seq<nat>, d: nat, n: nat)
    ensures Flat(digits + [d], n) == Flat(digits, n) + Bits(d, n)
  {
    assert (digits + [d])[..|digits|] == digits;
  }

  lemma {:induction false} FlatFront(digits: seq<nat>, n: nat)
    requires digits != []
    ensures Flat(digits, n) == Bits(digits[0], n) + Flat(digits[1..], n)
  {
    var last := |digits| - 1;
    if last > 0 {
      FlatFront(digits[..last], n);
      assert digits[..last][1..] == digits[1..][..last - 1];
    }
  }

  /** Only one symbol string has the given bits, zero-padded. */
  lemma {:induction false} FivesUnique(bits: seq<bool>, vs: seq<Symbol>, pad: nat)
    requires pad < 5 && Flat(vs, 5) == bits + Zeros(pad)
    ensures Fives(bits) == vs
  {
    if vs == [] {
      assert |bits| == 0;
    } else {
      FlatFront(vs, 5);
      var first, rest := Bits(vs[0], 5), Flat(vs[1..], 5);
      FirstSymbol(vs[0]);
      if |vs| == 1 {
        assert rest == [] && first + rest == first;
        FivesLast(bits, pad);
      } else {
        var tail := rest[..|rest| - pad];
        SplitPadding(first, rest, bits, pad);
        FivesFront(first, tail);
        FivesUnique(tail, vs[1..], pad);
      }
    }
  }

  lemma SplitPadding(first: seq<bool>, rest: seq<bool>, bits: seq<bool>, pad: nat)
    requires first + rest == bits + Zeros(pad) && pad <= |rest|
    ensures bits == first + rest[..|rest| - pad] && rest == rest[..|rest| - pad] + Zeros(pad)
  {
    assert bits == (first + rest)[..|bits|];
    assert Zeros(pad) == (first + rest)[|bits|..] == rest[|rest| - pad..];
  }

  lemma FirstSymbol(v: Symbol)
    ensures Value(Bits(v, 5)) == v
  {
    GroupSizes();
    ValueOfBits(v, 5);
  }

  lemma FivesLast(bits: seq<bool>, pad: nat)
    requires pad < 5 && |bits| + pad == 5
    ensures Fives(bits) == [Value(bits + Zeros(pad))]
  {
    if pad == 0 {
      assert bits[..5] == bits == bits + Zeros(0) && bits[5..] == [];
    }
  }

  lemma FivesFront(first: seq<bool>, rest: seq<bool>)
    requires |first| == 5
    ensures Fives(first + rest) == [Value(first)] + Fives(rest)
  {
    assert (first + rest)[..5] == first && (first + rest)[5..] == rest;
  }

  lemma EightsFront(first: seq<bool>, rest: seq<bool>)
    requires |first| == 8
    ensures Eights(first + rest) == [Value(first)] + Eights(rest)
  {
    assert (first + rest)[..8] == first && (first + rest)[8..] == rest;
  }

  /** The bytes of a bit string with an incomplete tail. */
  lemma {:induction false} EightsUnique(bytes: Bytes, tail: seq<bool>)
    requires |tail| < 8
    ensures Eights(Flat(bytes, 8) + tail) == bytes
  {
    if bytes == [] {
      assert Flat([], 8) + tail == tail;
    } else {
      hide *;
      GroupSizes();
      var first, rest := Bits(bytes[0], 8), Flat(bytes[1..], 8);
      FlatFront(bytes, 8);
      ConcatAssociates(first, rest, tail);
      EightsFront(first, rest + tail);
      ValueOfBits(bytes[0], 8);
      EightsUnique(bytes[1..], tail);
    }
  }

  // ---- Text steps ----

  lemma {:induction false} GroupedPush(vs: seq<Symbol>, v: Symbol)
    ensures Grouped(vs + [v]) == Grouped(vs) + HyphenOwed(|vs|) + [SymbolChar(v)]
  {
    if |vs| < 4 {
    } else if |vs| == 4 {
      assert (vs + [v])[..4] == vs && (vs + [v])[4..] == [v];
    } else {
      GroupedPush(vs[4..], v);
      assert (vs + [v])[..4] == vs[..4] && (vs + [v])[4..] == vs[4..] + [v];
    }
  }

  lemma HyphenatedPush(vs: seq<Symbol>, v: Symbol)
    ensures Hyphenated(vs + [v]) == Hyphenated(vs) + [SymbolChar(v)] + (if (|vs| + 1) % 4 == 0 then "-" else "")
  {
    hide Grouped;
    GroupedPush(vs, v);
  }

  lemma NoSymbolIsSkipped(v: Symbol)
    ensures !Skipped(SymbolChar(v)) && !('a' <= SymbolChar(v) <= 'z')
  {
    assert forall i | 0 <= i < |ALPHABET| :: ALPHABET[i] != '-' && ALPHABET[i] != ' ' && ALPHABET[i] < 'a';
  }

  /** Nothing but an owed hyphen is trimmed. */
  lemma TrimmedGroups(vs: seq<Symbol>, owed: string)
    requires owed == "" || owed == "-"
    ensures TrimEndHyphens(Grouped(vs) + owed) == Grouped(vs)
  {
    var g := Grouped(vs);
    if vs != [] {
      var n := |vs| - 1;
      assert vs == vs[..n] + [vs[n]];
      GroupedPush(vs[..n], vs[n]);
      NoSymbolIsSkipped(vs[n]);
      assert g[|g| - 1] == SymbolChar(vs[n]);
    }
    assert TrimEndHyphens(g) == g;
    assert (g + "-")[..|g|] == g;
    assert g + "" == g;
  }

  lemma NormalisePush(input: string, i: nat)
    requires i < |input| && Normalise(input[..i]).Ok?
    ensures var upper := ToAsciiUppercase(input[i]); var before := Normalise(input[..i]).value;
            Normalise(input[..i + 1]) ==
            if Skipped(upper) then Ok(before)
            else if SymbolValue(upper).Ok? then Ok(before + [SymbolValue(upper).value])
            else Err(SymbolValue(upper).error)
  {
    assert input[..i + 1][..i] == input[..i];
  }

  lemma DecodedIs(input: string, vs: seq<Symbol>, out: Bytes, acc: nat, accBits: nat)
    requires Normalise(input) == Ok(vs)
    requires Pending(Flat(vs, 5), Flat(out, 8), acc, accBits) && accBits < 8
    ensures Decoded(input) == Ok(out)
  {
    EightsUnique(out, Bits(acc, accBits));
  }

  lemma {:induction false} FirstErrorStays(input: string, k: nat)
    requires k <= |input| && Normalise(input[..k]).Err?
    ensures Normalise(input) == Normalise(input[..k])
    ensures Decoded(input) == Err(Normalise(input[..k]).error)
  {
    if k == |input| {
      assert input[..k] == input;
    } else {
      var shorter := input[..|input| - 1];
      assert shorter[..k] == input[..k];
      FirstErrorStays(shorter, k);
    }
  }
}
