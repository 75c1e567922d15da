/**
 Go's `base64.RawURLEncoding`: section 5 of RFC 4648 without padding (section 3.2), with the
 decoder's leniency: carriage returns and newlines are skipped, and the bits left over in the
 last symbol are ignored.
 */
module Base64Url {
  import opened Bytes
  import opened Wrappers

  const CR: byte := 13
  const LF: byte := 10

  type Sextet = bv6

  function Symbol(v: Sextet): byte {
    var x := v as byte;
    if x < 26 then 65 + x
    else if x < 52 then 71 + x
    else if x < 62 then x - 4
    else if x == 62 then 45
    else 95
  }

  function Value(c: byte): Option<Sextet> {
    if 65 <= c <= 90 then Some((c - 65) as Sextet)
    else if 97 <= c <= 122 then Some((c - 71) as Sextet)
    else if 48 <= c <= 57 then Some((c + 4) as Sextet)
    else if c == 45 then Some(62)
    else if c == 95 then Some(63)
    else None
  }

  // ---------------------------------------------------------------------
  // Groups of three octets and four sextets

  function First(b0: byte): Sextet { (b0 >> 2) as Sextet }
  function Second(b0: byte, b1: byte): Sextet { (((b0 & 3) << 4) | (b1 >> 4)) as Sextet }
  function Third(b1: byte, b2: byte): Sextet { (((b1 & 15) << 2) | (b2 >> 6)) as Sextet }
  function Fourth(b2: byte): Sextet { (b2 & 63) as Sextet }

  function Upper(v0: Sextet, v1: Sextet): byte { ((v0 as byte) << 2) | ((v1 as byte) >> 4) }
  function Middle(v1: Sextet, v2: Sextet): byte { ((v1 as byte & 15) << 4) | ((v2 as byte) >> 2) }
  function Lower(v2: Sextet, v3: Sextet): byte { ((v2 as byte & 3) << 6) | (v3 as byte) }

  function Sextets(b: seq<byte>): (v: seq<Sextet>)
    ensures |v| % 4 != 1 && (b != [] ==> v != [])
  {
    if |b| == 0 then []
    else if |b| == 1 then [First(b[0]), Second(b[0], 0)]
    else if |b| == 2 then [First(b[0]), Second(b[0], b[1]), Third(b[1], 0)]
    else [First(b[0]), Second(b[0], b[1]), Third(b[1], b[2]), Fourth(b[2])] + Sextets(b[3..])
  }

  /** The octets of a string of sextets; the bits that fill no octet are dropped. */
  function Octets(v: seq<Sextet>): seq<byte>
    requires |v| % 4 != 1
  {
    if |v| == 0 then []
    else if |v| == 2 then [Upper(v[0], v[1])]
    else if |v| == 3 then [Upper(v[0], v[1]), Middle(v[1], v[2])]
    else [Upper(v[0], v[1]), Middle(v[1], v[2]), Lower(v[2], v[3])] + Octets(v[4..])
  }

  /** No bits are left over in the last sextet. */
  predicate Tight(v: seq<Sextet>)
    requires |v| % 4 != 1
  {
    if |v| == 0 then true
    else if |v| == 2 then v[1] & 15 == 0
    else if |v| == 3 then v[2] & 3 == 0
    else Tight(v[4..])
  }

  lemma GroupOfOctets(b0: byte, b1: byte, b2: byte)
    ensures Upper(First(b0), Second(b0, b1)) == b0
    ensures Middle(Second(b0, b1), Third(b1, b2)) == b1
    ensures Lower(Third(b1, b2), Fourth(b2)) == b2
    ensures Second(b0, 0) & 15 == 0 && Third(b1, 0) & 3 == 0
  {
  }

  lemma GroupOfSextets(v0: Sextet, v1: Sextet, v2: Sextet, v3: Sextet)
    ensures First(Upper(v0, v1)) == v0
    ensures Second(Upper(v0, v1), Middle(v1, v2)) == v1
    ensures Third(Middle(v1, v2), Lower(v2, v3)) == v2
    ensures Fourth(Lower(v2, v3)) == v3
    ensures Second(Upper(v0, v1), 0) == v1 <==> v1 & 15 == 0
    ensures Third(Middle(v1, v2), 0) == v2 <==> v2 & 3 == 0
  {
  }

  lemma {:induction false} OctetsOfSextets(b: seq<byte>)
    ensures Octets(Sextets(b)) == b && Tight(Sextets(b))
  {
    if |b| == 1 {
      GroupOfOctets(b[0], 0, 0);
    } else if |b| == 2 {
      GroupOfOctets(b[0], b[1], 0);
    } else if |b| >= 3 {
      GroupOfOctets(b[0], b[1], b[2]);
      OctetsOfSextets(b[3..]);
      assert Sextets(b)[4..] == Sextets(b[3..]);
      assert b == [b[0], b[1], b[2]] + b[3..];
    }
  }

  lemma {:induction false} SextetsOfOctets(v: seq<Sextet>)
    requires |v| % 4 != 1
    ensures Sextets(Octets(v)) == v <==> Tight(v)
  {
    if |v| == 2 {
      GroupOfSextets(v[0], v[1], 0, 0);
    } else if |v| == 3 {
      GroupOfSextets(v[0], v[1], v[2], 0);
    } else if |v| >= 4 {
      GroupOfSextets(v[0], v[1], v[2], v[3]);
      SextetsOfOctets(v[4..]);
      assert Octets(v)[3..] == Octets(v[4..]);
      var group := [v[0], v[1], v[2], v[3]];
      assert Sextets(Octets(v)) == group + Sextets(Octets(v[4..]));
      assert Sextets(Octets(v))[4..] == Sextets(Octets(v[4..]));
      assert v == group + v[4..];
    }
  }

  // ---------------------------------------------------------------------
  // Text

  function Encode(b: seq<byte>): seq<byte> {
    var v := Sextets(b);
    seq(|v|, i requires 0 <= i < |v| => Symbol(v[i]))
  }

  /** What the decoder looks at: everything but line breaks. */
  function Kept(s: seq<byte>): (kept: seq<byte>)
    ensures |kept| <= |s|
  {
    if s == [] then [] else (if s[0] == CR || s[0] == LF then [] else [s[0]]) + Kept(s[1..])
  }

  predicate Alphabetic(s: seq<byte>) {
    forall i :: 0 <= i < |s| ==> Value(s[i]).Some?
  }

  function Values(s: seq<byte>): seq<Sextet>
    requires Alphabetic(s)
  {
    seq(|s|, i requires 0 <= i < |s| => Value(s[i]).value)
  }

  function Decode(s: seq<byte>): Option<seq<byte>> {
    var kept := Kept(s);
    if !Alphabetic(kept) || |kept| % 4 == 1 then None else Some(Octets(Values(kept)))
  }

  /** The form the encoder writes: symbols only, whole groups, nothing left over. */
  predicate Canonical(s: seq<byte>) {
    Alphabetic(s) && |s| % 4 != 1 && Tight(Values(s))
  }

  lemma {:induction false} AlphabeticIsKept(s: seq<byte>)
    requires Alphabetic(s)
    ensures Kept(s) == s && Kept(s + [LF]) == s
  {
    if s == [] {
      assert Kept([LF]) == [];
    } else {
      AlphabeticIsKept(s[1..]);
      assert (s + [LF])[1..] == s[1..] + [LF];
    }
  }

  lemma SymbolsAreValues(v: seq<Sextet>)
    ensures var s := seq(|v|, i requires 0 <= i < |v| => Symbol(v[i]));
            Alphabetic(s) && Values(s) == v
  {
  }

  /** Decoding undoes encoding, for every byte string, and the encoder writes canonical text. */
  lemma RoundTrip(b: seq<byte>)
    ensures Decode(Encode(b)) == Some(b) && Canonical(Encode(b))
  {
    SymbolsAreValues(Sextets(b));
    AlphabeticIsKept(Encode(b));
    OctetsOfSextets(b);
  }

  lemma EncodeInjective(a: seq<byte>, b: seq<byte>)
    requires Encode(a) == Encode(b)
    ensures a == b
  {
    RoundTrip(a);
    RoundTrip(b);
  }

  /** The decoder accepts more than the encoder writes; re-encoding gives the text back exactly when it is canonical. */
  lemma CanonicalIff(s: seq<byte>)
    ensures Canonical(s) <==> Decode(s).Some? && Encode(Decode(s).value) == s
  {
    if Decode(s).Some? && Encode(Decode(s).value) == s {
      RoundTrip(Decode(s).value);
    }
    if Canonical(s) {
      AlphabeticIsKept(s);
      SextetsOfOctets(Values(s));
      var v := Values(s);
      assert forall i :: 0 <= i < |s| ==> Symbol(v[i]) == s[i];
      assert Encode(Octets(v)) == s;
    }
  }

  /** Two texts of one byte string that the encoder would not write: a stray bit, a line break. */
  lemma DecoderIsLenient()
    ensures Decode([81, 81]) == Decode([81, 82]) == Decode([81, 81, LF]) == Some([65])
    ensures Canonical([81, 81]) && !Canonical([81, 82]) && !Canonical([81, 81, LF])
  {
    AlphabeticIsKept([81, 81]);
    AlphabeticIsKept([81, 82]);
    assert [81, 81] + [LF] == [81, 81, LF];
    assert Values([81, 81]) == [16, 16] && Values([81, 82]) == [16, 17];
  }
}
