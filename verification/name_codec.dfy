/** File names in requests and cursors: URL-safe base64 (RFC 4648, section 5) of raw bytes, and what a name may be. */
module NameCodec {
  import opened Base

  const MAX_NAME := 255
  const MAX_ENCODED := 340

  /** The 64 symbols: upper-case, lower-case, digits, '-' and '_'. */
  function Symbol(n: int): char
    requires 0 <= n < 64
  {
    if n < 26 then (n + 65) as char
    else if n < 52 then (n + 71) as char
    else if n < 62 then (n - 4) as char
    else if n == 62 then '-' else '_'
  }

  /** The value of a symbol; the standard alphabet's last two symbols are accepted too. */
  function Value(c: char): (n: int)
    ensures -1 <= n < 64
  {
    if 'A' <= c <= 'Z' then c as int - 65
    else if 'a' <= c <= 'z' then c as int - 71
    else if '0' <= c <= '9' then c as int + 4
    else if c == '-' || c == '+' then 62
    else if c == '_' || c == '/' then 63
    else -1
  }

  lemma SymbolValue(n: int)
    requires 0 <= n < 64
    ensures Value(Symbol(n)) == n && Symbol(n) != '='
  {
  }

  /** The four six-bit values of three bytes. */
  function Sextets(x: int, y: int, z: int): (r: (int, int, int, int))
    requires 0 <= x < 256 && 0 <= y < 256 && 0 <= z < 256
    ensures 0 <= r.0 < 64 && 0 <= r.1 < 64 && 0 <= r.2 < 64 && 0 <= r.3 < 64
  {
    (x / 4, x % 4 * 16 + y / 16, y % 16 * 4 + z / 64, z % 64)
  }

  /** The three bytes of four six-bit values. */
  function Octets(a: int, b: int, c: int, d: int): (r: (int, int, int))
    requires 0 <= a < 64 && 0 <= b < 64 && 0 <= c < 64 && 0 <= d < 64
    ensures 0 <= r.0 < 256 && 0 <= r.1 < 256 && 0 <= r.2 < 256
  {
    (a * 4 + b / 16, b % 16 * 16 + c / 4, c % 4 * 64 + d)
  }

  lemma OctetsOfSextets(x: int, y: int, z: int)
    requires 0 <= x < 256 && 0 <= y < 256 && 0 <= z < 256
    ensures var s := Sextets(x, y, z); Octets(s.0, s.1, s.2, s.3) == (x, y, z)
  {
  }

  /** Three bytes as four symbols; a final group of one or two bytes is padded. */
  function Group(b: Bytes): (s: string)
    requires 1 <= |b| <= 3
    ensures |s| == 4
  {
    var six := Sextets(b[0] as int, if |b| > 1 then b[1] as int else 0, if |b| > 2 then b[2] as int else 0);
    [Symbol(six.0), Symbol(six.1), if |b| > 1 then Symbol(six.2) else '=', if |b| > 2 then Symbol(six.3) else '=']
  }

  function Encode(name: Bytes): string {
    if name == [] then "" else if |name| <= 3 then Group(name) else Group(name[..3]) + Encode(name[3..])
  }

  lemma {:induction false} EncodedLength(name: Bytes)
    ensures |Encode(name)| == (|name| + 2) / 3 * 4
  {
    if |name| > 3 {
      EncodedLength(name[3..]);
      assert |Encode(name)| == 4 + |Encode(name[3..])|;
      ThreeMore(|name|);
    }
  }

  lemma ThreeMore(n: nat)
    requires n > 3
    ensures 4 + (n - 3 + 2) / 3 * 4 == (n + 2) / 3 * 4
  {
    assert (n + 2) / 3 == 1 + (n - 3 + 2) / 3;
  }

  lemma EncodedFits(name: Bytes)
    ensures |name| <= MAX_NAME <==> |Encode(name)| <= MAX_ENCODED
  {
    EncodedLength(name);
  }

  /** Four symbols back to bytes; padding is only allowed in the last group. */
  function Ungroup(s: string, last: bool): Option<Bytes>
    requires |s| == 4
  {
    var a, b, c, d := Value(s[0]), Value(s[1]), Value(s[2]), Value(s[3]);
    if a < 0 || b < 0 then None
    else if last && s[2] == '=' && s[3] == '=' then Some([Octets(a, b, 0, 0).0 as byte])
    else if c < 0 then None
    else if last && s[3] == '=' then
      var o := Octets(a, b, c, 0);
      Some([o.0 as byte, o.1 as byte])
    else if d < 0 then None
    else
      var o := Octets(a, b, c, d);
      Some([o.0 as byte, o.1 as byte, o.2 as byte])
  }

  predicate Padding(s: string) {
    forall i :: 0 <= i < |s| ==> s[i] == '='
  }

  /** Decodes group by group. `started` says that a group came before; `excess` says whether the library accepts
      more padding after a complete group, which its releases have answered differently. */
  function Unbase(s: string, started: bool, excess: bool): Option<Bytes>
    decreases |s|
  {
    if s == "" || (excess && started && Padding(s)) then Some([])
    else if |s| < 4 then None
    else
      var first := Ungroup(s[..4], |s| == 4);
      if first.None? then None
      else
        var rest := Unbase(s[4..], true, excess);
        if rest.None? then None else Some(first.value + rest.value)
  }

  /** What a directory entry may be called. */
  predicate Nameable(name: Bytes) {
    && 1 <= |name| <= MAX_NAME && name != [46] && name != [46, 46]
    && (forall i :: 0 <= i < |name| ==> name[i] != 47 && name[i] != 0)
  }

  /** The decoder of requests: bounded, and only for possible names. */
  function Decode(s: string, excess: bool): (r: Option<Bytes>)
    ensures r.Some? ==> Nameable(r.value)
  {
    if |s| > MAX_ENCODED then None
    else
      var value := Unbase(s, false, excess);
      if value.None? || !Nameable(value.value) then None else value
  }

  lemma GroupRoundTrip(b: Bytes, last: bool)
    requires 1 <= |b| <= 3 && (|b| == 3 || last)
    ensures Ungroup(Group(b), last) == Some(b)
  {
    var x, y, z := b[0] as int, if |b| > 1 then b[1] as int else 0, if |b| > 2 then b[2] as int else 0;
    var six := Sextets(x, y, z);
    OctetsOfSextets(x, y, z);
    SymbolValue(six.0);
    SymbolValue(six.1);
    SymbolValue(six.2);
    SymbolValue(six.3);
    if |b| == 1 {
      assert b == [b[0]];
    } else if |b| == 2 {
      assert b == [b[0], b[1]];
    } else {
      assert b == [b[0], b[1], b[2]];
    }
  }

  lemma {:induction false} UnbaseEncode(name: Bytes, started: bool, excess: bool)
    ensures Unbase(Encode(name), started, excess) == Some(name)
    decreases |name|
  {
    if name == [] {
    } else if |name| <= 3 {
      GroupRoundTrip(name, true);
      GroupIsNotPadding(name);
      var s := Group(name);
      assert Encode(name) == s && s[..4] == s && s[4..] == "";
      assert name + [] == name;
    } else {
      UnbaseEncode(name[3..], true, excess);
      GroupRoundTrip(name[..3], false);
      GroupIsNotPadding(name[..3]);
      var s := Encode(name);
      assert s[..4] == Group(name[..3]) && s[4..] == Encode(name[3..]);
      assert s[0] == Group(name[..3])[0];
      assert name[..3] + name[3..] == name;
    }
  }

  lemma GroupIsNotPadding(b: Bytes)
    requires 1 <= |b| <= 3
    ensures Group(b)[0] != '='
  {
    SymbolValue(Sextets(b[0] as int, if |b| > 1 then b[1] as int else 0, if |b| > 2 then b[2] as int else 0).0);
  }

  /** Every possible name survives the round trip, within the length the decoder accepts; every other byte string
      is refused. */
  lemma NamesRoundTrip(name: Bytes, excess: bool)
    ensures Nameable(name) ==> |Encode(name)| <= MAX_ENCODED && Decode(Encode(name), excess) == Some(name)
    ensures !Nameable(name) ==> Decode(Encode(name), excess) == None
    ensures |name| <= MAX_NAME <==> |Encode(name)| <= MAX_ENCODED
  {
    UnbaseEncode(name, false, excess);
    EncodedFits(name);
  }

  // ---- which of the accepted spellings is the encoder's ----

  predicate UrlSafe(s: string) {
    forall i :: 0 <= i < |s| ==> s[i] != '+' && s[i] != '/'
  }

  /** A last group without spare bits: one or two padding symbols, and zero in the bits they leave unused. */
  predicate Tight(g: string)
    requires |g| == 4
  {
    g[3] == '=' ==> if g[2] == '=' then g[1] != '=' && Value(g[1]) % 16 == 0 else Value(g[2]) % 4 == 0
  }

  /** A spelling the encoder could have written: only URL-safe symbols, whole groups, and a tight last one. */
  predicate Canonical(s: string) {
    |s| % 4 == 0 && UrlSafe(s) && (s != "" ==> Tight(s[|s| - 4..]))
  }

  lemma ValueSymbol(c: char)
    requires Value(c) >= 0
    ensures Symbol(Value(c)) == c <==> c != '+' && c != '/'
  {
  }

  lemma SextetsOfOctets(a: int, b: int, c: int, d: int)
    requires 0 <= a < 64 && 0 <= b < 64 && 0 <= c < 64 && 0 <= d < 64
    ensures var o := Octets(a, b, c, d); Sextets(o.0, o.1, o.2) == (a, b, c, d)
  {
    Digits(a, b / 16, 4);
    Digits(b % 16, c / 4, 16);
    Digits(c % 4, d, 64);
  }

  /** The two digits of a two-digit number. */
  lemma Digits(high: nat, low: nat, base: nat)
    requires low < base && base in {4, 16, 64}
    ensures (high * base + low) / base == high && (high * base + low) % base == low
  {
  }

  /** A group of four symbols is what the encoder writes for its bytes exactly when it is URL-safe and tight. */
  lemma GroupIsCanonical(g: string, last: bool)
    requires |g| == 4 && Ungroup(g, last).Some?
    ensures var b := Ungroup(g, last).value;
      1 <= |b| <= 3 && (!last ==> |b| == 3) && (g == Group(b) <==> UrlSafe(g) && Tight(g))
  {
    var a, b, c, d := Value(g[0]), Value(g[1]), Value(g[2]), Value(g[3]);
    var bytes := Ungroup(g, last).value;
    ValueSymbol(g[0]);
    ValueSymbol(g[1]);
    if |bytes| == 3 {
      SextetsOfOctets(a, b, c, d);
      ValueSymbol(g[2]);
      ValueSymbol(g[3]);
      GroupOfThree(g, bytes, a, b, c, d);
    } else if |bytes| == 2 {
      ValueSymbol(g[2]);
      GroupOfTwo(g, bytes, a, b, c);
    } else {
      GroupOfOne(g, bytes, a, b);
    }
  }

  lemma GroupOfThree(g: string, bytes: Bytes, a: int, b: int, c: int, d: int)
    requires |g| == 4 && a == Value(g[0]) >= 0 && b == Value(g[1]) >= 0 && c == Value(g[2]) >= 0 && d == Value(g[3]) >= 0
    requires var o := Octets(a, b, c, d); bytes == [o.0 as byte, o.1 as byte, o.2 as byte]
    ensures g == Group(bytes) <==> UrlSafe(g) && Tight(g)
  {
    SextetsOfOctets(a, b, c, d);
    assert Group(bytes) == [Symbol(a), Symbol(b), Symbol(c), Symbol(d)];
    SameFour(g, Group(bytes));
    forall i | 0 <= i < 4 ensures g[i] == Group(bytes)[i] <==> g[i] != '+' && g[i] != '/' {
      ValueSymbol(g[i]);
    }
  }

  lemma GroupOfTwo(g: string, bytes: Bytes, a: int, b: int, c: int)
    requires |g| == 4 && a == Value(g[0]) >= 0 && b == Value(g[1]) >= 0 && c == Value(g[2]) >= 0 && g[3] == '='
    requires var o := Octets(a, b, c, 0); bytes == [o.0 as byte, o.1 as byte]
    ensures g == Group(bytes) <==> UrlSafe(g) && Tight(g)
  {
    var o := Octets(a, b, c, 0);
    assert Sextets(o.0, o.1, 0).0 == a && Sextets(o.0, o.1, 0).1 == b && Sextets(o.0, o.1, 0).2 == c / 4 * 4;
    assert Group(bytes) == [Symbol(a), Symbol(b), Symbol(c / 4 * 4), '='];
    SameFour(g, Group(bytes));
    ValueSymbol(g[0]);
    ValueSymbol(g[1]);
    ValueSymbol(g[2]);
    SymbolValue(c / 4 * 4);
  }

  lemma GroupOfOne(g: string, bytes: Bytes, a: int, b: int)
    requires |g| == 4 && a == Value(g[0]) >= 0 && b == Value(g[1]) >= 0 && g[2] == '=' && g[3] == '='
    requires bytes == [Octets(a, b, 0, 0).0 as byte]
    ensures g == Group(bytes) <==> UrlSafe(g) && Tight(g)
  {
    var x := Octets(a, b, 0, 0).0;
    assert Sextets(x, 0, 0).0 == a && Sextets(x, 0, 0).1 == b / 16 * 16;
    assert Group(bytes) == [Symbol(a), Symbol(b / 16 * 16), '=', '='];
    SameFour(g, Group(bytes));
    ValueSymbol(g[0]);
    ValueSymbol(g[1]);
    SymbolValue(b / 16 * 16);
  }

  lemma SameFour(g: string, h: string)
    requires |g| == 4 == |h|
    ensures g == h <==> g[0] == h[0] && g[1] == h[1] && g[2] == h[2] && g[3] == h[3]
  {
  }

  /** The last group of a longer spelling is the last group of what follows its first one. */
  lemma CanonicalSplits(s: string)
    requires |s| > 4
    ensures Canonical(s) <==> UrlSafe(s[..4]) && Canonical(s[4..])
  {
    var rest := s[4..];
    assert s == s[..4] + rest;
    if |rest| >= 4 {
      assert s[|s| - 4..] == rest[|rest| - 4..];
    }
    if UrlSafe(s[..4]) && UrlSafe(rest) {
      forall i | 0 <= i < |s| ensures s[i] != '+' && s[i] != '/' {
        if i < 4 { assert s[..4][i] == s[i]; } else { assert rest[i - 4] == s[i]; }
      }
    } else if UrlSafe(s) {
      assert forall i :: 0 <= i < 4 ==> s[..4][i] == s[i];
      assert forall i :: 0 <= i < |rest| ==> rest[i] == s[i + 4];
      assert false;
    }
  }

  lemma {:induction false} UnbaseIsCanonical(s: string, started: bool, excess: bool)
    requires Unbase(s, started, excess).Some?
    ensures var v := Unbase(s, started, excess).value; s == Encode(v) <==> Canonical(s)
    ensures Unbase(s, started, excess).value == [] ==> s == "" || Padding(s)
    decreases |s|
  {
    if s != "" && !(excess && started && Padding(s)) {
      var last := |s| == 4;
      var v := Unbase(s, started, excess).value;
      var b, rest := Ungroup(s[..4], last).value, s[4..];
      GroupIsCanonical(s[..4], last);
      UnbaseIsCanonical(rest, true, excess);
      if last {
        assert s[..4] == s && v == b + [] == b;
      } else {
        LongerIsCanonical(s, b, Unbase(rest, true, excess).value);
      }
    }
  }

  lemma LongerIsCanonical(s: string, b: Bytes, later: Bytes)
    requires |s| > 4 && |b| == 3 && (s[4..] == Encode(later) <==> Canonical(s[4..]))
    requires Ungroup(s[..4], false) == Some(b) && (s[..4] == Group(b) <==> UrlSafe(s[..4]) && Tight(s[..4]))
    ensures s == Encode(b + later) <==> Canonical(s)
  {
    CanonicalSplits(s);
    assert s[..4][3] != '=';
    if later == [] {
      assert b + later == b;
    } else {
      assert (b + later)[..3] == b && (b + later)[3..] == later;
      assert s == s[..4] + s[4..];
      assert Encode(b + later) == Group(b) + Encode(later);
      assert Encode(b + later)[..4] == Group(b) && Encode(b + later)[4..] == Encode(later);
    }
  }

  /** One name may be spelled in several ways the decoder accepts; the encoder's is the canonical one, and no other. */
  lemma OneCanonicalSpelling(s: string, excess: bool)
    requires Decode(s, excess).Some?
    ensures s == Encode(Decode(s, excess).value) <==> Canonical(s)
  {
    UnbaseIsCanonical(s, false, excess);
  }

  /** Symbols of the standard alphabet are read as their URL-safe counterparts. */
  lemma StandardAlphabetIsAccepted(excess: bool)
    ensures Decode("Q+==", excess) == Decode("Q-==", excess) == Some([67])
    ensures !Canonical("Q+==")
  {
    var s, t := "Q+==", "Q-==";
    assert s[..4] == s && t[..4] == t && s[4..] == "" == t[4..] && s[1] == '+';
    assert [67] + [] == [67 as byte];
  }

  /** Spare bits of a padded group are ignored. */
  lemma SpareBitsAreAccepted(excess: bool)
    ensures Decode("QR==", excess) == Some([65]) && Encode([65]) == "QQ=="
    ensures UrlSafe("QR==") && !Canonical("QR==")
  {
    EncodedA();
    DecodedSpare("QR==", excess);
  }

  lemma EncodedA()
    ensures Encode([65]) == "QQ=="
  {
    var b: Bytes := [65];
    assert Group(b) == [Symbol(16), Symbol(16), '=', '='];
    assert Symbol(16) == 'Q';
  }

  lemma DecodedSpare(s: string, excess: bool)
    requires s == "QR=="
    ensures Decode(s, excess) == Some([65]) && UrlSafe(s) && !Canonical(s)
  {
    assert s[..4] == s && s[4..] == "" && s[|s| - 4..] == s;
    assert Unbase("", true, excess) == Some([]);
    assert [65] + [] == [65 as byte];
  }

  /** Where the library allows it, padding after complete groups is ignored. */
  lemma ExcessPaddingIsAccepted()
    ensures Decode("QUFB=", true) == Decode("QUFB", true) == Some([65, 65, 65])
    ensures Decode("QUFB=", false) == None && UrlSafe("QUFB=") && !Canonical("QUFB=")
  {
    var s, t := "QUFB=", "QUFB";
    assert s[..4] == t && t[..4] == t && s[4..] == "=" && t[4..] == "";
    assert [65, 65, 65] + [] == [65 as byte, 65, 65];
  }
}
