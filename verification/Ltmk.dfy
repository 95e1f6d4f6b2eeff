/** Hex text of the session master key (LTMK): what is accepted, and what it means. */
module Ltmk {
  import opened Types

  const KEY_BYTES: nat := 32

  type Byte = b: int | 0 <= b < 256
  type Key = seq<Byte>

  /** The characters trimmed from both ends of a text. */
  predicate IsSpace(c: char) {
    var n := c as int;
    || 0x09 <= n <= 0x0D || 0x1C <= n <= 0x20 || n == 0x85 || n == 0xA0 || n == 0x1680 || 0x2000 <= n <= 0x200A
    || n == 0x2028 || n == 0x2029 || n == 0x202F || n == 0x205F || n == 0x3000
  }

  /** The characters hex decoding skips between bytes. */
  predicate IsAsciiSpace(c: char) {
    var n := c as int;
    0x09 <= n <= 0x0D || n == 0x20
  }

  predicate IsHex(c: char) {
    '0' <= c <= '9' || 'a' <= c <= 'f' || 'A' <= c <= 'F'
  }

  function HexValue(c: char): (v: int)
    requires IsHex(c)
    ensures 0 <= v < 16
  {
    if '0' <= c <= '9' then c as int - '0' as int
    else if 'a' <= c <= 'f' then c as int - 'a' as int + 10
    else c as int - 'A' as int + 10
  }

  /** Lower case, for ASCII letters: no other letter lowers to a character a key may hold. */
  function Lower(c: char): char {
    if 'A' <= c <= 'Z' then ((c as int) + 32) as char else c
  }

  function Lowered(s: string): (r: string)
    ensures |r| == |s|
  {
    if s == "" then "" else [Lower(s[0])] + Lowered(s[1..])
  }

  function Erased(s: string, c: char): string {
    if s == "" then "" else if s[0] == c then Erased(s[1..], c) else [s[0]] + Erased(s[1..], c)
  }

  function TrimLeft(s: string): string {
    if s != "" && IsSpace(s[0]) then TrimLeft(s[1..]) else s
  }

  function TrimRight(s: string): string {
    if s != "" && IsSpace(s[|s| - 1]) then TrimRight(s[..|s| - 1]) else s
  }

  function Trim(s: string): string {
    TrimRight(TrimLeft(s))
  }

  function WithoutPrefix(s: string): string {
    if |s| >= 2 && s[0] == '0' && s[1] == 'x' then s[2..] else s
  }

  /** Separators a key may be written with are dropped wherever they stand. */
  function Joined(s: string): string {
    Erased(Erased(s, ':'), ' ')
  }

  /** Decode pairs of hex digits; ASCII whitespace may stand between pairs but not inside one. */
  function FromHex(s: string): Option<Key>
    decreases |s|
  {
    if s == "" then Some([])
    else if IsAsciiSpace(s[0]) then FromHex(s[1..])
    else if |s| < 2 || !IsHex(s[0]) || !IsHex(s[1]) then None
    else match FromHex(s[2..])
      case None => None
      case Some(rest) => Some([16 * HexValue(s[0]) + HexValue(s[1])] + rest)
  }

  function Digit(v: int): (c: char)
    requires 0 <= v < 16
    ensures IsHex(c) && HexValue(c) == v && Lower(c) == c
  {
    if v < 10 then ('0' as int + v) as char else ('a' as int + v - 10) as char
  }

  /** The hex text a key is stored as. */
  function Hex(key: Key): (s: string)
    ensures |s| == 2 * |key|
  {
    if key == [] then "" else [Digit(key[0] / 16), Digit(key[0] % 16)] + Hex(key[1..])
  }

  /** Parse the key a user typed. */
  function ParseLtmk(text: string): (key: Option<Key>)
    ensures key.Some? ==> |key.value| == KEY_BYTES
  {
    var raw := FromHex(Joined(WithoutPrefix(Lowered(Trim(text)))));
    if raw.Some? && |raw.value| == KEY_BYTES then raw else None
  }

  // ---- Trimming

  lemma {:induction false} TrimLeftEnds(s: string)
    ensures TrimLeft(s) == "" || !IsSpace(TrimLeft(s)[0])
    decreases |s|
  {
    if s != "" && IsSpace(s[0]) {
      TrimLeftEnds(s[1..]);
    }
  }

  lemma {:induction false} TrimRightEnds(s: string)
    ensures TrimRight(s) <= s
    ensures TrimRight(s) == "" || !IsSpace(TrimRight(s)[|TrimRight(s)| - 1])
    decreases |s|
  {
    if s != "" && IsSpace(s[|s| - 1]) {
      TrimRightEnds(s[..|s| - 1]);
    }
  }

  lemma TrimTwice(s: string)
    ensures Trim(Trim(s)) == Trim(s)
  {
    TrimLeftEnds(s);
    TrimRightEnds(TrimLeft(s));
  }

  // ---- Decoding is the inverse of storing, in either case of digits

  lemma LowerKeepsDigit(c: char, v: int)
    requires 0 <= v < 16 && Lower(c) == Digit(v)
    ensures IsHex(c) && !IsAsciiSpace(c) && HexValue(c) == v
  {
  }

  lemma {:induction false} FromHexReads(digits: string, key: Key)
    requires Lowered(digits) == Hex(key)
    ensures FromHex(digits) == Some(key)
    decreases |key|
  {
    if key != [] {
      var a, b := digits[0], digits[1];
      assert Lowered(digits)[0] == Lower(a) && Lowered(digits)[1] == Lowered(digits[1..])[0] == Lower(b);
      LowerKeepsDigit(a, key[0] / 16);
      LowerKeepsDigit(b, key[0] % 16);
      assert Lowered(digits[2..]) == Lowered(digits)[2..] by {
        assert digits[1..][1..] == digits[2..];
      }
      FromHexReads(digits[2..], key[1..]);
      assert 16 * HexValue(a) + HexValue(b) == key[0];
      assert key == [key[0]] + key[1..];
    }
  }

  function WithoutAsciiSpace(s: string): string {
    if s == "" then ""
    else if IsAsciiSpace(s[0]) then WithoutAsciiSpace(s[1..])
    else [s[0]] + WithoutAsciiSpace(s[1..])
  }

  lemma DigitOfValue(c: char)
    requires IsHex(c)
    ensures Digit(HexValue(c)) == Lower(c) && !IsAsciiSpace(c)
  {
  }

  lemma LoweredCons(c: char, rest: string)
    ensures Lowered([c] + rest) == [Lower(c)] + Lowered(rest)
  {
    assert ([c] + rest)[1..] == rest;
  }

  /** The digits a text shows, in lower case. */
  function Digits(s: string): string {
    Lowered(WithoutAsciiSpace(s))
  }

  lemma DigitIsShown(s: string)
    requires s != "" && IsHex(s[0])
    ensures Digits(s) == [Lower(s[0])] + Digits(s[1..])
  {
    LoweredCons(s[0], WithoutAsciiSpace(s[1..]));
  }

  lemma PairIsShown(s: string)
    requires |s| >= 2 && IsHex(s[0]) && IsHex(s[1])
    ensures Digits(s) == [Lower(s[0]), Lower(s[1])] + Digits(s[2..])
  {
    var tail := s[1..];
    DigitIsShown(s);
    DigitIsShown(tail);
    assert tail[0] == s[1] && tail[1..] == s[2..];
  }

  lemma PairIsStored(a: char, b: char, rest: Key)
    requires IsHex(a) && IsHex(b)
    ensures Hex([16 * HexValue(a) + HexValue(b)] + rest) == [Lower(a), Lower(b)] + Hex(rest)
  {
    DigitOfValue(a);
    DigitOfValue(b);
    var key := [16 * HexValue(a) + HexValue(b)] + rest;
    assert key[1..] == rest && key[0] / 16 == HexValue(a) && key[0] % 16 == HexValue(b);
  }

  /** What decodes is the stored form of the result, up to case and whitespace. */
  lemma {:induction false} FromHexShows(s: string)
    requires FromHex(s).Some?
    ensures Hex(FromHex(s).value) == Digits(s)
    decreases |s|
  {
    if s != "" {
      if IsAsciiSpace(s[0]) {
        FromHexShows(s[1..]);
      } else {
        var rest := FromHex(s[2..]).value;
        FromHexShows(s[2..]);
        PairIsShown(s);
        PairIsStored(s[0], s[1], rest);
        assert FromHex(s).value == [16 * HexValue(s[0]) + HexValue(s[1])] + rest;
      }
    }
  }

  // ---- Everything typed around the digits falls away

  predicate AllSpace(s: string) {
    forall i | 0 <= i < |s| :: IsSpace(s[i])
  }

  /** The only characters besides hex digits are colons and plain spaces. */
  predicate PlainBody(s: string) {
    forall i | 0 <= i < |s| :: IsHex(s[i]) || s[i] == ':' || s[i] == ' '
  }

  lemma {:induction false} TrimLeftSkips(lead: string, rest: string)
    requires AllSpace(lead)
    ensures TrimLeft(lead + rest) == TrimLeft(rest)
    decreases |lead|
  {
    if lead == "" {
      assert lead + rest == rest;
    } else {
      assert (lead + rest)[1..] == lead[1..] + rest;
      TrimLeftSkips(lead[1..], rest);
    }
  }

  lemma {:induction false} TrimRightSkips(rest: string, trail: string)
    requires AllSpace(trail)
    ensures TrimRight(rest + trail) == TrimRight(rest)
    decreases |trail|
  {
    if trail == "" {
      assert rest + trail == rest;
    } else {
      var n := |trail| - 1;
      assert (rest + trail)[..|rest + trail| - 1] == rest + trail[..n];
      TrimRightSkips(rest, trail[..n]);
    }
  }

  lemma {:induction false} TrimRightKeepsFront(front: string, body: string)
    requires TrimRight(body) != ""
    ensures TrimRight(front + body) == front + TrimRight(body)
    decreases |body|
  {
    var n := |body| - 1;
    if IsSpace(body[n]) {
      assert (front + body)[..|front + body| - 1] == front + body[..n];
      TrimRightKeepsFront(front, body[..n]);
    }
  }

  /** Trimming only the right of a body, or both ends, does not touch its digits. */
  lemma {:induction false} TrimRightKeepsDigits(body: string)
    requires PlainBody(body)
    ensures PlainBody(TrimRight(body)) && Joined(TrimRight(body)) == Joined(body)
    decreases |body|
  {
    if body != "" && IsSpace(body[|body| - 1]) {
      var n := |body| - 1;
      TrimRightKeepsDigits(body[..n]);
      assert body == body[..n] + " ";
      JoinedAppend(body[..n], " ");
    }
  }

  lemma {:induction false} TrimLeftKeepsDigits(body: string)
    requires PlainBody(body)
    ensures PlainBody(TrimLeft(body)) && Joined(TrimLeft(body)) == Joined(body)
    decreases |body|
  {
    if body != "" && IsSpace(body[0]) {
      assert body[0] == ' ';
      TrimLeftKeepsDigits(body[1..]);
      assert Erased(body, ':') == " " + Erased(body[1..], ':');
    }
  }

  lemma {:induction false} ErasedAppend(a: string, b: string, c: char)
    ensures Erased(a + b, c) == Erased(a, c) + Erased(b, c)
    decreases |a|
  {
    if a == "" {
      assert a + b == b;
    } else {
      assert (a + b)[1..] == a[1..] + b;
      ErasedAppend(a[1..], b, c);
    }
  }

  lemma JoinedAppend(a: string, b: string)
    ensures Joined(a + b) == Joined(a) + Joined(b)
  {
    ErasedAppend(a, b, ':');
    ErasedAppend(Erased(a, ':'), Erased(b, ':'), ' ');
  }

  lemma {:induction false} ErasedLowered(s: string, c: char)
    requires c == ':' || c == ' '
    ensures Erased(Lowered(s), c) == Lowered(Erased(s, c))
    decreases |s|
  {
    if s != "" {
      ErasedLowered(s[1..], c);
      assert Lowered(s)[1..] == Lowered(s[1..]);
      if s[0] != c {
        LoweredCons(s[0], Erased(s[1..], c));
      }
    }
  }

  lemma JoinedLowered(s: string)
    ensures Joined(Lowered(s)) == Lowered(Joined(s))
  {
    ErasedLowered(s, ':');
    ErasedLowered(Erased(s, ':'), ' ');
  }

  lemma {:induction false} LoweredAppend(a: string, b: string)
    ensures Lowered(a + b) == Lowered(a) + Lowered(b)
    decreases |a|
  {
    if a == "" {
      assert a + b == b;
    } else {
      assert (a + b)[1..] == a[1..] + b;
      LoweredAppend(a[1..], b);
    }
  }

  lemma {:induction false} LoweredAt(s: string, i: nat)
    requires i < |s|
    ensures Lowered(s)[i] == Lower(s[i])
    decreases i
  {
    if i > 0 {
      LoweredAt(s[1..], i - 1);
    }
  }

  /** The prefix rule fires on a typed prefix and never on the digits of a key. */
  lemma PrefixGoes(prefix: string, body: string)
    requires prefix in {"", "0x", "0X"} && PlainBody(body)
    ensures WithoutPrefix(Lowered(prefix + body)) == Lowered(body)
  {
    LoweredAppend(prefix, body);
    if prefix == "" {
      if |body| >= 2 {
        LoweredAt(body, 1);
      }
    } else {
      LoweredAt(prefix, 0);
      LoweredAt(prefix, 1);
    }
  }

  /** Trimming a written key leaves its prefix and digits. */
  lemma TrimLeavesKey(lead: string, prefix: string, body: string, trail: string) returns (core: string)
    requires AllSpace(lead) && AllSpace(trail) && prefix in {"", "0x", "0X"} && PlainBody(body) && Joined(body) != ""
    ensures Trim(lead + prefix + body + trail) == prefix + core
    ensures PlainBody(core) && Joined(core) == Joined(body)
  {
    var shown := prefix + body;
    assert lead + prefix + body + trail == lead + (shown + trail);
    TrimLeftSkips(lead, shown + trail);
    if prefix == "" {
      assert shown == body;
      TrimLeftKeepsDigits(body);
      TrimLeftOfPair(body, trail);
      TrimRightSkips(TrimLeft(body), trail);
      TrimRightKeepsDigits(TrimLeft(body));
      core := TrimRight(TrimLeft(body));
      assert prefix + core == core;
    } else {
      assert TrimLeft(shown + trail) == shown + trail;
      TrimRightSkips(shown, trail);
      TrimRightKeepsDigits(body);
      core := TrimRight(body);
      TrimRightKeepsFront(prefix, body);
    }
  }

  lemma {:induction false} TrimLeftOfPair(a: string, b: string)
    requires TrimLeft(a) != ""
    ensures TrimLeft(a + b) == TrimLeft(a) + b
    decreases |a|
  {
    if IsSpace(a[0]) {
      assert (a + b)[1..] == a[1..] + b;
      TrimLeftOfPair(a[1..], b);
    }
  }

  /** Any way of writing a key parses to that key: digits in either case, colons and spaces anywhere in
      the body, an optional prefix, and whitespace around it all. */
  lemma WrittenKeyParses(key: Key, lead: string, prefix: string, body: string, trail: string)
    requires |key| == KEY_BYTES
    requires AllSpace(lead) && AllSpace(trail) && prefix in {"", "0x", "0X"}
    requires PlainBody(body) && Lowered(Joined(body)) == Hex(key)
    ensures ParseLtmk(lead + prefix + body + trail) == Some(key)
  {
    var core := TrimLeavesKey(lead, prefix, body, trail);
    PrefixGoes(prefix, core);
    JoinedLowered(core);
    FromHexReads(Joined(core), key);
    LoweredTwice(Joined(core));
    FromHexReads(Lowered(Joined(core)), key);
  }

  lemma {:induction false} LoweredTwice(s: string)
    ensures Lowered(Lowered(s)) == Lowered(s)
    decreases |s|
  {
    if s != "" {
      LoweredTwice(s[1..]);
      assert Lowered(s)[1..] == Lowered(s[1..]);
    }
  }

  /** Whatever is accepted has exactly 32 bytes, and they are the ones its digits spell. */
  lemma AcceptedIsSpelled(text: string)
    requires ParseLtmk(text).Some?
    ensures |ParseLtmk(text).value| == KEY_BYTES
    ensures Hex(ParseLtmk(text).value)
         == Digits(Joined(WithoutPrefix(Lowered(Trim(text)))))
  {
    FromHexShows(Joined(WithoutPrefix(Lowered(Trim(text)))));
  }

  lemma {:induction false} HexIsPlain(key: Key)
    ensures PlainBody(Hex(key)) && Lowered(Hex(key)) == Hex(key) && Joined(Hex(key)) == Hex(key)
    decreases |key|
  {
    if key != [] {
      HexIsPlain(key[1..]);
      var pair := [Digit(key[0] / 16), Digit(key[0] % 16)];
      assert Hex(key) == pair + Hex(key[1..]);
      LoweredAppend(pair, Hex(key[1..]));
      JoinedAppend(pair, Hex(key[1..]));
      assert Lowered(pair) == pair && Joined(pair) == pair by {
        assert pair[1..] == [pair[1]];
        assert pair == [pair[0]] + [pair[1]];
        ErasedAppend([pair[0]], [pair[1]], ':');
        ErasedAppend([pair[0]], [pair[1]], ' ');
      }
    }
  }

  /** The stored text of a key decodes to it, and parses to it when it has the right length. */
  lemma StoredKeyReturns(key: Key)
    ensures FromHex(Hex(key)) == Some(key)
    ensures |key| == KEY_BYTES ==> ParseLtmk(Hex(key)) == Some(key)
  {
    HexIsPlain(key);
    FromHexReads(Hex(key), key);
    if |key| == KEY_BYTES {
      WrittenKeyParses(key, "", "", Hex(key), "");
      assert "" + "" + Hex(key) + "" == Hex(key);
    }
  }
}
