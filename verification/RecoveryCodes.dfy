/** Recovery codes: printing ten random bytes, and recognising what a user types back. */
module RecoveryCodes {
  import opened Wrappers

  type Byte = b: nat | b < 256

  // ----- Text -----

  /** Unicode `White_Space`, what `trim` strips. */
  predicate IsWhitespace(c: char) {
    || '\U{9}' <= c <= '\U{D}' || c == ' ' || c == '\U{85}' || c == '\U{A0}' || c == '\U{1680}'
    || '\U{2000}' <= c <= '\U{200A}' || c == '\U{2028}' || c == '\U{2029}' || c == '\U{202F}'
    || c == '\U{205F}' || c == '\U{3000}'
  }

  function TrimStart(s: string): string {
    if s != "" && IsWhitespace(s[0]) then TrimStart(s[1..]) else s
  }

  function TrimEnd(s: string): string {
    if s != "" && IsWhitespace(s[|s| - 1]) then TrimEnd(s[..|s| - 1]) else s
  }

  function Trim(s: string): string {
    TrimEnd(TrimStart(s))
  }

  /** Lower case of ASCII letters; no other character has a lower case among the hexadecimal digits or '-'. */
  function LowerChar(c: char): char {
    if 'A' <= c <= 'Z' then c + ' ' else c
  }

  function Lower(s: string): string {
    seq(|s|, i requires 0 <= i < |s| => LowerChar(s[i]))
  }

  /** Length in bytes of the UTF-8 encoding, what `str::len` counts. */
  function Utf8Len(c: char): nat {
    if c < '\U{80}' then 1 else if c < '\U{800}' then 2 else if c < '\U{10000}' then 3 else 4
  }

  function ByteLen(s: string): nat {
    if s == "" then 0 else Utf8Len(s[0]) + ByteLen(s[1..])
  }

  /** `split('-')`: one more group than there are hyphens. */
  function Split(s: string): (groups: seq<string>)
    ensures |groups| > 0
  {
    if s == "" then [""]
    else
      var rest := Split(s[1..]);
      if s[0] == '-' then [""] + rest else [[s[0]] + rest[0]] + rest[1..]
  }

  predicate IsHexDigit(c: char) {
    '0' <= c <= '9' || 'a' <= c <= 'f' || 'A' <= c <= 'F'
  }

  predicate AllHex(s: string) {
    forall i :: 0 <= i < |s| ==> IsHexDigit(s[i])
  }

  // ----- Codes -----

  function Digit(n: nat): char
    requires n < 16
  {
    if n < 10 then '0' + n as char else 'a' + (n - 10) as char
  }

  function Value(c: char): nat
    requires IsHexDigit(c)
  {
    if c <= '9' then (c - '0') as nat else if c <= 'F' then (c - 'A') as nat + 10 else (c - 'a') as nat + 10
  }

  /** `hex::encode`: two lower-case digits a byte. */
  function Hex(bytes: seq<Byte>): (h: string)
    ensures |h| == 2 * |bytes|
  {
    seq(2 * |bytes|, i requires 0 <= i < 2 * |bytes| =>
        Digit(if i % 2 == 0 then bytes[i / 2] / 16 else bytes[i / 2] % 16))
  }

  /** The printed form: four groups of five digits. */
  function Print(bytes: seq<Byte>): string
    requires |bytes| == 10
  {
    var h := Hex(bytes);
    h[0..5] + "-" + h[5..10] + "-" + h[10..15] + "-" + h[15..20]
  }

  predicate GroupOk(g: string) {
    ByteLen(g) == 5 && AllHex(g)
  }

  predicate IsRecoveryCode(code: string) {
    var t := Trim(code);
    ByteLen(t) == 23 && |Split(t)| == 4 && forall i :: 0 <= i < |Split(t)| ==> GroupOk(Split(t)[i])
  }

  /** SHA-256 as a free constructor. */
  datatype CodeHash = Sha256(text: string)

  function HashRecoveryCode(code: string): CodeHash {
    Sha256(Lower(Trim(code)))
  }

  // ----- Hexadecimal digits -----

  lemma DigitIsHex(n: nat)
    requires n < 16
    ensures IsHexDigit(Digit(n)) && Value(Digit(n)) == n && LowerChar(Digit(n)) == Digit(n)
  {
  }

  lemma LowerOfHex(c: char)
    ensures IsHexDigit(c) <==> IsHexDigit(LowerChar(c))
    ensures IsHexDigit(c) ==> Digit(Value(c)) == LowerChar(c)
    ensures LowerChar(c) == '-' <==> c == '-'
  {
  }

  lemma HexIsHex(bytes: seq<Byte>)
    ensures AllHex(Hex(bytes))
  {
  }

  lemma HexInjective(a: seq<Byte>, b: seq<Byte>)
    requires Hex(a) == Hex(b)
    ensures a == b
  {
    assert |a| == |b| by { assert |Hex(a)| == |Hex(b)|; }
    forall i | 0 <= i < |a|
      ensures a[i] == b[i]
    {
      assert Hex(a)[2 * i] == Hex(b)[2 * i] && Hex(a)[2 * i + 1] == Hex(b)[2 * i + 1];
      DigitIsHex(a[i] / 16);
      DigitIsHex(b[i] / 16);
      DigitIsHex(a[i] % 16);
      DigitIsHex(b[i] % 16);
    }
  }

  /** `hex::decode` of an even number of digits. */
  function Unhex(h: string): (bytes: seq<Byte>)
    requires |h| % 2 == 0 && AllHex(h)
    ensures |bytes| == |h| / 2
  {
    seq(|h| / 2, i requires 0 <= i < |h| / 2 => ByteOf(h[2 * i], h[2 * i + 1]))
  }

  function ByteOf(hi: char, lo: char): Byte
    requires IsHexDigit(hi) && IsHexDigit(lo)
  {
    16 * Value(hi) + Value(lo)
  }

  lemma DigitsOfByte(hi: char, lo: char)
    requires IsHexDigit(hi) && IsHexDigit(lo)
    ensures Digit(ByteOf(hi, lo) / 16) == LowerChar(hi) && Digit(ByteOf(hi, lo) % 16) == LowerChar(lo)
  {
  }

  lemma HexOfUnhex(h: string)
    requires |h| % 2 == 0 && AllHex(h)
    ensures Hex(Unhex(h)) == Lower(h)
  {
    forall i | 0 <= i < |h|
      ensures Hex(Unhex(h))[i] == Lower(h)[i]
    {
      var k := i / 2;
      DigitsOfByte(h[2 * k], h[2 * k + 1]);
      assert Unhex(h)[k] == ByteOf(h[2 * k], h[2 * k + 1]);
    }
  }

  // ----- Groups -----

  lemma {:induction false} SplitPlain(g: string)
    requires '-' !in g
    ensures Split(g) == [g]
  {
    if g != "" {
      SplitPlain(g[1..]);
      assert [g[0]] + g[1..] == g;
    }
  }

  lemma {:induction false} SplitGroup(g: string, rest: string)
    requires '-' !in g
    ensures Split(g + "-" + rest) == [g] + Split(rest)
  {
    var s := g + "-" + rest;
    if g == "" {
      assert s[1..] == rest;
    } else {
      SplitGroup(g[1..], rest);
      assert s[1..] == g[1..] + "-" + rest;
      assert [g[0]] + g[1..] == g;
    }
  }

  function Join(groups: seq<string>): string
    requires |groups| > 0
  {
    if |groups| == 1 then groups[0] else groups[0] + "-" + Join(groups[1..])
  }

  lemma {:induction false} JoinOfSplit(s: string)
    ensures Join(Split(s)) == s
  {
    if s != "" {
      var rest := Split(s[1..]);
      JoinOfSplit(s[1..]);
      if s[0] == '-' {
        assert ([""] + rest)[1..] == rest;
      } else {
        assert ([[s[0]] + rest[0]] + rest[1..])[1..] == rest[1..];
      }
      assert [s[0]] + s[1..] == s;
    }
  }

  lemma {:induction false} HexByteLen(g: string)
    requires forall i :: 0 <= i < |g| ==> IsHexDigit(g[i]) || g[i] == '-'
    ensures ByteLen(g) == |g|
  {
    if g != "" {
      HexByteLen(g[1..]);
    }
  }

  function FourGroups(a: string, b: string, c: string, d: string): string {
    a + "-" + b + "-" + c + "-" + d
  }

  predicate IsGroup(g: string) {
    |g| == 5 && AllHex(g)
  }

  lemma GroupIffIsGroup(g: string)
    ensures GroupOk(g) <==> IsGroup(g)
  {
    if AllHex(g) { HexByteLen(g); }
  }

  lemma SplitFour(a: string, b: string, c: string, d: string)
    requires IsGroup(a) && IsGroup(b) && IsGroup(c) && IsGroup(d)
    ensures Split(FourGroups(a, b, c, d)) == [a, b, c, d]
  {
    assert FourGroups(a, b, c, d) == a + "-" + (b + "-" + (c + "-" + d));
    SplitGroup(a, b + "-" + (c + "-" + d));
    SplitGroup(b, c + "-" + d);
    SplitGroup(c, d);
    SplitPlain(d);
  }

  lemma JoinFour(groups: seq<string>)
    requires |groups| == 4
    ensures Join(groups) == FourGroups(groups[0], groups[1], groups[2], groups[3])
  {
    var (a, b, c, d) := (groups[0], groups[1], groups[2], groups[3]);
    assert groups[1..][1..] == [c, d] && groups[1..][1..][1..] == [d];
    assert Join([d]) == d && Join([c, d]) == c + "-" + d;
    assert FourGroups(a, b, c, d) == a + "-" + (b + "-" + (c + "-" + d));
  }

  // ----- The text functions by code points -----

  /** White space as Unicode lists it, by code point. */
  lemma WhitespaceLaw(c: char)
    ensures var n := c as int;
            IsWhitespace(c) <==>
              9 <= n <= 13 || 8192 <= n <= 8202 || n in {32, 133, 160, 5760, 8232, 8233, 8239, 8287, 12288}
  {
  }

  /** Lower case moves the 26 capital letters by 32 and nothing else. */
  lemma LowerLaw(c: char)
    ensures LowerChar(c) as int == if 65 <= c as int <= 90 then c as int + 32 else c as int
  {
  }

  /** Grouping puts the k-th digit after k / 5 hyphens. */
  lemma GroupedAt(h: string, k: nat)
    requires |h| == 20 && k < 20
    ensures var p := FourGroups(h[0..5], h[5..10], h[10..15], h[15..20]);
            |p| == 23 && p[5] == '-' && p[11] == '-' && p[17] == '-' && p[k + k / 5] == h[k]
  {
    var (a, b, c, d) := (h[0..5], h[5..10], h[10..15], h[15..20]);
    if k < 5 {
      assert k / 5 == 0 && a[k] == h[k];
    } else if k < 10 {
      assert k / 5 == 1 && b[k - 5] == h[k];
    } else if k < 15 {
      assert k / 5 == 2 && c[k - 10] == h[k];
    } else {
      assert k / 5 == 3 && d[k - 15] == h[k];
    }
  }

  /** The digits of a byte, high half first, in lower case; after every five digits but the last a hyphen. */
  lemma PrintLaw(bytes: seq<Byte>, k: nat)
    requires |bytes| == 10 && k < 20
    ensures var half := if k % 2 == 0 then bytes[k / 2] / 16 else bytes[k / 2] % 16;
            var p := Print(bytes);
            && |p| == 23 && p[5] == '-' && p[11] == '-' && p[17] == '-'
            && p[k + k / 5] == "0123456789abcdef"[half]
  {
    var half := if k % 2 == 0 then bytes[k / 2] / 16 else bytes[k / 2] % 16;
    assert Hex(bytes)[k] == Digit(half);
    DigitTable(half);
    GroupedAt(Hex(bytes), k);
  }

  lemma DigitTable(n: nat)
    requires n < 16
    ensures Digit(n) == "0123456789abcdef"[n]
  {
  }

  // ----- Theorems -----

  /** The check for 23 bytes is redundant: it follows from the number and the form of the groups. */
  lemma LengthFollowsFromGroups(t: string)
    requires |Split(t)| == 4 && forall i :: 0 <= i < |Split(t)| ==> GroupOk(Split(t)[i])
    ensures ByteLen(t) == 23
    ensures var g := Split(t); IsGroup(g[0]) && IsGroup(g[1]) && IsGroup(g[2]) && IsGroup(g[3])
    ensures t == FourGroups(Split(t)[0], Split(t)[1], Split(t)[2], Split(t)[3])
  {
    var g := Split(t);
    GroupIffIsGroup(g[0]);
    GroupIffIsGroup(g[1]);
    GroupIffIsGroup(g[2]);
    GroupIffIsGroup(g[3]);
    JoinOfSplit(t);
    JoinFour(g);
    HexByteLen(t);
  }

  lemma LowerOfGroups(a: string, b: string, c: string, d: string)
    ensures Lower(a + b + c + d) == Lower(a) + Lower(b) + Lower(c) + Lower(d)
    ensures Lower(FourGroups(a, b, c, d)) == FourGroups(Lower(a), Lower(b), Lower(c), Lower(d))
  {
  }

  lemma CutFour(a: string, b: string, c: string, d: string)
    requires |a| == 5 && |b| == 5 && |c| == 5 && |d| == 5
    ensures var h := a + b + c + d; h[0..5] == a && h[5..10] == b && h[10..15] == c && h[15..20] == d
  {
  }

  /** Lower-casing and grouping commute, so a well-formed code spells the bytes its digits spell. */
  lemma PrintOfGroups(a: string, b: string, c: string, d: string)
    requires IsGroup(a) && IsGroup(b) && IsGroup(c) && IsGroup(d)
    ensures AllHex(a + b + c + d) && Print(Unhex(a + b + c + d)) == Lower(FourGroups(a, b, c, d))
  {
    HexOfUnhex(a + b + c + d);
    LowerOfGroups(a, b, c, d);
    CutFour(Lower(a), Lower(b), Lower(c), Lower(d));
  }

  /** What lower-cases to a printed form consists of four groups. */
  lemma GroupsOfPrint(t: string, bytes: seq<Byte>)
    requires |bytes| == 10 && Lower(t) == Print(bytes)
    ensures |t| == 23 && t == FourGroups(t[0..5], t[6..11], t[12..17], t[18..23])
    ensures IsGroup(t[0..5]) && IsGroup(t[6..11]) && IsGroup(t[12..17]) && IsGroup(t[18..23])
  {
    HexIsHex(bytes);
    assert |Lower(t)| == |t|;
    forall i | 0 <= i < 23
      ensures if i == 5 || i == 11 || i == 17 then t[i] == '-' else IsHexDigit(t[i])
    {
      LowerOfHex(t[i]);
      assert Lower(t)[i] == LowerChar(t[i]);
    }
  }

  /** A string is accepted iff its trimmed, lower-cased form is the printed form of ten bytes. */
  lemma AcceptedIffPrinted(code: string)
    ensures IsRecoveryCode(code) <==> exists bytes: seq<Byte> :: |bytes| == 10 && Print(bytes) == Lower(Trim(code))
  {
    var t := Trim(code);
    if IsRecoveryCode(code) {
      LengthFollowsFromGroups(t);
      var g := Split(t);
      PrintOfGroups(g[0], g[1], g[2], g[3]);
    }
    if bytes: seq<Byte> :| |bytes| == 10 && Print(bytes) == Lower(t) {
      GroupsOfPrint(t, bytes);
      var (a, b, c, d) := (t[0..5], t[6..11], t[12..17], t[18..23]);
      SplitFour(a, b, c, d);
      GroupIffIsGroup(a);
      GroupIffIsGroup(b);
      GroupIffIsGroup(c);
      GroupIffIsGroup(d);
      LengthFollowsFromGroups(t);
    }
  }

  lemma DigitsOfPrint(bytes: seq<Byte>)
    requires |bytes| == 10
    ensures var p := Print(bytes); |p| == 23 && Hex(bytes) == p[0..5] + p[6..11] + p[12..17] + p[18..23]
  {
    var (h, p) := (Hex(bytes), Print(bytes));
    assert p[0..5] == h[0..5] && p[6..11] == h[5..10] && p[12..17] == h[10..15] && p[18..23] == h[15..20];
  }

  /** Different bytes print differently, so those ten bytes are unique. */
  lemma PrintInjective(a: seq<Byte>, b: seq<Byte>)
    requires |a| == 10 && |b| == 10 && Print(a) == Print(b)
    ensures a == b
  {
    DigitsOfPrint(a);
    DigitsOfPrint(b);
    HexInjective(a, b);
  }

  predicate Blank(s: string) {
    forall i :: 0 <= i < |s| ==> IsWhitespace(s[i])
  }

  lemma {:induction false} TrimStartPadded(pad: string, s: string)
    requires Blank(pad) && s != "" && !IsWhitespace(s[0])
    ensures TrimStart(pad + s) == s
  {
    if pad == "" {
      assert pad + s == s;
    } else {
      assert (pad + s)[1..] == pad[1..] + s;
      TrimStartPadded(pad[1..], s);
    }
  }

  lemma {:induction false} TrimEndPadded(s: string, pad: string)
    requires Blank(pad) && s != "" && !IsWhitespace(s[|s| - 1])
    ensures TrimEnd(s + pad) == s
  {
    if pad == "" {
      assert s + pad == s;
    } else {
      assert (s + pad)[..|s + pad| - 1] == s + pad[..|pad| - 1];
      TrimEndPadded(s, pad[..|pad| - 1]);
    }
  }

  /** A generated code, in any case and with any blanks around it, is accepted and hashes like the original. */
  lemma TypedBackCode(bytes: seq<Byte>, typed: string, before: string, after: string)
    requires |bytes| == 10 && Lower(typed) == Print(bytes) && Blank(before) && Blank(after)
    ensures IsRecoveryCode(before + typed + after)
    ensures HashRecoveryCode(before + typed + after) == HashRecoveryCode(Print(bytes)) == Sha256(Print(bytes))
  {
    TrimTyped(bytes, typed, before, after);
    AcceptedIffPrinted(before + typed + after);
    LowerOfPrint(bytes);
    TrimTyped(bytes, Print(bytes), "", "");
    assert "" + Print(bytes) + "" == Print(bytes);
  }

  lemma LowerOfPrint(bytes: seq<Byte>)
    requires |bytes| == 10
    ensures Lower(Print(bytes)) == Print(bytes)
  {
  }

  lemma TrimTyped(bytes: seq<Byte>, typed: string, before: string, after: string)
    requires |bytes| == 10 && Lower(typed) == Print(bytes) && Blank(before) && Blank(after)
    ensures Trim(before + typed + after) == typed
  {
    GroupsOfPrint(typed, bytes);
    assert IsHexDigit(typed[0..5][0]) && IsHexDigit(typed[18..23][4]);
    assert before + typed + after == before + (typed + after);
    TrimStartPadded(before, typed + after);
    TrimEndPadded(typed, after);
  }

  lemma PrintedIsAccepted(bytes: seq<Byte>)
    requires |bytes| == 10
    ensures IsRecoveryCode(Print(bytes))
  {
    LowerOfPrint(bytes);
    TypedBackCode(bytes, Print(bytes), "", "");
    assert "" + Print(bytes) + "" == Print(bytes);
  }

  /** `generate_recovery_codes`: one buffer of entropy, ten bytes a code; None when the entropy source fails. */
  method GenerateRecoveryCodes(count: nat, entropy: Option<seq<Byte>>) returns (r: Option<seq<string>>)
    requires entropy.Some? ==> |entropy.value| == count * 10
    ensures r.Some? <==> entropy.Some?
    ensures r.Some? ==> |r.value| == count
    ensures r.Some? ==> forall i :: 0 <= i < count ==>
                          r.value[i] == Print(entropy.value[10 * i..10 * i + 10]) && IsRecoveryCode(r.value[i])
  {
    if entropy.None? {
      return None;
    }
    var bytes, codes := entropy.value, [];
    for k := 0 to count
      invariant |codes| == k
      invariant forall i :: 0 <= i < k ==> codes[i] == Print(bytes[10 * i..10 * i + 10]) && IsRecoveryCode(codes[i])
    {
      PrintedIsAccepted(bytes[10 * k..10 * k + 10]);
      codes := codes + [Print(bytes[10 * k..10 * k + 10])];
    }
    return Some(codes);
  }
}
