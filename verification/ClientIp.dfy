/**
 Address ranges and the address of the real client. The mask tests on machine words are proved to be comparisons of
 leading bits of integers (section 3.1 of RFC 4632 and section 2.3 of RFC 4291), and the walk over a forwarded-for
 chain to find the rightmost address that is not a trusted proxy.
 */
module AddressRanges {

  // ---------------------------------------------------------------- arithmetic of machine words

  function Pow2(n: nat): (p: nat)
    ensures p > 0
  {
    if n == 0 then 1 else 2 * Pow2(n - 1)
  }

  /** `&` on unsigned words. */
  function BitAnd(a: nat, b: nat): nat {
    if a == 0 || b == 0 then 0
    else 2 * BitAnd(a / 2, b / 2) + (if a % 2 == 1 && b % 2 == 1 then 1 else 0)
  }

  /** `x << n` on unsigned words of `width` bits. */
  function ShiftLeft(x: nat, n: nat, width: nat): nat { (x * Pow2(n)) % Pow2(width) }

  /** Anding with a run of ones keeps a smaller number. */
  lemma {:induction false} AndOnes(a: nat, n: nat)
    requires a < Pow2(n)
    ensures BitAnd(a, Pow2(n) - 1) == a
  {
    if a > 0 {
      var ones := Pow2(n) - 1;
      assert n > 0 && ones / 2 == Pow2(n - 1) - 1 && ones % 2 == 1;
      AndOnes(a / 2, n - 1);
    }
  }

  /** `n` ones above `k` zeros. */
  function HighOnes(n: nat, k: nat): nat { if k == 0 then Pow2(n) - 1 else 2 * HighOnes(n, k - 1) }

  /** The number without its low `k` bits. */
  function Leading(a: nat, k: nat): nat { if k == 0 then a else Leading(a / 2, k - 1) }

  function Cleared(a: nat, k: nat): nat { if k == 0 then a else 2 * Cleared(a / 2, k - 1) }

  /** Anding with ones above zeros clears the low bits. */
  lemma {:induction false} AndHighOnes(a: nat, n: nat, k: nat)
    requires a < Pow2(n + k)
    ensures BitAnd(a, HighOnes(n, k)) == Cleared(a, k)
  {
    if k == 0 {
      AndOnes(a, n);
    } else {
      AndHighOnes(a / 2, n, k - 1);
      assert HighOnes(n, k) / 2 == HighOnes(n, k - 1) && HighOnes(n, k) % 2 == 0;
      AndZero(a, HighOnes(n, k));
      if a == 0 || HighOnes(n, k) == 0 {
        AndZero(a / 2, HighOnes(n, k - 1));
      }
    }
  }

  lemma AndZero(a: nat, b: nat)
    ensures a == 0 || b == 0 ==> BitAnd(a, b) == 0
  {
  }

  lemma {:induction false} ClearedEqual(a: nat, b: nat, k: nat)
    ensures Cleared(a, k) == Cleared(b, k) <==> Leading(a, k) == Leading(b, k)
  {
    if k > 0 {
      ClearedEqual(a / 2, b / 2, k - 1);
    }
  }

  lemma {:induction false} HighOnesValue(n: nat, k: nat)
    ensures HighOnes(n, k) == Pow2(n + k) - Pow2(k)
  {
    if k > 0 {
      HighOnesValue(n, k - 1);
    }
  }

  lemma ShiftProduct(w: nat, p: nat)
    requires w > 0 && p > 0
    ensures (w - 1) * p == (p - 1) * w + w - p
  {
    Times(w - 1, p);
    Times(p - 1, w);
  }

  lemma {:induction false} Pow2Grows(n: nat, k: nat)
    ensures Pow2(k) <= Pow2(n + k)
  {
    if n > 0 {
      Pow2Grows(n - 1, k);
    }
  }

  lemma ShiftRemainder(w: nat, p: nat)
    requires 0 < p <= w
    ensures ((w - 1) * p) % w == w - p
  {
    ShiftProduct(w, p);
    QuotientUnique((w - 1) * p, w, p - 1, w - p);
  }

  /** Shifting all ones left leaves the mask. */
  lemma ShiftedOnes(n: nat, k: nat)
    ensures ShiftLeft(Pow2(n + k) - 1, k, n + k) == HighOnes(n, k)
  {
    HighOnesValue(n, k);
    Pow2Grows(n, k);
    ShiftRemainder(Pow2(n + k), Pow2(k));
  }

  lemma {:induction false} MoreTimes(x: nat, y: nat, d: nat)
    ensures x > y ==> x * d >= y * d + d
  {
    if x > y {
      MoreTimes(x - 1, y, d);
      Times(x - 1, d);
    }
  }

  lemma Times(x: nat, d: nat)
    ensures (x + 1) * d == x * d + d
  {
  }

  lemma QuotientUnique(a: nat, d: nat, q: nat, r: nat)
    requires d > 0 && a == q * d + r && r < d
    ensures a / d == q && a % d == r
  {
    var p, s := a / d, a % d;
    DivMod(a, d, p, s);
    MoreTimes(p, q, d);
    MoreTimes(q, p, d);
  }

  lemma DivMod(a: nat, d: nat, p: nat, s: nat)
    requires d > 0 && p == a / d && s == a % d
    ensures a == p * d + s && s < d
  {
  }

  lemma QuotientOfHalf(a: nat, d: nat)
    requires d > 0
    ensures a / 2 / d == a / (2 * d)
  {
    var q, r := a / 2 / d, a / 2 % d;
    assert a / 2 == q * d + r && a == 2 * (a / 2) + a % 2;
    assert q * (2 * d) == 2 * (q * d);
    QuotientUnique(a, 2 * d, q, 2 * r + a % 2);
  }

  /** The leading bits are the quotient by a power of two. */
  lemma {:induction false} LeadingIsQuotient(a: nat, k: nat)
    ensures Leading(a, k) == a / Pow2(k)
  {
    if k > 0 {
      LeadingIsQuotient(a / 2, k - 1);
      QuotientOfHalf(a, Pow2(k - 1));
    }
  }

  // ---------------------------------------------------------------- ranges

  /** An address as its library gives it: one word, or sixteen bytes from the most significant. */
  datatype Address = V4(word: nat) | V6(bytes: seq<nat>)

  predicate ValidAddress(a: Address) {
    match a
    case V4(word) => word < Pow2(32)
    case V6(bytes) => |bytes| == 16 && forall i :: 0 <= i < 16 ==> bytes[i] < Pow2(8)
  }

  datatype Range = Range(network: Address, prefix: nat)

  predicate ValidRange(r: Range) { ValidAddress(r.network) && r.prefix <= if r.network.V4? then 32 else 128 }

  function Mask(prefix: nat): nat
    requires prefix <= 32
  {
    if prefix == 0 then 0 else ShiftLeft(Pow2(32) - 1, 32 - prefix, 32)
  }

  /** `contains` and `cidr_contains`. */
  predicate Contains(r: Range, a: Address)
    requires ValidRange(r) && ValidAddress(a)
  {
    if r.network.V4? != a.V4? then false
    else if a.V4? then BitAnd(r.network.word, Mask(r.prefix)) == BitAnd(a.word, Mask(r.prefix))
    else
      var full, remaining := r.prefix / 8, r.prefix % 8;
      if r.network.bytes[..full] != a.bytes[..full] then false
      else if remaining == 0 then true
      else
        var mask := ShiftLeft(Pow2(8) - 1, 8 - remaining, 8);
        BitAnd(r.network.bytes[full], mask) == BitAnd(a.bytes[full], mask)
  }

  /** The number that bytes denote, the first being the most significant. */
  function Value(bytes: seq<nat>): nat {
    if bytes == [] then 0 else Value(bytes[..|bytes| - 1]) * 256 + bytes[|bytes| - 1]
  }

  /** The address as an integer, and how many bits it has. */
  function Number(a: Address): nat { if a.V4? then a.word else Value(a.bytes) }

  function Width(a: Address): nat { if a.V4? then 32 else 128 }

  lemma MaskTest(a: nat, b: nat, n: nat, k: nat, mask: nat)
    requires a < Pow2(n + k) && b < Pow2(n + k) && mask == HighOnes(n, k)
    ensures BitAnd(a, mask) == BitAnd(b, mask) <==> Leading(a, k) == Leading(b, k)
  {
    AndHighOnes(a, n, k);
    AndHighOnes(b, n, k);
    ClearedEqual(a, b, k);
  }

  lemma {:induction false} NoOnes(k: nat)
    ensures HighOnes(0, k) == 0
  {
    if k > 0 {
      NoOnes(k - 1);
    }
  }

  lemma WordTest(r: Range, a: Address)
    requires ValidRange(r) && ValidAddress(a) && r.network.V4? && a.V4?
    ensures Contains(r, a) <==> Leading(r.network.word, 32 - r.prefix) == Leading(a.word, 32 - r.prefix)
  {
    var k := 32 - r.prefix;
    ShiftedOnes(r.prefix, k);
    NoOnes(k);
    MaskTest(r.network.word, a.word, r.prefix, k, Mask(r.prefix));
  }

  // ---------------------------------------------------------------- bytes

  /** `v` followed by the `m` bits of `b`. */
  function Concat(v: nat, b: nat, m: nat): nat { if m == 0 then v else 2 * Concat(v, b / 2, m - 1) + b % 2 }

  lemma {:induction false} JoinEqual(v: nat, b: nat, w: nat, c: nat, m: nat)
    requires b < Pow2(m) && c < Pow2(m)
    ensures Concat(v, b, m) == Concat(w, c, m) <==> v == w && b == c
  {
    if m > 0 {
      JoinEqual(v, b / 2, w, c / 2, m - 1);
    }
  }

  lemma {:induction false} LeadingOfJoin(v: nat, b: nat, m: nat, j: nat)
    requires j <= m
    ensures Leading(Concat(v, b, m), j) == Concat(v, Leading(b, j), m - j)
  {
    if j > 0 {
      LeadingOfJoin(v, b / 2, m - 1, j - 1);
    }
  }

  lemma {:induction false} LeadingSmall(b: nat, m: nat, j: nat)
    requires b < Pow2(m) && j <= m
    ensures Leading(b, j) < Pow2(m - j)
  {
    if j > 0 {
      LeadingSmall(b / 2, m - 1, j - 1);
    }
  }

  lemma {:induction false} LeadingTwice(a: nat, j: nat, k: nat)
    ensures Leading(a, j + k) == Leading(Leading(a, j), k)
  {
    if j > 0 {
      LeadingTwice(a / 2, j - 1, k);
    }
  }

  lemma JoinTwo(v: nat, b: nat, m: nat)
    ensures Concat(v, b, m + 2) == 4 * Concat(v, b / 4, m) + b % 4
  {
    assert Concat(v, b, m + 2) == 2 * Concat(v, b / 2, m + 1) + b % 2;
    assert Concat(v, b / 2, m + 1) == 2 * Concat(v, b / 2 / 2, m) + b / 2 % 2;
  }

  lemma JoinFour(v: nat, b: nat, m: nat)
    ensures Concat(v, b, m + 4) == 16 * Concat(v, b / 16, m) + b % 16
  {
    JoinTwo(v, b, m + 2);
    JoinTwo(v, b / 4, m);
    Quarters(b);
  }

  lemma Quarters(b: nat)
    ensures b / 4 / 4 == b / 16 && 4 * (b / 4 % 4) + b % 4 == b % 16
  {
  }

  lemma JoinHalves(v: nat, b: nat, m: nat, n: nat)
    requires b < 256 && m == n + 4 && n == 4
    ensures Concat(v, b, m) == v * 256 + b
  {
    JoinFour(v, b, n);
    JoinFour(v, b / 16, 0);
    assert Concat(v, b / 16 / 16, 0) == v;
  }

  lemma JoinByte(v: nat, b: nat)
    requires b < 256
    ensures Concat(v, b, 8) == v * 256 + b
  {
    JoinHalves(v, b, 8, 4);
  }

  predicate Bytes(s: seq<nat>) { forall i :: 0 <= i < |s| ==> s[i] < 256 }

  lemma PowerOfByte()
    ensures Pow2(8) == 256
  {
    assert Pow2(4) == 16;
  }

  /** Numbers of the same length are equal exactly when their bytes are. */
  lemma {:induction false} ValueUnique(s: seq<nat>, t: seq<nat>)
    requires |s| == |t| && Bytes(s) && Bytes(t)
    ensures Value(s) == Value(t) <==> s == t
  {
    if s != [] {
      var n := |s| - 1;
      ValueUnique(s[..n], t[..n]);
      assert s == s[..n] + [s[n]] && t == t[..n] + [t[n]];
    }
  }

  /** Dropping whole bytes is dropping their bits. */
  lemma {:induction false} LeadingBytes(s: seq<nat>, m: nat, k: nat)
    requires m <= |s| && Bytes(s)
    ensures Leading(Value(s), 8 * m + k) == Leading(Value(s[..|s| - m]), k)
  {
    if m == 0 {
      assert s[..|s|] == s;
    } else {
      var n := |s| - 1;
      var v, b := Value(s[..n]), s[n];
      JoinByte(v, b);
      LeadingOfJoin(v, b, 8, 8);
      LeadingTwice(Value(s), 8, 8 * (m - 1) + k);
      LeadingBytes(s[..n], m - 1, k);
      assert s[..n][..n - (m - 1)] == s[..|s| - m];
    }
  }

  /** The leading bits that end inside a byte. */
  lemma PartBytes(s: seq<nat>, full: nat, remaining: nat, k: nat)
    requires Bytes(s) && 0 < remaining < 8 && full < |s| && k == 8 * (|s| - full) - remaining
    ensures Leading(Value(s), k) == Concat(Value(s[..full]), Leading(s[full], 8 - remaining), remaining)
    ensures Leading(s[full], 8 - remaining) < Pow2(remaining)
  {
    var m, j := |s| - full - 1, 8 - remaining;
    LeadingBytes(s, m, j);
    assert k == 8 * m + j && s[..|s| - m] == s[..full + 1];
    PartByte(s, full, j);
    PowerOfByte();
    LeadingSmall(s[full], 8, j);
  }

  lemma PartByte(s: seq<nat>, full: nat, j: nat)
    requires full < |s| && Bytes(s) && j <= 8
    ensures Leading(Value(s[..full + 1]), j) == Concat(Value(s[..full]), Leading(s[full], j), 8 - j)
  {
    assert s[..full + 1][..full] == s[..full];
    JoinByte(Value(s[..full]), s[full]);
    LeadingOfJoin(Value(s[..full]), s[full], 8, j);
  }

  /** The byte test compares the leading bits of the numbers. */
  lemma BytesTest(s: seq<nat>, t: seq<nat>, full: nat, remaining: nat, k: nat)
    requires |s| == |t| && Bytes(s) && Bytes(t) && 0 < remaining < 8 && full < |s|
    requires k == 8 * (|s| - full) - remaining
    ensures Leading(Value(s), k) == Leading(Value(t), k)
            <==> s[..full] == t[..full] && Leading(s[full], 8 - remaining) == Leading(t[full], 8 - remaining)
  {
    var j := 8 - remaining;
    PartBytes(s, full, remaining, k);
    PartBytes(t, full, remaining, k);
    JoinEqual(Value(s[..full]), Leading(s[full], j), Value(t[..full]), Leading(t[full], j), remaining);
    ValueUnique(s[..full], t[..full]);
  }

  lemma ByteMaskTest(b: nat, c: nat, remaining: nat)
    requires b < Pow2(8) && c < Pow2(8) && 0 < remaining < 8
    ensures var mask := ShiftLeft(Pow2(8) - 1, 8 - remaining, 8);
      BitAnd(b, mask) == BitAnd(c, mask) <==> Leading(b, 8 - remaining) == Leading(c, 8 - remaining)
  {
    ShiftedOnes(remaining, 8 - remaining);
    MaskTest(b, c, remaining, 8 - remaining, ShiftLeft(Pow2(8) - 1, 8 - remaining, 8));
  }

  lemma WholeBytes(s: seq<nat>, full: nat, k: nat)
    requires Bytes(s) && full <= |s| && k == 8 * (|s| - full)
    ensures Leading(Value(s), k) == Value(s[..full])
  {
    var m := |s| - full;
    LeadingBytes(s, m, 0);
    assert k == 8 * m + 0 && s[..|s| - m] == s[..full];
  }

  lemma WholeBytesTest(s: seq<nat>, t: seq<nat>, full: nat, k: nat)
    requires |s| == |t| && Bytes(s) && Bytes(t) && full <= |s| && k == 8 * (|s| - full)
    ensures Leading(Value(s), k) == Leading(Value(t), k) <==> s[..full] == t[..full]
  {
    WholeBytes(s, full, k);
    WholeBytes(t, full, k);
    ValueUnique(s[..full], t[..full]);
  }

  lemma SixteenBytesTest(r: Range, a: Address)
    requires ValidRange(r) && ValidAddress(a) && r.network.V6? && a.V6?
    ensures Contains(r, a) <==>
            Leading(Value(r.network.bytes), 128 - r.prefix) == Leading(Value(a.bytes), 128 - r.prefix)
  {
    var s, t := r.network.bytes, a.bytes;
    var full, remaining := r.prefix / 8, r.prefix % 8;
    PowerOfByte();
    assert 128 - r.prefix == 8 * (16 - full) - remaining;
    if remaining == 0 {
      WholeBytesTest(s, t, full, 128 - r.prefix);
    } else {
      BytesTest(s, t, full, remaining, 128 - r.prefix);
      ByteMaskTest(s[full], t[full], remaining);
    }
  }

  /** An address is in a range exactly when its leading bits are those of the network. */
  lemma ContainsIsPrefixMatch(r: Range, a: Address)
    requires ValidRange(r) && ValidAddress(a)
    ensures Contains(r, a) <==>
      && r.network.V4? == a.V4?
      && var k := Width(a) - r.prefix; Number(r.network) / Pow2(k) == Number(a) / Pow2(k)
  {
    if r.network.V4? == a.V4? {
      var k := Width(a) - r.prefix;
      LeadingIsQuotient(Number(r.network), k);
      LeadingIsQuotient(Number(a), k);
      if a.V4? {
        WordTest(r, a);
      } else {
        SixteenBytesTest(r, a);
      }
    }
  }
}

/** `ClientIpResolver::resolve`: whose request it is. */
module ClientIpResolver {
  import opened Options
  import opened Texts
  import opened AddressRanges

  /** `parse` is the library's address parser, applied to a trimmed text; it refuses the empty text. */
  type Parser = string -> Option<Address>

  datatype Header = Header(forwardedFor: bool, value: string)

  predicate ValidRanges(ranges: seq<Range>) { forall i :: 0 <= i < |ranges| ==> ValidRange(ranges[i]) }

  ghost predicate ParsesValid(parse: Parser) {
    forall text :: parse(text).Some? ==> ValidAddress(parse(text).value)
  }

  /** `is_trusted`: in one of the ranges. */
  method IsTrusted(ranges: seq<Range>, a: Address) returns (trusted: bool)
    requires ValidRanges(ranges) && ValidAddress(a)
    ensures trusted == Trusted(ranges, a)
  {
    var i := 0;
    while i < |ranges|
      invariant 0 <= i <= |ranges| && forall j :: 0 <= j < i ==> !Contains(ranges[j], a)
    {
      if Contains(ranges[i], a) {
        return true;
      }
      i := i + 1;
    }
    return false;
  }

  predicate Trusted(ranges: seq<Range>, a: Address)
    requires ValidRanges(ranges) && ValidAddress(a)
  {
    exists i :: 0 <= i < |ranges| && Contains(ranges[i], a)
  }

  // ---------------------------------------------------------------- the chain of a forwarded-for header

  /** The comma-separated entries. */
  function Entries(value: string): seq<string> { Split(value, ',') }

  /** The addresses of the first `n` texts, or nothing if one of them is not an address. */
  function Parsed(parse: Parser, texts: seq<string>, n: nat): Option<seq<Address>>
    requires n <= |texts|
  {
    if n == 0 then Some([])
    else
      var before, last := Parsed(parse, texts, n - 1), parse(texts[n - 1]);
      if before.None? || last.None? then None else Some(before.value + [last.value])
  }

  function AllParsed(parse: Parser, value: string): Option<seq<Address>> {
    Parsed(parse, Entries(value), |Entries(value)|)
  }

  function Least(m: nat, n: nat): nat { if m < n then m else n }

  /** The addresses of the first 64 entries, or none if one of them is not an address. */
  function Chain(parse: Parser, value: string): seq<Address> {
    var parsed := Parsed(parse, Entries(value), Least(64, |Entries(value)|));
    if parsed.None? then [] else parsed.value
  }

  ghost predicate ValidChain(chain: seq<Address>) { forall i :: 0 <= i < |chain| ==> ValidAddress(chain[i]) }

  /** From the peer leftwards, as long as the address at hand is trusted. */
  function Walk(ranges: seq<Range>, chain: seq<Address>, current: Address): Address
    requires ValidRanges(ranges) && ValidAddress(current) && ValidChain(chain)
  {
    if chain == [] || !Trusted(ranges, current) then current
    else Walk(ranges, chain[..|chain| - 1], chain[|chain| - 1])
  }

  /** `all[i]` is the rightmost address that is not trusted, or the leftmost if there is none. */
  ghost predicate RightmostUntrusted(ranges: seq<Range>, all: seq<Address>, i: nat)
    requires ValidRanges(ranges) && ValidChain(all)
  {
    && i < |all|
    && (forall j :: i < j < |all| ==> Trusted(ranges, all[j]))
    && (i > 0 ==> !Trusted(ranges, all[i]))
  }

  /** The walk returns the rightmost untrusted address of chain and peer, or the leftmost if all are trusted. */
  lemma {:induction false} WalkIsRightmostUntrusted(ranges: seq<Range>, chain: seq<Address>, peer: Address, i: nat)
    requires ValidRanges(ranges) && ValidAddress(peer) && ValidChain(chain)
    requires RightmostUntrusted(ranges, chain + [peer], i)
    ensures Walk(ranges, chain, peer) == (chain + [peer])[i]
    decreases |chain|
  {
    var all, n := chain + [peer], |chain|;
    if i < n {
      assert all[n] == peer && Trusted(ranges, all[n]);
      assert chain[..n - 1] + [chain[n - 1]] == chain;
      assert forall j :: 0 <= j < n ==> all[j] == chain[j];
      WalkIsRightmostUntrusted(ranges, chain[..n - 1], chain[n - 1], i);
    }
  }

  lemma {:induction false} RightmostExists(ranges: seq<Range>, all: seq<Address>) returns (i: nat)
    requires ValidRanges(ranges) && ValidChain(all) && all != []
    ensures RightmostUntrusted(ranges, all, i)
  {
    var n := |all| - 1;
    if n == 0 || !Trusted(ranges, all[n]) {
      i := n;
    } else {
      i := RightmostExists(ranges, all[..n]);
    }
  }

  /** In a chain, what is to the left of an untrusted address has no influence. */
  lemma {:induction false} LeftOfChainIsIgnored(
    ranges: seq<Range>, left: seq<Address>, chain: seq<Address>, peer: Address, k: nat)
    requires ValidRanges(ranges) && ValidAddress(peer) && ValidChain(left) && ValidChain(chain)
    requires k <= |chain| && !Trusted(ranges, (chain + [peer])[k])
    ensures Walk(ranges, left + chain, peer) == Walk(ranges, chain, peer)
    decreases |chain|
  {
    var n := |chain|;
    if k < n {
      var shorter, last := chain[..n - 1], chain[n - 1];
      assert (shorter + [last])[k] == chain[k] == (chain + [peer])[k];
      LeftOfChainIsIgnored(ranges, left, shorter, last, k);
      assert (left + chain)[..|left + chain| - 1] == left + shorter;
    }
  }

  // ---------------------------------------------------------------- the methods

  lemma {:induction false} ParsedAreValid(parse: Parser, texts: seq<string>, n: nat)
    requires ParsesValid(parse) && n <= |texts|
    ensures Parsed(parse, texts, n).Some? ==>
      ValidChain(Parsed(parse, texts, n).value) && |Parsed(parse, texts, n).value| == n
  {
    if n > 0 {
      ParsedAreValid(parse, texts, n - 1);
    }
  }

  lemma ChainIsValid(parse: Parser, value: string)
    requires ParsesValid(parse)
    ensures ValidChain(Chain(parse, value))
  {
    ParsedAreValid(parse, Entries(value), Least(64, |Entries(value)|));
  }

  lemma {:induction false} BadEntry(parse: Parser, texts: seq<string>, i: nat, n: nat)
    requires i < n <= |texts| && parse(texts[i]).None?
    ensures Parsed(parse, texts, n).None?
  {
    if i < n - 1 {
      BadEntry(parse, texts, i, n - 1);
    }
  }

  lemma NextEntry(entries: seq<string>, m: nat, text: string, rest: seq<string>)
    requires m <= |entries| && entries[m..] == [text] + rest
    ensures m < |entries| && entries[m] == text && entries[m + 1..] == rest
  {
    assert entries[m..][0] == text;
    assert entries[m + 1..] == entries[m..][1..];
  }

  /** The entries before `start` are parsed. */
  ghost predicate Progress(parse: Parser, value: string, start: nat, chain: seq<Address>) {
    && |chain| <= |Entries(value)|
    && Entries(value)[|chain|..] == SplitFrom(value, ',', start)
    && Parsed(parse, Entries(value), |chain|) == Some(chain)
  }

  lemma ParseStarts(parse: Parser, value: string)
    ensures Progress(parse, value, 0, [])
  {
    assert Entries(value)[0..] == Entries(value);
  }

  lemma ParseGoesOn(parse: Parser, value: string, start: nat, chain: seq<Address>, limit: nat)
    requires start <= |value| && Progress(parse, value, start, chain) && |chain| < limit
    ensures var end := IndexFrom(value, ',', start);
      var parsed := parse(value[start..end]);
      && (parsed.None? ==> Parsed(parse, Entries(value), Least(limit, |Entries(value)|)).None?)
      && (parsed.Some? ==> Progress(parse, value, end + 1, chain + [parsed.value]))
  {
    var end, entries := IndexFrom(value, ',', start), Entries(value);
    SplitFromStep(value, ',', start, end);
    NextEntry(entries, |chain|, value[start..end], SplitFrom(value, ',', end + 1));
    if parse(value[start..end]).None? {
      BadEntry(parse, entries, |chain|, Least(limit, |entries|));
    }
  }

  /** The addresses of the first `n` entries from position `start` on. */
  function ParseFrom(parse: Parser, value: string, start: nat, n: nat): Option<seq<Address>>
    decreases n
  {
    if start > |value| || n == 0 then Some([])
    else
      var end := IndexFrom(value, ',', start);
      var first := parse(value[start..end]);
      if first.None? then None else After([first.value], ParseFrom(parse, value, end + 1, n - 1))
  }

  /** What was parsed before, and then the rest. */
  function After(done: seq<Address>, rest: Option<seq<Address>>): Option<seq<Address>> {
    if rest.None? then None else Some(done + rest.value)
  }

  lemma AfterOne(done: seq<Address>, a: Address, rest: Option<seq<Address>>)
    ensures After(done, After([a], rest)) == After(done + [a], rest)
  {
    if rest.Some? {
      assert done + ([a] + rest.value) == done + [a] + rest.value;
    }
  }

  lemma AfterNothing(done: seq<Address>, rest: Option<seq<Address>>)
    ensures After([], rest) == rest && After(done, Some([])) == Some(done)
  {
    if rest.Some? {
      assert [] + rest.value == rest.value;
    }
    assert done + [] == done;
  }

  /** The loop over positions parses the entries in order. */
  lemma {:induction false} ParseFromIsParsed(
    parse: Parser, value: string, start: nat, chain: seq<Address>, n: nat, limit: nat)
    requires Progress(parse, value, start, chain) && limit == |chain| + n
    ensures Parsed(parse, Entries(value), Least(limit, |Entries(value)|)) ==
            After(chain, ParseFrom(parse, value, start, n))
    decreases n
  {
    AfterNothing(chain, None);
    if start <= |value| && n > 0 {
      var end := IndexFrom(value, ',', start);
      var parsed := parse(value[start..end]);
      ParseGoesOn(parse, value, start, chain, limit);
      if parsed.Some? {
        ParseFromIsParsed(parse, value, end + 1, chain + [parsed.value], n - 1, limit);
        AfterOne(chain, parsed.value, ParseFrom(parse, value, end + 1, n - 1));
      }
    } else if start > |value| {
      assert Entries(value)[|chain|..] == [];
    }
  }

  /** The parsing loop: nothing if one of the first `limit` entries is not an address. */
  method ParseEntries(parse: Parser, value: string, limit: nat) returns (chain: Option<seq<Address>>)
    ensures chain == ParseFrom(parse, value, 0, limit)
  {
    var done: seq<Address> := [];
    var start := 0;
    AfterNothing(done, ParseFrom(parse, value, 0, limit));
    while start <= |value| && |done| < limit
      invariant start <= |value| + 1 && |done| <= limit
      invariant ParseFrom(parse, value, 0, limit) == After(done, ParseFrom(parse, value, start, limit - |done|))
      decreases |value| + 1 - start
    {
      var end := IndexFrom(value, ',', start);
      var parsed := parse(value[start..end]);
      if parsed.None? {
        return None;
      }
      AfterOne(done, parsed.value, ParseFrom(parse, value, end + 1, limit - |done| - 1));
      done := done + [parsed.value];
      start := end + 1;
    }
    AfterNothing(done, None);
    chain := Some(done);
  }

  method ParseChain(parse: Parser, value: string) returns (chain: seq<Address>)
    requires ParsesValid(parse)
    ensures chain == Chain(parse, value) && ValidChain(chain)
  {
    var parsed := ParseEntries(parse, value, 64);
    ParsedChain(parse, value, 64);
    ChainIsValid(parse, value);
    chain := if parsed.None? then [] else parsed.value;
  }

  lemma ParsedChain(parse: Parser, value: string, limit: nat)
    ensures ParseFrom(parse, value, 0, limit) == Parsed(parse, Entries(value), Least(limit, |Entries(value)|))
  {
    ParseStarts(parse, value);
    ParseFromIsParsed(parse, value, 0, [], limit, limit);
    AfterNothing([], ParseFrom(parse, value, 0, limit));
  }

  /** The walk over the parsed chain. */
  method FindClient(ranges: seq<Range>, chain: seq<Address>, peer: Address) returns (client: Address)
    requires ValidRanges(ranges) && ValidAddress(peer) && ValidChain(chain)
    ensures client == Walk(ranges, chain, peer)
  {
    client := peer;
    var i := |chain|;
    assert chain[..i] == chain;
    while i > 0
      invariant 0 <= i <= |chain| && ValidAddress(client)
      invariant Walk(ranges, chain, peer) == Walk(ranges, chain[..i], client)
    {
      var trusted := IsTrusted(ranges, client);
      if !trusted {
        return;
      }
      assert chain[..i][..i - 1] == chain[..i - 1];
      i := i - 1;
      client := chain[i];
    }
  }

  /** What the first header that says something says, if the peer may be believed. */
  function FromHeaders(ranges: seq<Range>, parse: Parser, peer: Address, headers: seq<Header>): Address
    requires ValidRanges(ranges) && ValidAddress(peer) && ParsesValid(parse)
  {
    if headers == [] then peer
    else
      var rest := FromHeaders(ranges, parse, peer, headers[1..]);
      if headers[0].value == [] then rest
      else if headers[0].forwardedFor then
        var chain := Chain(parse, headers[0].value);
        ChainIsValid(parse, headers[0].value);
        if chain == [] then rest else Walk(ranges, chain, peer)
      else
        var single := parse(headers[0].value);
        if single.Some? then single.value else rest
  }

  method Resolve(ranges: seq<Range>, parse: Parser, peer: Address, headers: seq<Header>) returns (client: Address)
    requires ValidRanges(ranges) && ValidAddress(peer) && ParsesValid(parse)
    ensures client == if Trusted(ranges, peer) then FromHeaders(ranges, parse, peer, headers) else peer
  {
    var trusted := IsTrusted(ranges, peer);
    if !trusted {
      return peer;
    }
    var i := 0;
    while i < |headers|
      invariant 0 <= i <= |headers|
      invariant FromHeaders(ranges, parse, peer, headers) == FromHeaders(ranges, parse, peer, headers[i..])
    {
      assert headers[i..][1..] == headers[i + 1..];
      if headers[i].value != [] {
        if headers[i].forwardedFor {
          var chain := ParseChain(parse, headers[i].value);
          var found := FindClient(ranges, chain, peer);
          if chain != [] {
            return found;
          }
        } else {
          var single := parse(headers[i].value);
          if single.Some? {
            return single.value;
          }
        }
      }
      i := i + 1;
    }
    return peer;
  }

  // ---------------------------------------------------------------- which header decides

  /** The header is not empty and what it says is an address, or a list of addresses as far as it is looked at. */
  ghost predicate Says(parse: Parser, h: Header) {
    && h.value != []
    && if h.forwardedFor then forall i :: 0 <= i < |Entries(h.value)| && i < 64 ==> parse(Entries(h.value)[i]).Some?
       else parse(h.value).Some?
  }

  lemma {:induction false} ParsedIff(parse: Parser, texts: seq<string>, n: nat)
    requires n <= |texts|
    ensures Parsed(parse, texts, n).Some? <==> forall i :: 0 <= i < n ==> parse(texts[i]).Some?
    ensures Parsed(parse, texts, n).Some? ==>
      |Parsed(parse, texts, n).value| == n
      && forall i :: 0 <= i < n ==> Some(Parsed(parse, texts, n).value[i]) == parse(texts[i])
  {
    if n > 0 {
      ParsedIff(parse, texts, n - 1);
    }
  }

  lemma ChainSays(parse: Parser, h: Header)
    requires h.forwardedFor && h.value != []
    ensures Says(parse, h) <==> Chain(parse, h.value) != []
    ensures Says(parse, h) ==>
      && |Chain(parse, h.value)| == Least(64, |Entries(h.value)|)
      && forall i :: 0 <= i < |Chain(parse, h.value)| ==> Some(Chain(parse, h.value)[i]) == parse(Entries(h.value)[i])
  {
    ParsedIff(parse, Entries(h.value), Least(64, |Entries(h.value)|));
  }

  /** The first header that says something decides: a single address is the answer, and a list is walked. */
  lemma {:induction false} FirstHeaderDecides(
    ranges: seq<Range>, parse: Parser, peer: Address, headers: seq<Header>, i: nat)
    requires ValidRanges(ranges) && ValidAddress(peer) && ParsesValid(parse)
    requires i < |headers| && Says(parse, headers[i]) && forall j :: 0 <= j < i ==> !Says(parse, headers[j])
    ensures var answer := FromHeaders(ranges, parse, peer, headers);
      if headers[i].forwardedFor then IsRightmost(ranges, Chain(parse, headers[i].value), peer, answer)
      else Some(answer) == parse(headers[i].value)
  {
    if headers[0].forwardedFor && headers[0].value != [] {
      ChainSays(parse, headers[0]);
    }
    if i > 0 {
      FirstHeaderDecides(ranges, parse, peer, headers[1..], i - 1);
    } else if headers[0].forwardedFor {
      ChainIsValid(parse, headers[0].value);
      RightmostIffWalked(ranges, Chain(parse, headers[0].value), peer, FromHeaders(ranges, parse, peer, headers));
    }
  }

  /** If no header says anything, the peer is the client. */
  lemma {:induction false} NoHeaderDecides(ranges: seq<Range>, parse: Parser, peer: Address, headers: seq<Header>)
    requires ValidRanges(ranges) && ValidAddress(peer) && ParsesValid(parse)
    requires forall h :: h in headers ==> !Says(parse, h)
    ensures FromHeaders(ranges, parse, peer, headers) == peer
  {
    if headers != [] {
      assert headers[0] in headers;
      if headers[0].forwardedFor && headers[0].value != [] {
        ChainSays(parse, headers[0]);
      }
      NoHeaderDecides(ranges, parse, peer, headers[1..]);
    }
  }

  // ---------------------------------------------------------------- whose entries decide

  /** The answer to a request with one forwarded-for header from a trusted peer. */
  function Answer(ranges: seq<Range>, parse: Parser, peer: Address, value: string): Address
    requires ValidRanges(ranges) && ValidAddress(peer) && ParsesValid(parse)
  {
    FromHeaders(ranges, parse, peer, [Header(true, value)])
  }

  lemma AnswerWalks(ranges: seq<Range>, parse: Parser, peer: Address, value: string)
    requires ValidRanges(ranges) && ValidAddress(peer) && ParsesValid(parse) && value != []
    ensures var chain := Chain(parse, value);
      ValidChain(chain) && Answer(ranges, parse, peer, value) == if chain == [] then peer else Walk(ranges, chain, peer)
  {
    ChainIsValid(parse, value);
    var headers := [Header(true, value)];
    assert headers[1..] == [] && FromHeaders(ranges, parse, peer, headers[1..]) == peer;
    assert headers[0].value == value && headers[0].forwardedFor;
  }

  /** `a` is the rightmost untrusted address of the chain and the peer, or the leftmost if there is none. */
  ghost predicate IsRightmost(ranges: seq<Range>, chain: seq<Address>, peer: Address, a: Address)
    requires ValidRanges(ranges) && ValidAddress(peer)
  {
    ValidChain(chain) ==>
      exists i: nat :: RightmostUntrusted(ranges, chain + [peer], i) && (chain + [peer])[i] == a
  }

  lemma RightmostIffWalked(ranges: seq<Range>, chain: seq<Address>, peer: Address, a: Address)
    requires ValidRanges(ranges) && ValidAddress(peer) && ValidChain(chain)
    ensures IsRightmost(ranges, chain, peer, a) <==> a == Walk(ranges, chain, peer)
  {
    var i := RightmostExists(ranges, chain + [peer]);
    WalkIsRightmostUntrusted(ranges, chain, peer, i);
    if IsRightmost(ranges, chain, peer, a) {
      var j: nat :| RightmostUntrusted(ranges, chain + [peer], j) && (chain + [peer])[j] == a;
      WalkIsRightmostUntrusted(ranges, chain, peer, j);
    }
  }

  /** If all entries are addresses, the answer is the rightmost untrusted one of all entries and the peer. */
  ghost predicate AnswerIsRight(ranges: seq<Range>, parse: Parser, peer: Address, value: string)
    requires ValidRanges(ranges) && ValidAddress(peer) && ParsesValid(parse)
  {
    value != [] && AllParsed(parse, value).Some? ==>
      IsRightmost(ranges, AllParsed(parse, value).value, peer, Answer(ranges, parse, peer, value))
  }

  lemma FewEntriesAreRight(ranges: seq<Range>, parse: Parser, peer: Address, value: string)
    requires ValidRanges(ranges) && ValidAddress(peer) && ParsesValid(parse) && |Entries(value)| <= 64
    ensures AnswerIsRight(ranges, parse, peer, value)
  {
    if value != [] && AllParsed(parse, value).Some? {
      AnswerWalks(ranges, parse, peer, value);
      ParsedAreValid(parse, Entries(value), |Entries(value)|);
      RightmostIffWalked(ranges, Chain(parse, value), peer, Answer(ranges, parse, peer, value));
    }
  }

  /** Two texts that are addresses of different hosts, neither of them a trusted proxy. */
  predicate Forgeable(ranges: seq<Range>, parse: Parser, forged: string, genuine: string)
    requires ValidRanges(ranges)
  {
    && ',' !in forged && ',' !in genuine && parse(forged).Some? && parse(genuine).Some?
    && ValidAddress(parse(forged).value) && ValidAddress(parse(genuine).value)
    && !Trusted(ranges, parse(forged).value) && !Trusted(ranges, parse(genuine).value)
    && parse(forged) != parse(genuine)
  }

  /** 64 entries of the client, and then those that proxies appended. */
  function Forgery(forged: string, genuine: string, n: nat): seq<string>
    requires n > 64
  {
    seq(n, i => if i < 64 then forged else genuine)
  }

  lemma {:induction false} ParseEach(parse: Parser, texts: seq<string>, n: nat)
    requires n <= |texts| && forall i :: 0 <= i < n ==> parse(texts[i]).Some?
    ensures Parsed(parse, texts, n).Some? && |Parsed(parse, texts, n).value| == n
    ensures n > 0 ==> Parsed(parse, texts, n).value[n - 1] == parse(texts[n - 1]).value
  {
    if n > 0 {
      ParseEach(parse, texts, n - 1);
    }
  }

  /** The walk stops at once at an untrusted last entry. */
  lemma LastEntryDecides(ranges: seq<Range>, chain: seq<Address>, peer: Address)
    requires ValidRanges(ranges) && ValidAddress(peer) && ValidChain(chain) && chain != [] && Trusted(ranges, peer)
    requires !Trusted(ranges, chain[|chain| - 1])
    ensures Walk(ranges, chain, peer) == chain[|chain| - 1]
  {
  }

  lemma ForgeryParses(ranges: seq<Range>, parse: Parser, forged: string, genuine: string, n: nat)
    requires ValidRanges(ranges) && ParsesValid(parse) && Forgeable(ranges, parse, forged, genuine) && n > 64
    ensures var value := Join(Forgery(forged, genuine, n), ',');
      && value != [] && Entries(value) == Forgery(forged, genuine, n)
      && AllParsed(parse, value).Some? && |AllParsed(parse, value).value| == n
      && AllParsed(parse, value).value[n - 1] == parse(genuine).value
      && |Chain(parse, value)| == 64 && Chain(parse, value)[63] == parse(forged).value
  {
    var texts := Forgery(forged, genuine, n);
    SplitOfJoin(texts, ',');
    ParseEach(parse, texts, n);
    ParseEach(parse, texts, 64);
  }

  /** With more than 64 entries it is the 64th that decides, whatever the proxies appended. */
  lemma ForgedEntriesDecide(
    ranges: seq<Range>, parse: Parser, peer: Address, forged: string, genuine: string, n: nat)
    requires ValidRanges(ranges) && ValidAddress(peer) && ParsesValid(parse) && Trusted(ranges, peer)
    requires Forgeable(ranges, parse, forged, genuine) && n > 64
    ensures var value := Join(Forgery(forged, genuine, n), ',');
      && |Entries(value)| == n && Answer(ranges, parse, peer, value) == parse(forged).value
      && !AnswerIsRight(ranges, parse, peer, value)
  {
    var value := Join(Forgery(forged, genuine, n), ',');
    ForgeryParses(ranges, parse, forged, genuine, n);
    AnswerWalks(ranges, parse, peer, value);
    LastEntryDecides(ranges, Chain(parse, value), peer);
    var all := AllParsed(parse, value).value;
    ParsedAreValid(parse, Entries(value), n);
    LastEntryDecides(ranges, all, peer);
    RightmostIffWalked(ranges, all, peer, Answer(ranges, parse, peer, value));
  }

  /** Headers of `n` entries are answered rightly, whatever they say, if and only if there are at most 64 entries. */
  lemma AnswerIsRightIff(ranges: seq<Range>, parse: Parser, peer: Address, forged: string, genuine: string, n: nat)
    requires ValidRanges(ranges) && ValidAddress(peer) && ParsesValid(parse) && Trusted(ranges, peer)
    requires Forgeable(ranges, parse, forged, genuine)
    ensures (forall value :: |Entries(value)| == n ==> AnswerIsRight(ranges, parse, peer, value)) <==> n <= 64
  {
    if n <= 64 {
      forall value | |Entries(value)| == n ensures AnswerIsRight(ranges, parse, peer, value) {
        FewEntriesAreRight(ranges, parse, peer, value);
      }
    } else {
      ForgedEntriesDecide(ranges, parse, peer, forged, genuine, n);
    }
  }
}
