/** The base64 codec: encoding with optional line breaks, the tolerant decoder, and the URL alphabet.

    Section 4 of RFC 4648 for the alphabet and padding, section 5 for the URL alphabet, and
    section 6.8 of RFC 2045 for lines of 76 characters.  Octets are integers below 256; shifts
    and masks are division and remainder, and an `or` of disjoint bits is a sum.  Allocation
    succeeds. */
module Base64 {
  import opened Bytes

  type Sextet = x: int | 0 <= x < 64

  datatype Option<T> = None | Some(value: T)

  const PAD: byte := 61

  // ---------------------------------------------------------------- alphabet

  function EncodeSextet(s: Sextet): (c: byte) {
    if s < 26 then 65 + s else if s < 52 then 71 + s else if s < 62 then s - 4 else if s == 62 then 43 else 47
  }

  // 255 marks characters outside the alphabet.
  function DecodeChar(c: byte): (s: byte)
    ensures s < 64 || s == 255
  {
    if 65 <= c <= 90 then c - 65 else if 97 <= c <= 122 then c - 71 else if 48 <= c <= 57 then c + 4
    else if c == 43 then 62 else if c == 47 then 63 else 255
  }

  predicate IsSpace(c: byte) { c == 10 || c == 13 || c == 32 || c == 9 }

  /** The two tables are inverse to each other, and no sextet encodes to a space or to the padding. */
  lemma AlphabetRoundTrip(s: Sextet)
    ensures DecodeChar(EncodeSextet(s)) == s && !IsSpace(EncodeSextet(s)) && EncodeSextet(s) != PAD
    ensures forall c: byte :: DecodeChar(c) == s ==> EncodeSextet(s) == c
  {
  }

  // The alphabet of section 4 of RFC 4648, in the order of the sextets.
  const ALPHABET := "ABCDEFGHIJKLMNOPQRSTUVWXYZ" + "abcdefghijklmnopqrstuvwxyz" + "0123456789+/"

  /** The encoding table is the standard alphabet. */
  lemma EncodeSextetIsAlphabet(s: Sextet)
    ensures |ALPHABET| == 64 && EncodeSextet(s) == ALPHABET[s] as int
  {
    if s < 26 { assert ALPHABET[s] == "ABCDEFGHIJKLMNOPQRSTUVWXYZ"[s]; }
    else if s < 52 { assert ALPHABET[s] == "abcdefghijklmnopqrstuvwxyz"[s - 26]; }
    else { assert ALPHABET[s] == "0123456789+/"[s - 52]; }
  }

  /** The decoding table gives each character its position in the standard alphabet, and 255 to all others. */
  lemma DecodeCharIsPosition(c: byte, s: Sextet)
    ensures |ALPHABET| == 64 && (DecodeChar(c) == s <==> ALPHABET[s] as int == c)
    ensures DecodeChar(c) == 255 <==> forall i: Sextet :: ALPHABET[i] as int != c
  {
    EncodeSextetIsAlphabet(s);
    AlphabetRoundTrip(s);
    if DecodeChar(c) == 255 {
      forall i: Sextet ensures ALPHABET[i] as int != c { EncodeSextetIsAlphabet(i); AlphabetRoundTrip(i); }
    } else {
      EncodeSextetIsAlphabet(DecodeChar(c));
    }
  }

  /** White space is the tab, the line feed, the carriage return and the blank. */
  lemma SpacesAre(c: byte)
    ensures IsSpace(c) <==> c as char in "\t\n\r "
  {
  }

  // ---------------------------------------------------------------- encoding

  function Groups(n: nat): nat { (n + 2) / 3 }

  function Pads(n: nat): nat { if n % 3 == 1 then 2 else if n % 3 == 2 then 1 else 0 }

  function At(x: seq<byte>, i: nat): byte { if i < |x| then x[i] else 0 }

  /** Twenty-four bits, in fours of six. */
  function Split(a: byte, b: byte, c: byte): (s: seq<Sextet>)
    ensures |s| == 4
  {
    [a / 4, a % 4 * 16 + b / 16, b % 16 * 4 + c / 64, c % 64]
  }

  function Chars(sx: seq<Sextet>): seq<byte> { seq(|sx|, i requires 0 <= i < |sx| => EncodeSextet(sx[i])) }

  // The octets of group k; those past the end count as 0.
  function GroupSextets(x: seq<byte>, k: nat): (s: seq<Sextet>)
    ensures |s| == 4
  {
    Split(At(x, 3 * k), At(x, 3 * k + 1), At(x, 3 * k + 2))
  }

  /** The four characters of group k. */
  function Quad(x: seq<byte>, k: nat): (q: seq<byte>)
    ensures |q| == 4
  {
    Chars(GroupSextets(x, k))
  }

  // The line break after every nineteenth group.
  function Line(k: nat, breaks: bool): seq<byte> { if breaks && k % 19 == 0 then [13, 10] else [] }

  /** The first k groups, with their line breaks. */
  function Text(x: seq<byte>, k: nat, breaks: bool): seq<byte> {
    if k == 0 then [] else Text(x, k - 1, breaks) + Quad(x, k - 1) + Line(k, breaks)
  }

  function Equals(n: nat): seq<byte> { seq(n, _ => PAD) }

  // Padding replaces the last characters, whatever they are.
  function Padded(text: seq<byte>, n: nat): seq<byte>
    requires n <= |text|
  {
    text[..|text| - n] + Equals(n)
  }

  lemma {:induction false} TextLength(x: seq<byte>, k: nat, breaks: bool)
    ensures |Text(x, k, breaks)| == 4 * k + (if breaks then k / 19 * 2 else 0)
  {
    if k > 0 { TextLength(x, k - 1, breaks); }
  }

  /** What encoding produces. */
  function Encoded(x: seq<byte>, breaks: bool): seq<byte> {
    TextLength(x, Groups(|x|), breaks);
    Padded(Text(x, Groups(|x|), breaks), Pads(|x|))
  }

  function OutputLength(n: nat, breaks: bool): nat {
    var len := 4 * ((n + 2) / 3);
    if breaks then len + len / 76 * 2 else len
  }

  // The loop fills exactly the length computed beforehand.
  lemma FillsOutput(x: seq<byte>, k: nat, breaks: bool)
    requires k <= Groups(|x|)
    ensures |Text(x, k, breaks)| <= OutputLength(|x|, breaks)
    ensures |Text(x, Groups(|x|), breaks)| == OutputLength(|x|, breaks)
  {
    TextLength(x, k, breaks);
    TextLength(x, Groups(|x|), breaks);
    LineArithmetic(k, Groups(|x|));
  }

  lemma LineArithmetic(k: nat, g: nat)
    requires k <= g
    ensures 4 * g / 76 == g / 19 && k / 19 <= g / 19
  {
  }

  // Group k as one number of 24 bits.
  function Octets(x: seq<byte>, k: nat): nat { At(x, 3 * k) * 65536 + At(x, 3 * k + 1) * 256 + At(x, 3 * k + 2) }

  /** Character number p of the output: padding at the very end, else a line break after every 76 characters, else the
      next six bits of the octets in the standard alphabet. */
  function Character(x: seq<byte>, breaks: bool, p: nat): char {
    if p + Pads(|x|) >= OutputLength(|x|, breaks) then '='
    else if breaks && p % 78 == 76 then '\r'
    else if breaks && p % 78 == 77 then '\n'
    else
      var v := SixBits(x, if breaks then p / 78 * 76 + p % 78 else p);
      EncodeSextetIsAlphabet(v);
      ALPHABET[v]
  }

  // The value of the n-th six bits.
  function SixBits(x: seq<byte>, n: nat): Sextet { Digit64(Octets(x, n / 4), n % 4) }

  // The i-th of four digits to the base 64, the highest first.
  function Digit64(t: nat, i: nat): Sextet {
    if i == 0 then t / 262144 % 64 else if i == 1 then t / 4096 % 64 else if i == 2 then t / 64 % 64 else t % 64
  }

  lemma GroupByIndex(x: seq<byte>, k: nat, i: nat)
    requires i < 4
    ensures GroupSextets(x, k)[i] == SixBits(x, 4 * k + i)
  {
    Quotient(k, 4, i);
    SplitByIndex(At(x, 3 * k), At(x, 3 * k + 1), At(x, 3 * k + 2), i);
  }

  lemma SplitByIndex(a: byte, b: byte, c: byte, i: nat)
    requires i < 4
    ensures Split(a, b, c)[i] == Digit64(a * 65536 + b * 256 + c, i)
  {
    SextetArithmetic(a, b, c);
  }

  lemma Quotient(q: nat, d: nat, r: nat)
    requires r < d
    ensures (q * d + r) / d == q && (q * d + r) % d == r
  {
    Multiple((q * d + r) / d - q, d);
  }

  // The text before padding, character by character.
  function TextAt(x: seq<byte>, breaks: bool, p: nat): byte {
    if breaks && p % 78 == 76 then 13 else if breaks && p % 78 == 77 then 10
    else EncodeSextet(SixBits(x, if breaks then p / 78 * 76 + p % 78 else p))
  }

  lemma QuadAt(x: seq<byte>, k: nat, breaks: bool, i: nat)
    requires i < 4
    ensures Quad(x, k)[i] == TextAt(x, breaks, 4 * k + (if breaks then k / 19 * 2 else 0) + i)
  {
    QuadPlace(k, i);
    GroupByIndex(x, k, i);
  }

  // Where group k and the line break after it are.
  lemma QuadPlace(k: nat, i: nat)
    requires i < 4
    ensures var p := 4 * k + k / 19 * 2 + i; p % 78 < 76 && p / 78 * 76 + p % 78 == 4 * k + i
  {
    Quotient(k / 19, 78, 4 * (k % 19) + i);
  }

  lemma BreakPlace(k: nat, i: nat)
    requires k > 0 && k % 19 == 0 && i < 2
    ensures (4 * k + (k - 1) / 19 * 2 + i) % 78 == 76 + i
  {
    var l := k / 19 - 1;
    Quotient(l, 19, 18);
    Quotient(l, 78, 76 + i);
  }

  lemma {:induction false} TextByIndex(x: seq<byte>, k: nat, breaks: bool, p: nat)
    requires p < |Text(x, k, breaks)|
    ensures Text(x, k, breaks)[p] == TextAt(x, breaks, p)
  {
    TextLength(x, k - 1, breaks);
    var n := |Text(x, k - 1, breaks)|;
    if p < n { TextByIndex(x, k - 1, breaks, p); }
    else if p < n + 4 { QuadAt(x, k - 1, breaks, p - n); }
    else { BreakPlace(k, p - n - 4); }
  }

  /** What encoding produces, character by character. */
  lemma EncodedByIndex(x: seq<byte>, breaks: bool, p: nat)
    requires p < |Encoded(x, breaks)|
    ensures Encoded(x, breaks)[p] == Character(x, breaks, p) as int
  {
    FillsOutput(x, 0, breaks);
    if p + Pads(|x|) < |Encoded(x, breaks)| {
      TextByIndex(x, Groups(|x|), breaks, p);
      EncodeSextetIsAlphabet(SixBits(x, if breaks then p / 78 * 76 + p % 78 else p));
    }
  }

  // The groups advance with the input.
  lemma NextGroup(n: nat, k: nat)
    requires 3 * k < n
    ensures k < Groups(n) && (3 * k + 3 >= n <==> k + 1 == Groups(n))
  {
  }

  lemma QuadIs(x: seq<byte>, k: nat, t: nat)
    requires t == Octets(x, k)
    ensures Quad(x, k) == [EncodeSextet(t / 262144 % 64), EncodeSextet(t / 4096 % 64), EncodeSextet(t / 64 % 64),
            EncodeSextet(t % 64)]
  {
    SextetArithmetic(At(x, 3 * k), At(x, 3 * k + 1), At(x, 3 * k + 2));
  }

  method PutGroup(out: array<byte>, j: nat, x: seq<byte>, i: nat, ghost k: nat)
    requires j + 4 <= out.Length && i == 3 * k
    modifies out
    ensures out[..j + 4] == old(out[..j]) + Quad(x, k)
  {
    ghost var was := out[..j];
    var triple := At(x, i) * 65536 + At(x, i + 1) * 256 + At(x, i + 2);
    out[j] := EncodeSextet(triple / 262144 % 64);
    out[j + 1] := EncodeSextet(triple / 4096 % 64);
    out[j + 2] := EncodeSextet(triple / 64 % 64);
    out[j + 3] := EncodeSextet(triple % 64);
    QuadIs(x, k, triple);
    assert out[..j + 4] == was + [out[j], out[j + 1], out[j + 2], out[j + 3]];
  }

  method PutPadding(out: array<byte>, length: nat, n: nat)
    requires n <= length <= out.Length
    modifies out
    ensures out[..length] == Padded(old(out[..length]), n)
  {
    ghost var text := out[..length];
    var i := 0;
    while i < n
      invariant i <= n && out[..length] == Padded(text, i)
    {
      out[length - 1 - i] := PAD;
      i := i + 1;
    }
  }

  method PutBreak(out: array<byte>, j: nat)
    requires j + 2 <= out.Length
    modifies out
    ensures out[..j + 2] == old(out[..j]) + [13, 10]
  {
    out[j], out[j + 1] := 13, 10;
  }

  lemma LineNext(x: seq<byte>, k: nat, breaks: bool)
    ensures (k + 1) % 19 == if k % 19 == 18 then 0 else k % 19 + 1
    ensures Text(x, k + 1, breaks) ==
            Text(x, k, breaks) + Quad(x, k) + (if breaks && k % 19 == 18 then [13, 10] else [])
  {
  }

  // One turn of the encoding loop.
  method EncodeGroup(out: array<byte>, j: nat, lineCount: nat, x: seq<byte>, i: nat, breaks: bool, ghost k: nat)
    returns (j': nat, lineCount': nat)
    requires i == 3 * k && lineCount == (if breaks then k % 19 else 0)
    requires j == |Text(x, k, breaks)| && |Text(x, k + 1, breaks)| <= out.Length && out[..j] == Text(x, k, breaks)
    modifies out
    ensures j' == |Text(x, k + 1, breaks)| && out[..j'] == Text(x, k + 1, breaks)
    ensures lineCount' == if breaks then (k + 1) % 19 else 0
  {
    LineNext(x, k, breaks);
    PutGroup(out, j, x, i, k);
    j', lineCount' := j + 4, lineCount;
    if breaks {
      lineCount' := lineCount' + 1;
      if lineCount' == 19 {
        PutBreak(out, j');
        j', lineCount' := j' + 2, 0;
      }
    }
  }

  lemma {:induction false} TextGrows(x: seq<byte>, k: nat, g: nat, breaks: bool)
    requires k <= g
    ensures |Text(x, k, breaks)| <= |Text(x, g, breaks)|
    decreases g - k
  {
    if k < g { TextGrows(x, k, g - 1, breaks); }
  }

  // The encoding loop.
  method EncodeText(x: seq<byte>, breaks: bool, out: array<byte>)
    requires out.Length >= |Text(x, Groups(|x|), breaks)|
    modifies out
    ensures out[..|Text(x, Groups(|x|), breaks)|] == Text(x, Groups(|x|), breaks)
  {
    var i, j, lineCount := 0, 0, 0;
    ghost var k := 0;
    while i < |x|
      invariant k <= Groups(|x|) && i == (if k < Groups(|x|) then 3 * k else |x|)
      invariant lineCount == (if breaks then k % 19 else 0)
      invariant j == |Text(x, k, breaks)| <= out.Length && out[..j] == Text(x, k, breaks)
    {
      NextGroup(|x|, k);
      TextGrows(x, k + 1, Groups(|x|), breaks);
      j, lineCount := EncodeGroup(out, j, lineCount, x, i, breaks, k);
      i, k := if i + 3 <= |x| then i + 3 else |x|, k + 1;
    }
  }

  /** The encoder: the text it promises, in exactly the length computed beforehand. */
  method Encode(x: seq<byte>, breaks: bool) returns (r: seq<byte>)
    ensures r == Encoded(x, breaks) && |r| == OutputLength(|x|, breaks)
    ensures forall p :: 0 <= p < |r| ==> r[p] == Character(x, breaks, p) as int
  {
    var length := OutputLength(|x|, breaks);
    var encoded := new byte[length + 1](_ => 0);
    FillsOutput(x, 0, breaks);
    EncodeText(x, breaks, encoded);
    PutPadding(encoded, length, Pads(|x|));
    forall p | 0 <= p < length ensures encoded[..length][p] == Character(x, breaks, p) as int {
      EncodedByIndex(x, breaks, p);
    }
    return encoded[..length];
  }

  // ---------------------------------------------------------------- decoding

  predicate Plain(c: byte) { c != PAD && (IsSpace(c) || DecodeChar(c) != 255) }

  // Only characters of the alphabet and spaces.
  predicate AllPlain(s: seq<byte>) { forall i :: 0 <= i < |s| ==> Plain(s[i]) }

  /** The values of the characters, spaces skipped. */
  function Sextets(s: seq<byte>): seq<byte> {
    if s == [] then [] else
      var c := s[|s| - 1];
      Sextets(s[..|s| - 1]) + (if IsSpace(c) then [] else [DecodeChar(c)])
  }

  // Whole octets out of sextets, and the bits left over, already shifted into place.
  datatype Output = Output(octets: seq<byte>, left: int)

  function Feed(o: Output, state: int, s: int): Output {
    match state
    case 0 => Output(o.octets, s * 4)
    case 1 => Output(o.octets + [Clip(o.left + s / 16)], s % 16 * 16)
    case 2 => Output(o.octets + [Clip(o.left + s / 4)], s % 4 * 64)
    case _ => Output(o.octets + [Clip(o.left + s)], 0)
  }

  function Clip(x: int): byte { x % 256 }

  function Regroup(sx: seq<byte>): Output {
    if sx == [] then Output([], 0) else Feed(Regroup(sx[..|sx| - 1]), (|sx| - 1) % 4, sx[|sx| - 1])
  }

  function FirstPad(s: seq<byte>): (p: nat)
    ensures p <= |s| && (p < |s| ==> s[p] == PAD) && forall i :: 0 <= i < p ==> s[i] != PAD
  {
    if s == [] || s[0] == PAD then 0 else
      var p := FirstPad(s[1..]);
      assert forall i :: 0 < i < p + 1 ==> s[i] == s[1..][i - 1];
      p + 1
  }

  // What the decoder accepts from position k on; the last character is not looked at.
  predicate BlankFrom(s: seq<byte>, k: nat)
    decreases |s| - k
  {
    k + 1 >= |s| || s[k] == 0 || (IsSpace(s[k]) && BlankFrom(s, k + 1))
  }

  predicate TailOk(s: seq<byte>, p: nat, state: int) {
    match state
    case 2 => BlankFrom(s, p + 1)
    case 3 => BlankFrom(s, p)
    case _ => false
  }

  // The output buffer has three octets for every four characters of input.
  predicate Fits(n: nat, length: nat) { (n + 3) / 4 <= length / 4 }

  // Everything before the padding is plain and its groups fit.
  predicate BodyOk(s: seq<byte>) { AllPlain(s[..FirstPad(s)]) && Fits(|Sextets(s[..FirstPad(s)])|, |s|) }

  /** What decoding produces; None stands for a null result. */
  function Decoded(s: seq<byte>): Option<seq<byte>> {
    var p := FirstPad(s);
    var sx := Sextets(s[..p]);
    if !BodyOk(s) then None
    else if p == |s| then (if |sx| % 4 == 0 then Some(Regroup(sx).octets) else None)
    else if TailOk(s, p, |sx| % 4) && Regroup(sx).left == 0 then Some(Regroup(sx).octets) else None
  }

  lemma {:induction false} SextetsJoin(a: seq<byte>, b: seq<byte>)
    ensures Sextets(a + b) == Sextets(a) + Sextets(b)
  {
    if b == [] {
      assert a + b == a;
    } else {
      SextetsJoin(a, b[..|b| - 1]);
      assert (a + b)[..|a + b| - 1] == a + b[..|b| - 1];
    }
  }

  // How many octets n sextets make.
  function OctetCount(n: nat): nat { n / 4 * 3 + (if n % 4 == 0 then 0 else n % 4 - 1) }

  // The bits left over leave room for the next sextet.
  predicate LeftOk(state: int, left: int) {
    match state
    case 0 => left == 0
    case 1 => 0 <= left <= 252 && left % 4 == 0
    case 2 => 0 <= left <= 240 && left % 16 == 0
    case _ => 0 <= left <= 192 && left % 64 == 0
  }

  lemma CountNext(n: nat)
    ensures (n + 1) % 4 == (if n % 4 == 3 then 0 else n % 4 + 1)
    ensures OctetCount(n + 1) == OctetCount(n) + (if n % 4 == 0 then 0 else 1)
  {
  }

  lemma FeedShape(o: Output, n: nat, s: int)
    requires |o.octets| == OctetCount(n) && LeftOk(n % 4, o.left) && 0 <= s < 64
    ensures var o' := Feed(o, n % 4, s); |o'.octets| == OctetCount(n + 1) && LeftOk((n + 1) % 4, o'.left)
  {
    CountNext(n);
  }

  lemma {:induction false} RegroupShape(sx: seq<byte>)
    requires forall i :: 0 <= i < |sx| ==> sx[i] < 64
    ensures |Regroup(sx).octets| == OctetCount(|sx|) && LeftOk(|sx| % 4, Regroup(sx).left)
  {
    if sx != [] {
      RegroupShape(sx[..|sx| - 1]);
      FeedShape(Regroup(sx[..|sx| - 1]), |sx| - 1, sx[|sx| - 1]);
    }
  }

  // Octet j of a run of sextets, eight bits of the twenty-four in each four of them.
  function OctetAt(sx: seq<byte>, j: nat): int
    requires j < OctetCount(|sx|)
  {
    var i := j / 3 * 4 + j % 3;
    Eight(j % 3, sx[i], sx[i + 1])
  }

  // The eight bits that two sextets hold for the first, second or third octet.
  function Eight(place: int, high: int, low: int): int {
    match place
    case 0 => high * 4 + low / 16
    case 1 => high % 16 * 16 + low / 4
    case _ => high % 4 * 64 + low
  }

  // The bits of a sextet left for the next octet.
  function Rest(state: int, s: int): int {
    match state
    case 1 => s * 4
    case 2 => s % 16 * 16
    case 3 => s % 4 * 64
    case _ => 0
  }

  lemma EightIsOctet(place: int, high: int, low: int)
    requires 0 <= high < 64 && 0 <= low < 64
    ensures 0 <= Eight(place, high, low) < 256
  {
    if place == 0 { assert low / 16 < 4; }
    else if place == 1 { assert high % 16 < 16 && low / 4 < 16; }
    else { assert high % 4 < 4; }
  }

  lemma Clipped(x: int)
    requires 0 <= x < 256
    ensures Clip(x) == x
  {
  }

  lemma FeedEight(o: Output, state: int, high: int, s: int)
    requires 0 <= high < 64 && 0 <= s < 64 && 1 <= state <= 3 && o.left == Rest(state, high)
    ensures 0 <= Eight(state - 1, high, s) < 256
    ensures Feed(o, state, s).octets == o.octets + [Eight(state - 1, high, s)]
  {
    EightIsOctet(state - 1, high, s);
    Clipped(Eight(state - 1, high, s));
  }

  lemma LeftIs(sx: seq<byte>)
    requires sx != [] && forall i :: 0 <= i < |sx| ==> sx[i] < 64
    ensures Regroup(sx).left == Rest(|sx| % 4, sx[|sx| - 1])
  {
    CountNext(|sx| - 1);
  }

  /** Regrouping, octet by octet. */
  lemma {:induction false} RegroupByIndex(sx: seq<byte>, j: nat)
    requires forall i :: 0 <= i < |sx| ==> sx[i] < 64
    requires j < OctetCount(|sx|)
    ensures |Regroup(sx).octets| == OctetCount(|sx|) && Regroup(sx).octets[j] == OctetAt(sx, j)
  {
    RegroupShape(sx);
    var rest := sx[..|sx| - 1];
    RegroupShape(rest);
    CountNext(|rest|);
    if j < OctetCount(|rest|) {
      RegroupByIndex(rest, j);
      OctetAtGrows(sx, j);
    } else {
      LastOctet(sx);
    }
  }

  lemma OctetAtGrows(sx: seq<byte>, j: nat)
    requires sx != [] && j < OctetCount(|sx| - 1)
    ensures j < OctetCount(|sx|) && OctetAt(sx, j) == OctetAt(sx[..|sx| - 1], j)
  {
    CountNext(|sx| - 1);
  }

  lemma LastOctet(sx: seq<byte>)
    requires |sx| % 4 != 1 && |sx| > 0 && forall i :: 0 <= i < |sx| ==> sx[i] < 64
    ensures var rest, j := sx[..|sx| - 1], OctetCount(|sx| - 1);
            j < OctetCount(|sx|) && Regroup(sx).octets == Regroup(rest).octets + [OctetAt(sx, j)]
  {
    CountNext(|sx| - 1);
    LeftIs(sx[..|sx| - 1]);
    LastPlace(|sx| - 1);
    FeedEight(Regroup(sx[..|sx| - 1]), (|sx| - 1) % 4, sx[|sx| - 2], sx[|sx| - 1]);
  }

  lemma LastPlace(n: nat)
    requires n % 4 != 0
    ensures OctetCount(n) / 3 * 4 + OctetCount(n) % 3 == n - 1 && OctetCount(n) % 3 == n % 4 - 1
  {
  }

  // ---------------------------------------------------------------- the round trip

  // The base-64 digits of a number are its sextets.
  lemma Digits(t: nat, d3: nat, d2: nat, d1: nat, d0: nat)
    requires d3 < 64 && d2 < 64 && d1 < 64 && d0 < 64
    requires t == ((d3 * 64 + d2) * 64 + d1) * 64 + d0
    ensures t / 262144 % 64 == d3 && t / 4096 % 64 == d2 && t / 64 % 64 == d1 && t % 64 == d0
  {
    assert t / 64 == (d3 * 64 + d2) * 64 + d1;
    assert t / 4096 == d3 * 64 + d2;
    assert t / 262144 == d3;
  }

  lemma SextetArithmetic(a: byte, b: byte, c: byte)
    ensures var t := a * 65536 + b * 256 + c;
            t / 262144 % 64 == a / 4 && t / 4096 % 64 == a % 4 * 16 + b / 16 &&
            t / 64 % 64 == b % 16 * 4 + c / 64 && t % 64 == c % 64
  {
    Digits(a * 65536 + b * 256 + c, a / 4, a % 4 * 16 + b / 16, b % 16 * 4 + c / 64, c % 64);
  }

  // Characters of the alphabet decode to their sextets.
  lemma {:induction false} CharsDecode(sx: seq<Sextet>)
    ensures AllPlain(Chars(sx)) && Sextets(Chars(sx)) == sx
  {
    if sx != [] {
      var n := |sx| - 1;
      CharsDecode(sx[..n]);
      AlphabetRoundTrip(sx[n]);
      assert Chars(sx)[..n] == Chars(sx[..n]);
    }
  }

  lemma QuadDecodes(x: seq<byte>, k: nat, n: nat)
    requires n <= 4
    ensures AllPlain(Quad(x, k)[..n]) && Sextets(Quad(x, k)[..n]) == GroupSextets(x, k)[..n]
  {
    CharsDecode(GroupSextets(x, k)[..n]);
    assert Quad(x, k)[..n] == Chars(GroupSextets(x, k)[..n]);
  }

  // Feeding the sextets of a group gives its octets, and leaves 0 for missing ones.
  lemma FeedWhole(sx: seq<byte>, a: byte, b: byte, c: byte)
    requires |sx| % 4 == 0
    ensures Regroup(sx + Split(a, b, c)) == Output(Regroup(sx).octets + [a, b, c], 0)
  {
    FeedPrefix(sx, a, b, c);
  }

  lemma FeedTwo(sx: seq<byte>, a: byte, b: byte)
    requires |sx| % 4 == 0
    ensures Regroup(sx + Split(a, b, 0)[..3]) == Output(Regroup(sx).octets + [a, b], 0)
  {
    FeedPrefix(sx, a, b, 0);
  }

  lemma FeedSingle(sx: seq<byte>, a: byte)
    requires |sx| % 4 == 0
    ensures Regroup(sx + Split(a, 0, 0)[..2]) == Output(Regroup(sx).octets + [a], 0)
  {
    FeedPrefix(sx, a, 0, 0);
  }

  lemma RegroupAdd(sx: seq<byte>, s: byte)
    ensures Regroup(sx + [s]) == Feed(Regroup(sx), |sx| % 4, s)
  {
    assert (sx + [s])[..|sx|] == sx;
  }

  lemma FeedOne(sx: seq<byte>, s: seq<byte>, i: nat)
    requires |sx| % 4 == 0 && i < |s| && i < 4
    ensures Regroup(sx + s[..i + 1]) == Feed(Regroup(sx + s[..i]), i, s[i])
  {
    Next(sx, s, i);
    RegroupAdd(sx + s[..i], s[i]);
  }

  lemma Next(sx: seq<byte>, s: seq<byte>, i: nat)
    requires |sx| % 4 == 0 && i < |s| && i < 4
    ensures |sx + s[..i]| % 4 == i && sx + s[..i + 1] == (sx + s[..i]) + [s[i]]
  {
  }

  lemma FeedPrefix(sx: seq<byte>, a: byte, b: byte, c: byte)
    requires |sx| % 4 == 0
    ensures var o, s := Regroup(sx).octets, Split(a, b, c);
            Regroup(sx + s[..2]) == Output(o + [a], b / 16 * 16) &&
            Regroup(sx + s[..3]) == Output(o + [a, b], c / 64 * 64) &&
            Regroup(sx + s) == Output(o + [a, b, c], 0)
  {
    var s := Split(a, b, c);
    assert sx + s[..0] == sx && s[..4] == s;
    FeedOne(sx, s, 0); FeedOne(sx, s, 1); FeedOne(sx, s, 2); FeedOne(sx, s, 3);
    FourFeeds(Regroup(sx), a, b, c);
  }

  lemma FourFeeds(o: Output, a: byte, b: byte, c: byte)
    ensures var s := Split(a, b, c);
            var o1 := Feed(o, 0, s[0]);
            var o2 := Feed(o1, 1, s[1]);
            var o3 := Feed(o2, 2, s[2]);
            o2 == Output(o.octets + [a], b / 16 * 16) &&
            o3 == Output(o.octets + [a, b], c / 64 * 64) &&
            Feed(o3, 3, s[3]) == Output(o.octets + [a, b, c], 0)
  {
    BitSums(a, b, c);
    assert o.octets + [a] + [b] == o.octets + [a, b] && o.octets + [a, b] + [c] == o.octets + [a, b, c];
  }

  lemma BitSums(a: byte, b: byte, c: byte)
    ensures Clip(a / 4 * 4 + (a % 4 * 16 + b / 16) / 16) == a && (a % 4 * 16 + b / 16) % 16 == b / 16
    ensures Clip(b / 16 * 16 + (b % 16 * 4 + c / 64) / 4) == b && (b % 16 * 4 + c / 64) % 4 == c / 64
    ensures Clip(c / 64 * 64 + c % 64) == c
  {
  }

  // Group k adds its sextets; the line break adds none.
  lemma TextStep(x: seq<byte>, k: nat, breaks: bool)
    ensures Sextets(Text(x, k + 1, breaks)) == Sextets(Text(x, k, breaks)) + GroupSextets(x, k)
  {
    CharsDecode(GroupSextets(x, k));
    BreakIsBlank(Line(k + 1, breaks));
    JoinLine(Text(x, k, breaks), Quad(x, k), Line(k + 1, breaks));
  }

  lemma TextStepPlain(x: seq<byte>, k: nat, breaks: bool)
    requires AllPlain(Text(x, k, breaks))
    ensures AllPlain(Text(x, k + 1, breaks))
  {
    CharsDecode(GroupSextets(x, k));
    BreakIsBlank(Line(k + 1, breaks));
    JoinPlain(Text(x, k, breaks), Quad(x, k), Line(k + 1, breaks));
  }

  lemma JoinLine(text: seq<byte>, quad: seq<byte>, line: seq<byte>)
    requires Sextets(line) == []
    ensures Sextets(text + quad + line) == Sextets(text) + Sextets(quad)
  {
    SextetsJoin(text, quad);
    SextetsJoin(text + quad, line);
  }

  lemma JoinPlain(text: seq<byte>, quad: seq<byte>, line: seq<byte>)
    requires AllPlain(text) && AllPlain(quad) && AllPlain(line)
    ensures AllPlain(text + quad + line)
  {
  }

  lemma BreakIsBlank(line: seq<byte>)
    requires line == [] || line == [13] || line == [13, 10]
    ensures Sextets(line) == [] && AllPlain(line)
  {
    if line == [13, 10] {
      assert line[..1] == [13];
      assert line[..1][..0] == [];
    }
  }

  lemma {:induction false} TextAllPlain(x: seq<byte>, k: nat, breaks: bool)
    ensures AllPlain(Text(x, k, breaks))
  {
    if k > 0 {
      TextAllPlain(x, k - 1, breaks);
      TextStepPlain(x, k - 1, breaks);
    }
  }

  lemma {:induction false} TextCount(x: seq<byte>, k: nat, breaks: bool)
    ensures |Sextets(Text(x, k, breaks))| == 4 * k
  {
    if k > 0 {
      TextCount(x, k - 1, breaks);
      NextCount(x, k - 1, breaks);
    }
  }

  lemma NextCount(x: seq<byte>, k: nat, breaks: bool)
    ensures |Sextets(Text(x, k + 1, breaks))| == |Sextets(Text(x, k, breaks))| + 4
  {
    TextStep(x, k, breaks);
  }

  lemma TextPlain(x: seq<byte>, k: nat, breaks: bool)
    ensures AllPlain(Text(x, k, breaks)) && |Sextets(Text(x, k, breaks))| == 4 * k
  {
    TextAllPlain(x, k, breaks);
    TextCount(x, k, breaks);
  }

  predicate DecodesTo(sx: seq<byte>, x: seq<byte>) {
    match Regroup(sx)
    case Output(octets, left) => octets == x && left == 0
  }

  predicate GroupsDecode(x: seq<byte>, k: nat, breaks: bool)
    requires 3 * k <= |x|
  {
    match Regroup(Sextets(Text(x, k, breaks)))
    case Output(octets, left) => octets == x[..3 * k] && left == 0
  }

  /** Whole groups decode to the octets they came from. */
  lemma {:induction false} TextDecodes(x: seq<byte>, k: nat, breaks: bool)
    requires 3 * k <= |x|
    ensures GroupsDecode(x, k, breaks)
  {
    if k > 0 {
      TextDecodes(x, k - 1, breaks);
      NextDecodes(x, k - 1, breaks);
    }
  }

  lemma NextDecodes(x: seq<byte>, k: nat, breaks: bool)
    requires 3 * k + 3 <= |x| && GroupsDecode(x, k, breaks)
    ensures GroupsDecode(x, k + 1, breaks)
  {
    TextPlain(x, k, breaks);
    TextStep(x, k, breaks);
    WholeGroup(x, k, Sextets(Text(x, k, breaks)));
  }

  lemma WholeGroup(x: seq<byte>, k: nat, sx: seq<byte>)
    requires 3 * k + 3 <= |x| && |sx| == 4 * k && Regroup(sx).octets == x[..3 * k]
    ensures DecodesTo(sx + GroupSextets(x, k), x[..3 * k + 3])
  {
    GroupArithmetic(k, 0, 4 * k);
    FeedWhole(sx, x[3 * k], x[3 * k + 1], x[3 * k + 2]);
    LastOctets(x[..3 * k + 3], 3 * k);
  }

  lemma LastOctets(x: seq<byte>, m: nat)
    requires m < |x| <= m + 3
    ensures |x| == m + 1 ==> x == x[..m] + [x[m]]
    ensures |x| == m + 2 ==> x == x[..m] + [x[m], x[m + 1]]
    ensures |x| == m + 3 ==> x == x[..m] + [x[m], x[m + 1], x[m + 2]]
  {
  }

  lemma PadFound(body: seq<byte>, n: nat)
    requires AllPlain(body)
    ensures FirstPad(body + Equals(n)) == |body| && (body + Equals(n))[..|body|] == body
  {
    var s := body + Equals(n);
    if n > 0 { assert s[|body|] == PAD; }
    assert forall i :: 0 <= i < |body| ==> s[i] == body[i];
  }

  /** What the decoder makes of plain text followed by at most two padding characters. */
  lemma DecodePadded(body: seq<byte>, n: nat)
    requires AllPlain(body) && n <= 2
    ensures var sx := Sextets(body);
            Decoded(body + Equals(n)) ==
              if Fits(|sx|, |body| + n) && Regroup(sx).left == 0 &&
                 (if n == 0 then |sx| % 4 == 0 else |sx| % 4 == 2 || (|sx| % 4 == 3 && n == 1))
              then Some(Regroup(sx).octets) else None
  {
    PadFound(body, n);
    SextetsBelow(body);
    RegroupShape(Sextets(body));
  }

  lemma {:induction false} SextetsBelow(s: seq<byte>)
    requires AllPlain(s)
    ensures forall i :: 0 <= i < |Sextets(s)| ==> Sextets(s)[i] < 64
  {
    if s != [] { SextetsBelow(s[..|s| - 1]); }
  }

  // The last group, cut by its padding, with no line break after it.
  lemma OneLeft(x: seq<byte>, k: nat, sx: seq<byte>)
    requires |x| == 3 * k + 1 && |sx| == 4 * k && Regroup(sx).octets == x[..3 * k]
    ensures DecodesTo(sx + Split(x[3 * k], 0, 0)[..2], x)
  {
    GroupArithmetic(k, 0, 4 * k);
    FeedSingle(sx, x[3 * k]);
    LastOctets(x, 3 * k);
  }

  lemma TwoLeft(x: seq<byte>, k: nat, sx: seq<byte>)
    requires |x| == 3 * k + 2 && |sx| == 4 * k && Regroup(sx).octets == x[..3 * k]
    ensures DecodesTo(sx + Split(x[3 * k], x[3 * k + 1], 0)[..3], x)
  {
    GroupArithmetic(k, 0, 4 * k);
    FeedTwo(sx, x[3 * k], x[3 * k + 1]);
    LastOctets(x, 3 * k);
  }

  lemma PartialGroup(x: seq<byte>, k: nat, breaks: bool)
    requires |x| == 3 * k + 1 || |x| == 3 * k + 2
    ensures var body := Text(x, k, breaks) + Quad(x, k)[..|x| - 3 * k + 1];
            AllPlain(body) && |Sextets(body)| == 4 * k + (|x| - 3 * k) + 1 && DecodesTo(Sextets(body), x)
  {
    var text, n := Text(x, k, breaks), |x| - 3 * k;
    TextPlain(x, k, breaks);
    TextDecodes(x, k, breaks);
    QuadDecodes(x, k, n + 1);
    SextetsJoin(text, Quad(x, k)[..n + 1]);
    if n == 1 { OneLeft(x, k, Sextets(text)); } else { TwoLeft(x, k, Sextets(text)); }
  }

  /** Padding is written at the very end of the output; after a final line break it overwrites that break. */
  predicate PaddingHitsBreak(n: nat, breaks: bool) { breaks && Groups(n) % 19 == 0 && n % 3 != 0 }

  lemma EncodedWhole(x: seq<byte>, k: nat, breaks: bool)
    requires |x| == 3 * k
    ensures Encoded(x, breaks) == Text(x, k, breaks) + Equals(0)
  {
    assert Groups(|x|) == k;
  }

  lemma LastGroup(n: nat, k: nat)
    requires 3 * k < n < 3 * k + 3
    ensures Groups(n) == k + 1 && Pads(n) == 3 * k + 3 - n
    ensures Line(k + 1, true) == if PaddingHitsBreak(n, true) then [13, 10] else []
  {
  }

  lemma EncodedPartial(x: seq<byte>, k: nat, breaks: bool)
    requires 3 * k < |x| < 3 * k + 3 && !PaddingHitsBreak(|x|, breaks)
    ensures Encoded(x, breaks) == Text(x, k, breaks) + Quad(x, k)[..|x| - 3 * k + 1] + Equals(3 * k + 3 - |x|)
  {
    LastGroup(|x|, k);
    CutText(Text(x, k, breaks), Quad(x, k), [], Pads(|x|));
  }

  lemma EncodedOverBreak(x: seq<byte>, k: nat)
    requires 3 * k < |x| < 3 * k + 3 && PaddingHitsBreak(|x|, true)
    ensures Encoded(x, true) ==
            Text(x, k, true) + Quad(x, k) + (if |x| == 3 * k + 1 then [] else [13]) + Equals(3 * k + 3 - |x|)
  {
    LastGroup(|x|, k);
    CutText(Text(x, k, true), Quad(x, k), [13, 10], Pads(|x|));
  }

  lemma CutText(text: seq<byte>, quad: seq<byte>, line: seq<byte>, n: nat)
    requires |quad| == 4 && n <= 2
    ensures line == [] ==> Padded(text + quad + line, n) == text + quad[..4 - n] + Equals(n)
    ensures line == [13, 10] && 0 < n ==>
              Padded(text + quad + line, n) == text + quad + (if n == 2 then [] else [13]) + Equals(n)
  {
  }

  lemma RoundTripWhole(x: seq<byte>, k: nat, breaks: bool)
    requires |x| == 3 * k
    ensures Decoded(Encoded(x, breaks)) == Some(x)
  {
    var text := Text(x, k, breaks);
    EncodedWhole(x, k, breaks);
    TextLength(x, k, breaks);
    TextPlain(x, k, breaks);
    TextDecodes(x, k, breaks);
    assert x[..3 * k] == x;
    Accepted(text, 0, k, x);
  }

  lemma GroupArithmetic(k: nat, n: nat, length: nat)
    requires n <= 2 && n <= 4 * k <= length
    ensures Fits(4 * k - n, length) && (4 * k - n) % 4 == if n == 0 then 0 else 4 - n
  {
  }

  // Text whose sextets regroup to x, with room for its groups and fitting padding, decodes to x.
  lemma Accepted(body: seq<byte>, n: nat, k: nat, x: seq<byte>)
    requires AllPlain(body) && n <= 2 && |Sextets(body)| == 4 * k - n && |body| + n >= 4 * k &&
          DecodesTo(Sextets(body), x)
    ensures Decoded(body + Equals(n)) == Some(x)
  {
    GroupArithmetic(k, n, |body| + n);
    DecodePadded(body, n);
  }

  lemma RoundTripPartial(x: seq<byte>, k: nat, breaks: bool)
    requires 3 * k < |x| < 3 * k + 3 && !PaddingHitsBreak(|x|, breaks)
    ensures Decoded(Encoded(x, breaks)) == Some(x)
  {
    EncodedPartial(x, k, breaks);
    TextLength(x, k, breaks);
    PartialGroup(x, k, breaks);
    PartialAccepted(Text(x, k, breaks) + Quad(x, k)[..|x| - 3 * k + 1], 3 * k + 3 - |x|, k, x, breaks);
  }

  lemma PartialAccepted(body: seq<byte>, n: nat, k: nat, x: seq<byte>, breaks: bool)
    requires AllPlain(body) && 1 <= n <= 2 && |Sextets(body)| == 4 * k + 4 - n && DecodesTo(Sextets(body), x)
    requires |body| + n == 4 * k + (if breaks then k / 19 * 2 else 0) + 4
    ensures Decoded(body + Equals(n)) == Some(x)
  {
    Accepted(body, n, k + 1, x);
  }

  lemma RoundTripFails(x: seq<byte>, k: nat)
    requires 3 * k < |x| < 3 * k + 3 && PaddingHitsBreak(|x|, true)
    ensures Decoded(Encoded(x, true)) == None
  {
    EncodedOverBreak(x, k);
    WholeBeforePadding(x, k, if |x| == 3 * k + 1 then [] else [13]);
    Refused(Text(x, k, true) + Quad(x, k) + (if |x| == 3 * k + 1 then [] else [13]), 3 * k + 3 - |x|, k + 1);
  }

  lemma WholeBeforePadding(x: seq<byte>, k: nat, line: seq<byte>)
    requires line == [] || line == [13]
    ensures var body := Text(x, k, true) + Quad(x, k) + line; AllPlain(body) && |Sextets(body)| == 4 * (k + 1)
  {
    TextPlain(x, k, true);
    CharsDecode(GroupSextets(x, k));
    BreakIsBlank(line);
    JoinLine(Text(x, k, true), Quad(x, k), line);
    JoinPlain(Text(x, k, true), Quad(x, k), line);
  }

  // Padding after whole groups is an error.
  lemma Refused(body: seq<byte>, n: nat, k: nat)
    requires AllPlain(body) && 0 < n <= 2 && |Sextets(body)| == 4 * k
    ensures Decoded(body + Equals(n)) == None
  {
    GroupArithmetic(k, 0, 4 * k);
    DecodePadded(body, n);
  }

  /** decode(encode(x)) is x, except when the padding overwrites a final line break: then decoding fails. */
  lemma RoundTrip(x: seq<byte>, breaks: bool)
    ensures Decoded(Encoded(x, breaks)) == if PaddingHitsBreak(|x|, breaks) then None else Some(x)
    ensures Decoded(Encoded(x, breaks)) == Some(x) <==> !PaddingHitsBreak(|x|, breaks)
  {
    var k := |x| / 3;
    if |x| == 3 * k { RoundTripWhole(x, k, breaks); }
    else if PaddingHitsBreak(|x|, breaks) { RoundTripFails(x, k); }
    else { RoundTripPartial(x, k, breaks); }
  }

  /** The failure at an input: 56 octets make 19 groups, the last of them padded. */
  lemma RoundTripFailsAt56()
    ensures Decoded(Encoded(seq(56, _ => 0), true)) == None
  {
    var x: seq<byte> := seq(56, _ => 0);
    assert PaddingHitsBreak(|x|, true);
    RoundTrip(x, true);
  }

  // ---------------------------------------------------------------- the decoder

  // The output buffer holds the octets, and after them the bits left over.
  ghost predicate Holds(buffer: array<byte>, at: nat, n: nat, o: Output)
    reads buffer
  {
    && at == |o.octets| == OctetCount(n) && LeftOk(n % 4, o.left)
    && at <= buffer.Length && buffer[..at] == o.octets
    && (n % 4 != 0 ==> at < buffer.Length && buffer[at] == o.left)
  }

  // A sextet is refused exactly when its group would not fit.
  lemma RoomArithmetic(n: nat, length: nat)
    requires Fits(n, length)
    ensures var at, size := OctetCount(n), length / 4 * 3;
            (n % 4 == 0 ==> (at < size <==> Fits(n + 1, length))) &&
            (n % 4 == 1 || n % 4 == 2 ==> at + 1 < size && Fits(n + 1, length)) &&
            (n % 4 == 3 ==> at < size && Fits(n + 1, length))
  {
  }

  // The four states of the decoding loop.
  method PutSextet(buffer: array<byte>, at: nat, state: nat, s: Sextet, ghost n: nat, ghost o: Output,
      ghost length: nat)
    returns (ok: bool, at': nat, state': nat)
    requires Holds(buffer, at, n, o) && state == n % 4 && buffer.Length == length / 4 * 3 && Fits(n, length)
    modifies buffer
    ensures ok <==> Fits(n + 1, length)
    ensures ok ==> state' == (n + 1) % 4 && Holds(buffer, at', n + 1, Feed(o, n % 4, s))
  {
    RoomArithmetic(n, length);
    CountNext(n);
    if state == 0 {
      if at >= buffer.Length { return false, at, state; }
      PutFirst(buffer, at, s, n, o);
      return true, at, 1;
    } else if state == 1 {
      PutSecond(buffer, at, s, n, o);
      return true, at + 1, 2;
    } else if state == 2 {
      PutThird(buffer, at, s, n, o);
      return true, at + 1, 3;
    } else {
      PutFourth(buffer, at, s, n, o);
      return true, at + 1, 0;
    }
  }

  method PutFirst(buffer: array<byte>, at: nat, s: Sextet, ghost n: nat, ghost o: Output)
    requires Holds(buffer, at, n, o) && at < buffer.Length && n % 4 == 0
    modifies buffer
    ensures Holds(buffer, at, n + 1, Feed(o, 0, s))
  {
    FeedShape(o, n, s);
    CountNext(n);
    buffer[at] := s * 4;
  }

  method PutSecond(buffer: array<byte>, at: nat, s: Sextet, ghost n: nat, ghost o: Output)
    requires Holds(buffer, at, n, o) && at + 1 < buffer.Length && n % 4 == 1
    modifies buffer
    ensures Holds(buffer, at + 1, n + 1, Feed(o, 1, s))
  {
    if at + 1 >= buffer.Length {
      assert false;            // a group that was started fits
    }
    FeedShape(o, n, s);
    CountNext(n);
    PutBits(buffer, at, s / 16, s % 16 * 16);
  }

  method PutThird(buffer: array<byte>, at: nat, s: Sextet, ghost n: nat, ghost o: Output)
    requires Holds(buffer, at, n, o) && at + 1 < buffer.Length && n % 4 == 2
    modifies buffer
    ensures Holds(buffer, at + 1, n + 1, Feed(o, 2, s))
  {
    if at + 1 >= buffer.Length {
      assert false;
    }
    FeedShape(o, n, s);
    CountNext(n);
    PutBits(buffer, at, s / 4, s % 4 * 64);
  }

  method PutFourth(buffer: array<byte>, at: nat, s: Sextet, ghost n: nat, ghost o: Output)
    requires Holds(buffer, at, n, o) && at < buffer.Length && n % 4 == 3
    modifies buffer
    ensures Holds(buffer, at + 1, n + 1, Feed(o, 3, s))
  {
    if at >= buffer.Length {
      assert false;
    }
    FeedShape(o, n, s);
    CountNext(n);
    buffer[at] := buffer[at] + s;
  }

  // Completes an octet and starts the next one.
  method PutBits(buffer: array<byte>, at: nat, high: int, low: byte)
    requires at + 1 < buffer.Length && 0 <= high && buffer[at] + high < 256
    modifies buffer
    ensures buffer[..at + 1] == old(buffer[..at]) + [old(buffer[at]) + high] && buffer[at + 1] == low
  {
    buffer[at] := buffer[at] + high;
    buffer[at + 1] := low;
  }

  // Nothing but spaces may follow, up to a zero; the last character is not looked at.  The first read is not
  // guarded by the length: `past` says that it lies beyond the input (its value is then of no consequence).
  method CheckTail(s: seq<byte>, start: nat) returns (ok: bool, ghost past: bool)
    ensures ok == BlankFrom(s, start) && past == (start >= |s|)
  {
    past := start >= |s|;
    var i := start + 1;
    var ch := if start < |s| then s[start] else 0;
    while ch != 0 && i < |s|
      invariant i > start && (i <= |s| ==> ch == s[i - 1]) && BlankFrom(s, start) == BlankFrom(s, i - 1)
      decreases |s| - i
    {
      if !IsSpace(ch) { return false, past; }
      ch := s[i];
      i := i + 1;
    }
    return true, past;
  }

  lemma PrefixStep(s: seq<byte>, i: nat)
    requires i < |s|
    ensures Sextets(s[..i + 1]) == if IsSpace(s[i]) then Sextets(s[..i]) else Sextets(s[..i]) + [DecodeChar(s[i])]
    ensures AllPlain(s[..i]) && Plain(s[i]) ==> AllPlain(s[..i + 1])
  {
    assert s[..i + 1][..i] == s[..i];
  }

  lemma {:induction false} SextetsGrow(s: seq<byte>, i: nat, p: nat)
    requires i <= p <= |s|
    ensures |Sextets(s[..i])| <= |Sextets(s[..p])|
  {
    if i < p {
      SextetsGrow(s, i, p - 1);
      PrefixGrows(s, p - 1);
    }
  }

  lemma PrefixGrows(s: seq<byte>, i: nat)
    requires i < |s|
    ensures |Sextets(s[..i])| <= |Sextets(s[..i + 1])|
  {
    PrefixStep(s, i);
  }

  // A character outside the alphabet, or a group that does not fit, before any padding: no result.
  lemma BadCharacter(s: seq<byte>, i: nat)
    requires i < |s| && AllPlain(s[..i]) && !Plain(s[i]) && s[i] != PAD
    ensures !BodyOk(s)
  {
    NoPadUpTo(s, i);
    var p := FirstPad(s);
    assert s[..p][i] == s[i];
  }

  lemma NoRoom(s: seq<byte>, i: nat)
    requires i <= |s| && AllPlain(s[..i]) && !Fits(|Sextets(s[..i])|, |s|)
    ensures !BodyOk(s)
  {
    NoPadUpTo(s, i);
    var p := FirstPad(s);
    SextetsGrow(s, i, p);
    if Fits(|Sextets(s[..p])|, |s|) { FitsLess(|Sextets(s[..i])|, |Sextets(s[..p])|, |s|); }
  }

  lemma FitsLess(a: nat, b: nat, length: nat)
    requires a <= b && Fits(b, length)
    ensures Fits(a, length)
  {
  }

  lemma NoPadUpTo(s: seq<byte>, i: nat)
    requires i <= |s| && AllPlain(s[..i])
    ensures FirstPad(s) >= i && (i < |s| && s[i] != PAD ==> FirstPad(s) > i)
  {
    assert forall j :: 0 <= j < i ==> s[j] == s[..i][j];
  }

  // What the decoding loop has done with the first characters.
  ghost predicate Consumed(data: seq<byte>, i: nat, buffer: array<byte>, at: nat, state: nat)
    requires i <= |data|
    reads buffer
  {
    var sx := Sextets(data[..i]);
    AllPlain(data[..i]) && Fits(|sx|, |data|) && state == |sx| % 4 && Holds(buffer, at, |sx|, Regroup(sx))
  }

  // One turn of the decoding loop.
  method DecodeStep(data: seq<byte>, i: nat, buffer: array<byte>, at: nat, state: nat)
      returns (ok: bool, at': nat, state': nat)
    requires i < |data| && data[i] != PAD && buffer.Length == |data| / 4 * 3 && Consumed(data, i, buffer, at, state)
    modifies buffer
    ensures !ok ==> !BodyOk(data)
    ensures ok ==> Consumed(data, i + 1, buffer, at', state')
  {
    PrefixStep(data, i);
    if IsSpace(data[i]) { return true, at, state; }
    if DecodeChar(data[i]) == 255 {
      BadCharacter(data, i);
      return false, at, state;
    }
    ok, at', state' := DecodeSextet(data, i, buffer, at, state);
  }

  method DecodeSextet(data: seq<byte>, i: nat, buffer: array<byte>, at: nat, state: nat)
      returns (ok: bool, at': nat, state': nat)
    requires i < |data| && Plain(data[i]) && !IsSpace(data[i]) && buffer.Length == |data| / 4 * 3 &&
          Consumed(data, i, buffer, at, state)
    modifies buffer
    ensures !ok ==> !BodyOk(data)
    ensures ok ==> Consumed(data, i + 1, buffer, at', state')
  {
    ghost var sx := Sextets(data[..i]);
    PrefixStep(data, i);
    RegroupAdd(sx, DecodeChar(data[i]));
    ok, at', state' := PutSextet(buffer, at, state, DecodeChar(data[i]), |sx|, Regroup(sx), |data|);
    if !ok { NoRoom(data, i + 1); }
  }

  // The decoding loop: everything up to the first padding, or a null result.
  method DecodeBody(data: seq<byte>, buffer: array<byte>) returns (ok: bool, i: nat, at: nat, state: nat)
    requires buffer.Length == |data| / 4 * 3
    modifies buffer
    ensures !ok ==> !BodyOk(data)
    ensures ok ==> i == FirstPad(data) && Consumed(data, i, buffer, at, state)
  {
    ok, i, at, state := true, 0, 0, 0;
    while i < |data| && data[i] != PAD
      invariant i <= |data| && Consumed(data, i, buffer, at, state)
    {
      ok, at, state := DecodeStep(data, i, buffer, at, state);
      if !ok { return; }
      i := i + 1;
    }
    NoPadUpTo(data, i);
  }

  /** When the decoder reads the character after the input: two octets are missing from the last group and the
      first padding character is the last character. */
  predicate ReadsPastEnd(s: seq<byte>) {
    BodyOk(s) && |Sextets(s[..FirstPad(s)])| % 4 == 2 && FirstPad(s) + 1 == |s|
  }

  /** The decoder computes what Decoded promises; `past` says whether it read beyond its input. */
  method Decode(data: seq<byte>) returns (r: Option<seq<byte>>, ghost past: bool)
    ensures r == Decoded(data)
    ensures past <==> ReadsPastEnd(data)
  {
    var buffer := new byte[|data| / 4 * 3];
    var ok, i, at, state := DecodeBody(data, buffer);
    past := false;
    if !ok { return None, past; }
    if i < |data| {
      if state < 2 { return None, past; }
      // The padding character is read again here, so with two octets missing the search for a second one
      // succeeds at once and one more character is skipped unseen.
      ok, past := CheckTail(data, if state == 2 then i + 1 else i);
      if !ok || buffer[at] != 0 { return None, past; }
    } else if state != 0 {
      return None, past;
    }
    return Some(buffer[..at]), past;
  }

  /** What decoding produces, octet by octet, out of the characters that are not white space. */
  lemma DecodedByIndex(s: seq<byte>, j: nat)
    requires Decoded(s).Some? && j < |Decoded(s).value|
    ensures var sx := Sextets(s[..FirstPad(s)]);
            |Decoded(s).value| == OctetCount(|sx|) && Decoded(s).value[j] == OctetAt(sx, j)
  {
    var body := s[..FirstPad(s)];
    SextetsBelow(body);
    RegroupShape(Sextets(body));
    RegroupByIndex(Sextets(body), j);
  }

  /** The read beyond the input happens, on a text the decoder accepts. */
  lemma ReadsPastEndHappens()
    ensures ReadsPastEnd([32, 32, 81, 81, PAD]) && Decoded([32, 32, 81, 81, PAD]) == Some([65])
  {
    var s: seq<byte> := [32, 32, 81, 81, PAD];
    PadAt(s, 4);
    assert s[..4] == [32, 32] + [81, 81];
    SextetsJoin([32, 32], [81, 81]);
    BlankText();
    TwoCharacters();
  }

  // ---------------------------------------------------------------- which padding is accepted

  // The number of sextets before the padding.
  function BodyCount(s: seq<byte>): nat { |Sextets(s[..FirstPad(s)])| }

  /** From k on, up to the last character, only spaces until a zero. */
  ghost predicate Blanked(s: seq<byte>, k: nat) {
    forall j :: k <= j < |s| - 1 ==> IsSpace(s[j]) || exists i :: k <= i <= j && s[i] == 0
  }

  lemma {:induction false} BlankFromIff(s: seq<byte>, k: nat)
    ensures BlankFrom(s, k) <==> Blanked(s, k)
    decreases |s| - k
  {
    if k + 1 < |s| && s[k] != 0 {
      BlankFromIff(s, k + 1);
      if Blanked(s, k) {
        forall j | k + 1 <= j < |s| - 1 ensures IsSpace(s[j]) || exists i :: k + 1 <= i <= j && s[i] == 0 {
          assert IsSpace(s[j]) || exists i :: k <= i <= j && s[i] == 0;
        }
      }
    }
  }

  /** Exactly which texts with padding are accepted. */
  lemma PaddingAccepted(s: seq<byte>)
    requires FirstPad(s) < |s|
    ensures var p, n := FirstPad(s), BodyCount(s);
            Decoded(s).Some? <==>
              && BodyOk(s) && Regroup(Sextets(s[..p])).left == 0
              && ((n % 4 == 3 && p + 1 == |s|) || (n % 4 == 2 && Blanked(s, p + 1)))
  {
    BlankFromIff(s, FirstPad(s) + 1);
  }

  /** The padding that section 4 of RFC 4648 asks for. */
  predicate ProperPadding(s: seq<byte>) {
    var n := BodyCount(s) % 4;
    (n == 2 || n == 3) && s[FirstPad(s)..] == Equals(4 - n)
  }

  lemma ProperPaddingIs(s: seq<byte>)
    requires FirstPad(s) < |s|
    ensures var p, n := FirstPad(s), BodyCount(s) % 4;
            ProperPadding(s) <==> (n == 3 && p + 1 == |s|) || (n == 2 && p + 2 == |s| && s[p + 1] == PAD)
  {
    var p := FirstPad(s);
    if p + 1 == |s| { assert s[p..] == [PAD]; }
    if p + 2 == |s| { assert s[p..] == [PAD, s[p + 1]]; }
  }

  lemma BlankedFromPad(s: seq<byte>, k: nat)
    requires k < |s| && s[k] == PAD
    ensures Blanked(s, k) <==> k + 1 == |s|
  {
    BlankFromIff(s, k);
  }

  /** Exactly which texts with other padding are accepted: two octets are missing from the last group, and the padding
      is a single character, or another character than the padding follows it. */
  lemma ImproperPaddingAccepted(s: seq<byte>)
    requires FirstPad(s) < |s|
    ensures var p, n := FirstPad(s), BodyCount(s);
            Decoded(s).Some? && !ProperPadding(s) <==>
              && BodyOk(s) && Regroup(Sextets(s[..p])).left == 0 && n % 4 == 2
              && (p + 1 == |s| || (s[p + 1] != PAD && Blanked(s, p + 1)))
  {
    var p := FirstPad(s);
    PaddingAccepted(s);
    ProperPaddingIs(s);
    if p + 1 < |s| && s[p + 1] == PAD { BlankedFromPad(s, p + 1); }
  }

  /** With two octets missing and one padding character, any further character goes unseen. */
  lemma SecondCharacterUnseen(s: seq<byte>, c: byte)
    requires BodyOk(s) && FirstPad(s) + 1 == |s| && BodyCount(s) % 4 == 2
    ensures Decoded(s + [c]) == Decoded(s)
  {
    PadAt(s + [c], FirstPad(s));
    assert (s + [c])[..FirstPad(s)] == s[..FirstPad(s)];
  }

  // Padding, and then anything.
  lemma PaddedThen(body: seq<byte>, n: nat, more: seq<byte>)
    requires AllPlain(body) && n > 0
    ensures var s := body + Equals(n) + more;
            FirstPad(s) == |body| && s[..|body|] == body && BodyCount(s) == |Sextets(body)|
  {
    var s := body + Equals(n) + more;
    assert s[..|body|] == body && s[|body|] == PAD;
    assert forall i :: 0 <= i < |body| ==> s[i] == body[i];
    PadAt(s, |body|);
  }

  // The decoder at the padding.
  lemma DecodedAt(s: seq<byte>, body: seq<byte>)
    requires FirstPad(s) == |body| < |s| && s[..|body|] == body && AllPlain(body)
    ensures var sx := Sextets(body);
            Decoded(s) == if Fits(|sx|, |s|) && TailOk(s, |body|, |sx| % 4) && Regroup(sx).left == 0
                          then Some(Regroup(sx).octets) else None
  {
  }

  /** Text with its proper padding is refused if anything at all follows it, be it a line break. */
  lemma NothingMayFollowPadding(body: seq<byte>, n: nat, more: seq<byte>)
    requires AllPlain(body) && 0 < n <= 2 && |Sextets(body)| % 4 == 4 - n && more != []
    ensures Decoded(body + Equals(n) + more) == None
  {
    var s := body + Equals(n) + more;
    PaddedThen(body, n, more);
    DecodedAt(s, body);
    assert n == 2 ==> s[|body| + 1] == PAD;
  }

  // Padding after whole groups is refused, whatever follows it.
  lemma PaddingAfterGroups(body: seq<byte>, n: nat, more: seq<byte>)
    requires AllPlain(body) && 0 < n && |Sextets(body)| % 4 == 0
    ensures Decoded(body + Equals(n) + more) == None
  {
    PaddedThen(body, n, more);
    DecodedAt(body + Equals(n) + more, body);
  }

  lemma {:induction false} BlankSextets(ws: seq<byte>)
    requires forall i :: 0 <= i < |ws| ==> IsSpace(ws[i])
    ensures Sextets(ws) == [] && AllPlain(ws)
  {
    if ws != [] { BlankSextets(ws[..|ws| - 1]); }
  }

  // Whole groups may be followed by white space.
  lemma BlanksAfterGroups(text: seq<byte>, ws: seq<byte>, k: nat, x: seq<byte>)
    requires AllPlain(text) && |Sextets(text)| == 4 * k <= |text| && DecodesTo(Sextets(text), x)
    requires forall i :: 0 <= i < |ws| ==> IsSpace(ws[i])
    ensures Decoded(text + Equals(0) + ws) == Some(x)
  {
    BlankSextets(ws);
    SextetsJoin(text, ws);
    assert Sextets(text) + [] == Sextets(text);
    Accepted(text + ws, 0, k, x);
    assert text + Equals(0) + ws == text + ws + Equals(0);
  }

  lemma BlanksAfterWhole(x: seq<byte>, k: nat, breaks: bool, ws: seq<byte>)
    requires |x| == 3 * k && forall i :: 0 <= i < |ws| ==> IsSpace(ws[i])
    ensures Decoded(Encoded(x, breaks) + ws) == Some(x)
  {
    EncodedWhole(x, k, breaks);
    TextLength(x, k, breaks);
    TextPlain(x, k, breaks);
    TextDecodes(x, k, breaks);
    assert x[..3 * k] == x;
    BlanksAfterGroups(Text(x, k, breaks), ws, k, x);
  }

  lemma BlanksAfterPadding(x: seq<byte>, k: nat, breaks: bool, ws: seq<byte>)
    requires 3 * k < |x| < 3 * k + 3 && ws != []
    ensures Decoded(Encoded(x, breaks) + ws) == None
  {
    if PaddingHitsBreak(|x|, breaks) {
      EncodedOverBreak(x, k);
      WholeBeforePadding(x, k, if |x| == 3 * k + 1 then [] else [13]);
      GroupArithmetic(k + 1, 0, 4 * k + 4);
      PaddingAfterGroups(Text(x, k, true) + Quad(x, k) + (if |x| == 3 * k + 1 then [] else [13]), 3 * k + 3 - |x|, ws);
    } else {
      EncodedPartial(x, k, breaks);
      PartialGroup(x, k, breaks);
      GroupArithmetic(k + 1, 3 * k + 3 - |x|, 4 * k + 4);
      NothingMayFollowPadding(Text(x, k, breaks) + Quad(x, k)[..|x| - 3 * k + 1], 3 * k + 3 - |x|, ws);
    }
  }

  /** White space after the encoder's output is harmless exactly when the output has no padding. */
  lemma BlanksAfterEncoded(x: seq<byte>, breaks: bool, ws: seq<byte>)
    requires ws != [] && forall i :: 0 <= i < |ws| ==> IsSpace(ws[i])
    ensures Decoded(Encoded(x, breaks) + ws) == if |x| % 3 == 0 then Some(x) else None
    ensures Decoded(Encoded(x, breaks) + ws) == Some(x) <==> |x| % 3 == 0
  {
    var k := |x| / 3;
    if |x| == 3 * k { BlanksAfterWhole(x, k, breaks, ws); } else { BlanksAfterPadding(x, k, breaks, ws); }
  }

  /** For instance, a letter in place of the second padding character. */
  lemma SecondPaddingUnseen()
    ensures Decoded([81, 81, PAD, 65]) == Some([65])
  {
    var s: seq<byte> := [81, 81, PAD, 65];
    PadAt(s, 2);
    assert s[..2] == [81, 81];
    TwoCharacters();
  }

  lemma BlankText()
    ensures Sextets([32, 32]) == []
  {
    var s: seq<byte> := [32, 32];
    assert s[..1] == [32] && s[..1][..0] == [];
  }

  lemma PadAt(s: seq<byte>, p: nat)
    requires p < |s| && s[p] == PAD && forall i :: 0 <= i < p ==> s[i] != PAD
    ensures FirstPad(s) == p
  {
  }

  // Two characters are one octet, here without bits left over.
  lemma TwoCharacters()
    ensures Sextets([81, 81]) == [16, 16] && Regroup([16, 16]) == Output([65], 0)
  {
    var s: seq<byte>, none: seq<byte> := [81, 81], [];
    assert s[..1] == [81] && s[..1][..0] == none;
    assert Sextets(s[..1]) == [16];
    RegroupAdd(none, 16);
    RegroupAdd([16], 16);
    assert none + [16] == [16] && [16] + [16] == [16, 16];
  }

  // With two octets missing there are two padding characters.
  lemma PaddedStaysInside(body: seq<byte>, n: nat)
    requires AllPlain(body) && n <= 2 && (|Sextets(body)| % 4 == 2 ==> n == 2)
    ensures !ReadsPastEnd(body + Equals(n))
  {
    PadFound(body, n);
  }

  /** On what the encoder produces, with or without breaks, the decoder stays inside its input. */
  lemma EncodedStaysInside(x: seq<byte>, breaks: bool)
    ensures !ReadsPastEnd(Encoded(x, breaks))
  {
    var k := |x| / 3;
    if |x| == 3 * k {
      EncodedWhole(x, k, breaks);
      TextPlain(x, k, breaks);
      PaddedStaysInside(Text(x, k, breaks), 0);
    } else if PaddingHitsBreak(|x|, breaks) {
      OverBreakStaysInside(x, k);
    } else {
      PartialStaysInside(x, k, breaks);
    }
  }

  lemma OverBreakStaysInside(x: seq<byte>, k: nat)
    requires 3 * k < |x| < 3 * k + 3 && PaddingHitsBreak(|x|, true)
    ensures !ReadsPastEnd(Encoded(x, true))
  {
    EncodedOverBreak(x, k);
    WholeBeforePadding(x, k, if |x| == 3 * k + 1 then [] else [13]);
    GroupArithmetic(k + 1, 0, 4 * k + 4);
    PaddedStaysInside(Text(x, k, true) + Quad(x, k) + (if |x| == 3 * k + 1 then [] else [13]), 3 * k + 3 - |x|);
  }

  lemma PartialStaysInside(x: seq<byte>, k: nat, breaks: bool)
    requires 3 * k < |x| < 3 * k + 3 && !PaddingHitsBreak(|x|, breaks)
    ensures !ReadsPastEnd(Encoded(x, breaks))
  {
    EncodedPartial(x, k, breaks);
    PartialGroup(x, k, breaks);
    GroupArithmetic(k + 1, 3 * k + 3 - |x|, 4 * k + 4);
    PaddedStaysInside(Text(x, k, breaks) + Quad(x, k)[..|x| - 3 * k + 1], 3 * k + 3 - |x|);
  }

  // ---------------------------------------------------------------- the URL alphabet

  function ToUrl(c: byte): byte { if c == 43 then 45 else if c == 47 then 95 else c }

  function FromUrl(c: byte): byte { if c == 45 then 43 else if c == 95 then 47 else c }

  // The alphabet of section 5 of RFC 4648.
  const URL_ALPHABET := "ABCDEFGHIJKLMNOPQRSTUVWXYZ" + "abcdefghijklmnopqrstuvwxyz" + "0123456789-_"

  /** The URL encoder writes the URL alphabet and leaves padding and line breaks alone. */
  lemma ToUrlIsAlphabet(s: Sextet, c: byte)
    ensures |URL_ALPHABET| == 64 && ToUrl(EncodeSextet(s)) == URL_ALPHABET[s] as int
    ensures c as char in "=\r\n" ==> ToUrl(c) == c
  {
    if s < 26 { assert URL_ALPHABET[s] == "ABCDEFGHIJKLMNOPQRSTUVWXYZ"[s]; }
    else if s < 52 { assert URL_ALPHABET[s] == "abcdefghijklmnopqrstuvwxyz"[s - 26]; }
    else { assert URL_ALPHABET[s] == "0123456789-_"[s - 52]; }
  }

  /** The URL decoder gives each character its position in the URL alphabet, or in the standard one, which it also
      accepts, and 255 to all others; it moves no white space and no padding. */
  lemma FromUrlIsPosition(c: byte, s: Sextet)
    ensures |URL_ALPHABET| == |ALPHABET| == 64
    ensures DecodeChar(FromUrl(c)) == s <==> URL_ALPHABET[s] as int == c || ALPHABET[s] as int == c
    ensures (IsSpace(FromUrl(c)) <==> IsSpace(c)) && (FromUrl(c) == PAD <==> c == PAD)
  {
    ToUrlIsAlphabet(s, c);
    EncodeSextetIsAlphabet(s);
    AlphabetRoundTrip(s);
    if DecodeChar(FromUrl(c)) != 255 { AlphabetRoundTrip(DecodeChar(FromUrl(c))); }
  }

  function ToUrlText(s: seq<byte>): seq<byte> { seq(|s|, i requires 0 <= i < |s| => ToUrl(s[i])) }

  function FromUrlText(s: seq<byte>): seq<byte> { seq(|s|, i requires 0 <= i < |s| => FromUrl(s[i])) }

  method UrlEncode(x: seq<byte>, breaks: bool) returns (r: seq<byte>)
    ensures r == ToUrlText(Encoded(x, breaks))
  {
    var text := Encode(x, breaks);
    var a := new byte[|text|](i requires 0 <= i < |text| => text[i]);
    for i := 0 to |text|
      invariant forall j :: 0 <= j < |text| ==> a[j] == if j < i then ToUrl(text[j]) else text[j]
    {
      if a[i] == 43 { a[i] := 45; } else if a[i] == 47 { a[i] := 95; }
    }
    return a[..];
  }

  method UrlDecode(data: seq<byte>) returns (r: Option<seq<byte>>)
    ensures r == Decoded(FromUrlText(data))
  {
    var a := new byte[|data|](i requires 0 <= i < |data| => data[i]);
    for i := 0 to |data|
      invariant forall j :: 0 <= j < |data| ==> a[j] == if j < i then FromUrl(data[j]) else data[j]
    {
      if a[i] == 45 { a[i] := 43; } else if a[i] == 95 { a[i] := 47; }
    }
    assert a[..] == FromUrlText(data);
    ghost var past;
    r, past := Decode(a[..]);
  }

  // Encoded text holds neither of the two URL characters.
  lemma EncodedIsStandard(x: seq<byte>, breaks: bool)
    ensures forall i :: 0 <= i < |Encoded(x, breaks)| ==> Plain(Encoded(x, breaks)[i]) || Encoded(x, breaks)[i] == PAD
  {
    TextLength(x, Groups(|x|), breaks);
    TextAllPlain(x, Groups(|x|), breaks);
  }

  /** The URL variants satisfy the same round trip, and their text avoids '+' and '/'. */
  lemma UrlRoundTrip(x: seq<byte>, breaks: bool)
    ensures Decoded(FromUrlText(ToUrlText(Encoded(x, breaks)))) ==
            if PaddingHitsBreak(|x|, breaks) then None else Some(x)
    ensures forall c :: c in ToUrlText(Encoded(x, breaks)) ==> c != 43 && c != 47
  {
    EncodedIsStandard(x, breaks);
    assert FromUrlText(ToUrlText(Encoded(x, breaks))) == Encoded(x, breaks);
    RoundTrip(x, breaks);
  }
}
