/**
 * The free-text normaliser the remessa builder applies to names, addresses
 * and tax ids before they go into a record. PHP strings are byte strings,
 * so everything here works on bytes: trimming, folding of accented Latin
 * letters (as UTF-8, converting Latin-1 input first), ASCII upper-casing
 * and the removal of a caller-chosen set of bytes.
 */
module TextNormalizer {
  import opened Wrappers

  type Byte = b: int | 0 <= b < 0x100
  type Bytes = seq<Byte>

  const LEAD_C3: Byte := 0xC3

  // ---------------------------------------------------------------------
  // trim

  /** The bytes PHP's trim strips by default: space, \t, \n, \r, \0 and \x0B. */
  predicate IsTrimByte(b: Byte) {
    b == 0x20 || b == 0x09 || b == 0x0A || b == 0x0D || b == 0x00 || b == 0x0B
  }

  /** ltrim: drops the leading trim bytes. */
  function TrimStart(s: Bytes): (r: Bytes)
    ensures |r| <= |s|
    ensures r == [] || !IsTrimByte(r[0])
  {
    if s == [] || !IsTrimByte(s[0]) then s else TrimStart(s[1..])
  }

  /** What ltrim drops is a prefix of trim bytes: the rest is a suffix of s. */
  lemma {:induction false} TrimStartDropsPrefix(s: Bytes)
    ensures TrimStart(s) == s[|s| - |TrimStart(s)|..]
    ensures forall i :: 0 <= i < |s| - |TrimStart(s)| ==> IsTrimByte(s[i])
    decreases |s|
  {
    if s != [] && IsTrimByte(s[0]) {
      TrimStartDropsPrefix(s[1..]);
    }
  }

  /** rtrim: drops the trailing trim bytes. */
  function TrimEnd(s: Bytes): (r: Bytes)
    ensures |r| <= |s|
    ensures r == [] || !IsTrimByte(r[|r| - 1])
  {
    if s == [] || !IsTrimByte(s[|s| - 1]) then s else TrimEnd(s[..|s| - 1])
  }

  /** What rtrim drops is a suffix of trim bytes: the rest is a prefix of s. */
  lemma {:induction false} TrimEndDropsSuffix(s: Bytes)
    ensures TrimEnd(s) == s[..|TrimEnd(s)|]
    ensures forall i :: |TrimEnd(s)| <= i < |s| ==> IsTrimByte(s[i])
    decreases |s|
  {
    if s != [] && IsTrimByte(s[|s| - 1]) {
      TrimEndDropsSuffix(s[..|s| - 1]);
    }
  }

  /** trim: both ends; the result has no trim byte at either end (TrimIsFactor: it is a factor of s). */
  function Trim(s: Bytes): (r: Bytes)
    ensures |r| <= |s|
    ensures r == [] || (!IsTrimByte(r[0]) && !IsTrimByte(r[|r| - 1]))
  {
    TrimEndDropsSuffix(TrimStart(s));
    TrimEnd(TrimStart(s))
  }

  /** trim keeps a factor of s and drops only trim bytes on either side of it. */
  lemma TrimIsFactor(s: Bytes)
    ensures var k := |s| - |TrimStart(s)|;
            k + |Trim(s)| <= |s|
            && Trim(s) == s[k..k + |Trim(s)|]
            && (forall i :: 0 <= i < k ==> IsTrimByte(s[i]))
            && (forall i :: k + |Trim(s)| <= i < |s| ==> IsTrimByte(s[i]))
  {
    TrimStartDropsPrefix(s);
    TrimEndDropsSuffix(TrimStart(s));
    var k := |s| - |TrimStart(s)|;
    forall i | k + |Trim(s)| <= i < |s|
      ensures IsTrimByte(s[i])
    {
      assert s[i] == TrimStart(s)[i - k];
    }
  }

  // ---------------------------------------------------------------------
  // strtoupper: ASCII letters only, every other byte as it is

  predicate IsLowerAscii(b: Byte) { 0x61 <= b <= 0x7A }

  function UpperByte(b: Byte): Byte {
    if IsLowerAscii(b) then b - 0x20 else b
  }

  function ToUpper(s: Bytes): (r: Bytes)
    ensures |r| == |s|
    ensures forall i :: 0 <= i < |r| ==> !IsLowerAscii(r[i])
    ensures forall i :: 0 <= i < |s| && !IsLowerAscii(s[i]) ==> r[i] == s[i]
    ensures forall i :: 0 <= i < |s| && IsLowerAscii(s[i]) ==> r[i] == s[i] - 0x20
  {
    if s == [] then [] else [UpperByte(s[0])] + ToUpper(s[1..])
  }

  // ---------------------------------------------------------------------
  // isUtf8: the grammar of well-formed UTF-8 (section 4 of RFC 3629), with
  // the one-byte range restricted to tab, LF, CR and 0x20-0x7E

  predicate IsAllowedAscii(b: Byte) {
    b == 0x09 || b == 0x0A || b == 0x0D || (0x20 <= b <= 0x7E)
  }

  predicate IsContinuation(b: Byte) { 0x80 <= b <= 0xBF }

  /** One repetition of the grammar: its eight alternatives. */
  predicate IsWellFormedUnit(u: Bytes) {
    || (|u| == 1 && IsAllowedAscii(u[0]))
    || (|u| == 2 && 0xC2 <= u[0] <= 0xDF && IsContinuation(u[1]))
    || (|u| == 3 && u[0] == 0xE0 && 0xA0 <= u[1] <= 0xBF && IsContinuation(u[2]))
    || (|u| == 3 && (0xE1 <= u[0] <= 0xEC || u[0] == 0xEE || u[0] == 0xEF)
          && IsContinuation(u[1]) && IsContinuation(u[2]))
    || (|u| == 3 && u[0] == 0xED && 0x80 <= u[1] <= 0x9F && IsContinuation(u[2]))
    || (|u| == 4 && u[0] == 0xF0 && 0x90 <= u[1] <= 0xBF
          && IsContinuation(u[2]) && IsContinuation(u[3]))
    || (|u| == 4 && 0xF1 <= u[0] <= 0xF3
          && IsContinuation(u[1]) && IsContinuation(u[2]) && IsContinuation(u[3]))
    || (|u| == 4 && u[0] == 0xF4 && 0x80 <= u[1] <= 0x8F
          && IsContinuation(u[2]) && IsContinuation(u[3]))
  }

  /** The length of the unit a lead byte announces; 0 when no alternative starts with it. */
  function UnitLength(lead: Byte): nat {
    if IsAllowedAscii(lead) then 1
    else if 0xC2 <= lead <= 0xDF then 2
    else if 0xE0 <= lead <= 0xEF then 3
    else if 0xF0 <= lead <= 0xF4 then 4
    else 0
  }

  /** The anchored, repeated match of the grammar, read unit by unit from the left. */
  predicate IsUtf8(s: Bytes)
    decreases |s|
  {
    s == [] ||
    (var n := UnitLength(s[0]);
     0 < n <= |s| && IsWellFormedUnit(s[..n]) && IsUtf8(s[n..]))
  }

  function Concat(us: seq<Bytes>): (s: Bytes)
    decreases |us|
  {
    if us == [] then [] else us[0] + Concat(us[1..])
  }

  predicate AllWellFormed(us: seq<Bytes>) {
    forall i :: 0 <= i < |us| ==> IsWellFormedUnit(us[i])
  }

  /** The grammar read as a language: concatenations of well-formed units. */
  ghost predicate IsUnitSequence(s: Bytes) {
    exists us :: AllWellFormed(us) && Concat(us) == s
  }

  /** The lead byte of a well-formed unit announces exactly its length. */
  lemma {:induction false} UnitLengthOfWellFormed(u: Bytes)
    requires IsWellFormedUnit(u)
    ensures |u| > 0 && UnitLength(u[0]) == |u|
  {
  }

  /** The split of a well-formed string into units. */
  function Units(s: Bytes): (us: seq<Bytes>)
    requires IsUtf8(s)
    ensures AllWellFormed(us) && Concat(us) == s
    decreases |s|
  {
    if s == [] then []
    else
      var n := UnitLength(s[0]);
      assert s == s[..n] + s[n..];
      [s[..n]] + Units(s[n..])
  }

  lemma {:induction false} ConcatOfUnitsIsUtf8(us: seq<Bytes>)
    requires AllWellFormed(us)
    ensures IsUtf8(Concat(us))
    decreases |us|
  {
    if us != [] {
      var s := Concat(us);
      UnitLengthOfWellFormed(us[0]);
      var n := |us[0]|;
      assert s[..n] == us[0];
      assert s[n..] == Concat(us[1..]);
      assert AllWellFormed(us[1..]) by {
        forall i | 0 <= i < |us| - 1 ensures IsWellFormedUnit(us[1..][i]) {
          assert us[1..][i] == us[i + 1];
        }
      }
      ConcatOfUnitsIsUtf8(us[1..]);
    }
  }

  /** isUtf8 accepts exactly the concatenations of well-formed units. */
  lemma {:induction false} IsUtf8Iff(s: Bytes)
    ensures IsUtf8(s) <==> IsUnitSequence(s)
  {
    if IsUtf8(s) {
      var us := Units(s);
      assert AllWellFormed(us) && Concat(us) == s;
    }
    if IsUnitSequence(s) {
      var us :| AllWellFormed(us) && Concat(us) == s;
      ConcatOfUnitsIsUtf8(us);
    }
  }

  // ---------------------------------------------------------------------
  // utf8_encode: Latin-1 to UTF-8

  function EncodeLatin1(b: Byte): (u: Bytes) {
    if b < 0x80 then [b] else [0xC0 + b / 0x40, 0x80 + b % 0x40]
  }

  function Utf8Encode(s: Bytes): (r: Bytes)
    ensures |s| <= |r| <= 2 * |s|
    decreases |s|
  {
    if s == [] then [] else EncodeLatin1(s[0]) + Utf8Encode(s[1..])
  }

  /** The inverse of Utf8Encode on its image. */
  function Utf8DecodeLatin1(s: Bytes): Option<Bytes>
    decreases |s|
  {
    if s == [] then Some([])
    else if s[0] < 0x80 then
      match Utf8DecodeLatin1(s[1..])
      case Some(rest) => Some([s[0]] + rest)
      case None => None
    else if (s[0] == 0xC2 || s[0] == 0xC3) && |s| >= 2 && IsContinuation(s[1]) then
      match Utf8DecodeLatin1(s[2..])
      case Some(rest) => Some([(s[0] - 0xC0) * 0x40 + (s[1] - 0x80)] + rest)
      case None => None
    else None
  }

  lemma {:induction false} Utf8EncodeRoundTrip(s: Bytes)
    ensures Utf8DecodeLatin1(Utf8Encode(s)) == Some(s)
    decreases |s|
  {
    if s != [] {
      Utf8EncodeRoundTrip(s[1..]);
      DecodeUnit(s[0], Utf8Encode(s[1..]), s[1..]);
      assert [s[0]] + s[1..] == s;
    }
  }

  /** Decoding one encoded byte in front of a decodable text. */
  lemma {:induction false} DecodeUnit(b: Byte, t: Bytes, r: Bytes)
    requires Utf8DecodeLatin1(t) == Some(r)
    ensures Utf8DecodeLatin1(EncodeLatin1(b) + t) == Some([b] + r)
  {
    var e := EncodeLatin1(b) + t;
    if b >= 0x80 {
      assert e[0] == 0xC0 + b / 0x40 && e[1] == 0x80 + b % 0x40;
      assert e[2..] == t;
      assert (e[0] - 0xC0) * 0x40 + (e[1] - 0x80) == b;
    } else {
      assert e[0] == b && e[1..] == t;
    }
  }


  /** Latin-1 text without control bytes becomes well-formed UTF-8. */
  lemma {:induction false} Utf8EncodeIsUtf8(s: Bytes)
    requires forall i :: 0 <= i < |s| ==> IsAllowedAscii(s[i]) || s[i] >= 0x80
    ensures IsUtf8(Utf8Encode(s))
    decreases |s|
  {
    if s != [] {
      var e := Utf8Encode(s);
      var u := EncodeLatin1(s[0]);
      assert e == u + Utf8Encode(s[1..]);
      assert IsWellFormedUnit(u);
      UnitLengthOfWellFormed(u);
      assert e[..|u|] == u;
      assert e[|u|..] == Utf8Encode(s[1..]);
      Utf8EncodeIsUtf8(s[1..]);
    }
  }

  // ---------------------------------------------------------------------
  // removeAccents: twelve patterns \xC3<class>, applied one after the other

  const PATTERN_COUNT: nat := 12

  /** The second bytes pattern k matches after 0xC3. */
  predicate InAccentClass(k: nat, b: Byte) {
    match k
    case 0 => 0x80 <= b <= 0x85
    case 1 => b == 0x87
    case 2 => 0x88 <= b <= 0x8B
    case 3 => 0x8C <= b <= 0x8F
    case 4 => (0x92 <= b <= 0x96) || b == 0x98
    case 5 => 0x99 <= b <= 0x9C
    case 6 => 0xA0 <= b <= 0xA5
    case 7 => b == 0xA7
    case 8 => 0xA8 <= b <= 0xAB
    case 9 => 0xAC <= b <= 0xAF
    case 10 => (0xB2 <= b <= 0xB6) || b == 0xB8
    case 11 => 0xB9 <= b <= 0xBC
    case _ => false
  }

  /** The replacements, 'ACEIOUaceiou'. */
  const ACCENT_LETTERS: Bytes := [0x41, 0x43, 0x45, 0x49, 0x4F, 0x55, 0x61, 0x63, 0x65, 0x69, 0x6F, 0x75]

  /** preg_replace of pattern k: every match, left to right, becomes its letter. */
  function ReplacePattern(s: Bytes, k: nat): (r: Bytes)
    requires k < PATTERN_COUNT
    ensures |r| <= |s|
    ensures s != [] ==> r != []
    decreases |s|
  {
    if |s| < 2 then s
    else if s[0] == LEAD_C3 && InAccentClass(k, s[1]) then [ACCENT_LETTERS[k]] + ReplacePattern(s[2..], k)
    else [s[0]] + ReplacePattern(s[1..], k)
  }

  /** Patterns k, k + 1, ..., 11 applied in turn, each to the previous result. */
  function ReplacePatternsFrom(s: Bytes, k: nat): (r: Bytes)
    requires k <= PATTERN_COUNT
    ensures |r| <= |s|
    decreases PATTERN_COUNT - k, s
  {
    if k == PATTERN_COUNT then s else ReplacePatternsFrom(ReplacePattern(s, k), k + 1)
  }

  /**
   * removeAccents: the input is taken as UTF-8 when it is well formed and
   * converted from Latin-1 otherwise, then the twelve patterns run.
   */
  function RemoveAccents(s: Bytes): (r: Bytes)
    ensures IsUtf8(s) ==> |r| <= |s|
  {
    ReplacePatternsFrom(if IsUtf8(s) then s else Utf8Encode(s), 0)
  }

  /** The first pattern at or after k that matches second byte b. */
  function ClassFrom(b: Byte, k: nat): (j: Option<nat>)
    requires k <= PATTERN_COUNT
    ensures j.Some? ==> k <= j.value < PATTERN_COUNT && InAccentClass(j.value, b)
    ensures j.None? ==> forall i :: k <= i < PATTERN_COUNT ==> !InAccentClass(i, b)
    decreases PATTERN_COUNT - k
  {
    if k == PATTERN_COUNT then None
    else if InAccentClass(k, b) then Some(k)
    else ClassFrom(b, k + 1)
  }

  /** A single left-to-right scan folding every listed accented letter of patterns k..11. */
  function FoldFrom(s: Bytes, k: nat): (r: Bytes)
    requires k <= PATTERN_COUNT
    decreases |s|
  {
    if |s| < 2 then s
    else if s[0] == LEAD_C3 && ClassFrom(s[1], k).Some? then
      [ACCENT_LETTERS[ClassFrom(s[1], k).value]] + FoldFrom(s[2..], k)
    else [s[0]] + FoldFrom(s[1..], k)
  }

  /** The reference: one scan over the whole accent table. */
  function FoldAccents(s: Bytes): (r: Bytes) {
    FoldFrom(s, 0)
  }

  lemma {:induction false} FoldFromCons(a: Byte, x: Bytes, k: nat)
    requires k <= PATTERN_COUNT
    ensures a != LEAD_C3 || x == [] || ClassFrom(x[0], k).None? ==>
              FoldFrom([a] + x, k) == [a] + FoldFrom(x, k)
    ensures a == LEAD_C3 && x != [] && ClassFrom(x[0], k).Some? ==>
              FoldFrom([a] + x, k) == [ACCENT_LETTERS[ClassFrom(x[0], k).value]] + FoldFrom(x[1..], k)
  {
    var s := [a] + x;
    if x != [] {
      assert s[1..] == x;
      assert s[2..] == x[1..];
    }
  }

  /** No replacement letter is the second byte of an accented letter. */
  lemma {:induction false} LetterInNoClass(j: nat, m: nat)
    requires j < PATTERN_COUNT && m <= PATTERN_COUNT
    ensures ClassFrom(ACCENT_LETTERS[j], m).None?
  {
  }

  /** Pattern k's output starts with the input's first byte or with its letter. */
  lemma {:induction false} ReplacePatternHead(s: Bytes, k: nat)
    requires k < PATTERN_COUNT && s != []
    ensures ReplacePattern(s, k)[0] == s[0] || ReplacePattern(s, k)[0] == ACCENT_LETTERS[k]
  {
  }

  /** The case where pattern k itself matches at the front. */
  lemma {:induction false} ReplaceThenFoldMatch(s: Bytes, k: nat)
    requires k < PATTERN_COUNT && |s| >= 2 && s[0] == LEAD_C3 && InAccentClass(k, s[1])
    requires FoldFrom(ReplacePattern(s[2..], k), k + 1) == FoldFrom(s[2..], k)
    ensures FoldFrom(ReplacePattern(s, k), k + 1) == FoldFrom(s, k)
  {
    LetterInNoClass(k, k + 1);
    FoldFromCons(ACCENT_LETTERS[k], ReplacePattern(s[2..], k), k + 1);
  }

  /** The case where a later pattern matches at the front. */
  lemma {:induction false} ReplaceThenFoldLater(s: Bytes, k: nat)
    requires k < PATTERN_COUNT && |s| >= 2 && s[0] == LEAD_C3 && !InAccentClass(k, s[1])
    requires ClassFrom(s[1], k + 1).Some?
    requires FoldFrom(ReplacePattern(s[2..], k), k + 1) == FoldFrom(s[2..], k)
    ensures FoldFrom(ReplacePattern(s, k), k + 1) == FoldFrom(s, k)
  {
    LaterShape(s, k);
    FoldFromLeadCons(s[1], ReplacePattern(s[2..], k), k + 1);
  }

  /** Pattern k keeps both front bytes, and the scan from k folds them to a later pattern's letter. */
  lemma {:induction false} LaterShape(s: Bytes, k: nat)
    requires k < PATTERN_COUNT && |s| >= 2 && s[0] == LEAD_C3 && !InAccentClass(k, s[1])
    requires ClassFrom(s[1], k + 1).Some?
    ensures ReplacePattern(s, k) == [LEAD_C3] + ([s[1]] + ReplacePattern(s[2..], k))
    ensures FoldFrom(s, k) == [ACCENT_LETTERS[ClassFrom(s[1], k + 1).value]] + FoldFrom(s[2..], k)
  {
    ReplacePatternKeep(s, k);
    ClassByteIsNotLead(s[1], k + 1);
    assert s[1..][1..] == s[2..];
    ReplacePatternKeep(s[1..], k);
    ClassFromSkip(s[1], k);
    FoldFromMatchAt(s, k);
  }

  /** 0xC3 followed by a byte of a later pattern folds to that pattern's letter. */
  lemma {:induction false} FoldFromLeadCons(b: Byte, y: Bytes, k: nat)
    requires k <= PATTERN_COUNT && ClassFrom(b, k).Some?
    ensures FoldFrom([LEAD_C3] + ([b] + y), k) == [ACCENT_LETTERS[ClassFrom(b, k).value]] + FoldFrom(y, k)
  {
    var x := [b] + y;
    FoldFromCons(LEAD_C3, x, k);
    assert x[0] == b && x[1..] == y;
  }

  /** The scan folds a matching accented letter at the front. */
  lemma {:induction false} FoldFromMatchAt(s: Bytes, k: nat)
    requires k <= PATTERN_COUNT && |s| >= 2 && s[0] == LEAD_C3 && ClassFrom(s[1], k).Some?
    ensures FoldFrom(s, k) == [ACCENT_LETTERS[ClassFrom(s[1], k).value]] + FoldFrom(s[2..], k)
  {
  }

  /** Where pattern k does not match at the front, its first byte is kept. */
  lemma {:induction false} ReplacePatternKeep(s: Bytes, k: nat)
    requires k < PATTERN_COUNT && s != []
    requires !(|s| >= 2 && s[0] == LEAD_C3 && InAccentClass(k, s[1]))
    ensures ReplacePattern(s, k) == [s[0]] + ReplacePattern(s[1..], k)
  {
    if |s| < 2 {
      assert s == [s[0]] && s[1..] == [];
    }
  }

  /** The search for a matching pattern from k skips k when k does not match. */
  lemma {:induction false} ClassFromSkip(b: Byte, k: nat)
    requires k < PATTERN_COUNT && !InAccentClass(k, b)
    ensures ClassFrom(b, k) == ClassFrom(b, k + 1)
  {
  }


  /** A second byte that some pattern matches is never 0xC3 itself. */
  lemma {:induction false} ClassByteIsNotLead(b: Byte, k: nat)
    requires k <= PATTERN_COUNT && ClassFrom(b, k).Some?
    ensures b != LEAD_C3
  {
    var j := ClassFrom(b, k).value;
    assert InAccentClass(j, b);
  }

  /** The case where nothing matches at the front: the first byte is kept. */
  lemma {:induction false} ReplaceThenFoldKeep(s: Bytes, k: nat)
    requires k < PATTERN_COUNT && |s| >= 2
    requires !(s[0] == LEAD_C3 && ClassFrom(s[1], k).Some?)
    requires FoldFrom(ReplacePattern(s[1..], k), k + 1) == FoldFrom(s[1..], k)
    ensures FoldFrom(ReplacePattern(s, k), k + 1) == FoldFrom(s, k)
  {
    var x := ReplacePattern(s[1..], k);
    assert ReplacePattern(s, k) == [s[0]] + x;
    if s[0] == LEAD_C3 {
      ReplacePatternHead(s[1..], k);
      LetterInNoClass(k, k + 1);
      assert ClassFrom(x[0], k + 1).None?;
    }
    FoldFromCons(s[0], x, k + 1);
  }

  /** Running pattern k and then the scan over k + 1.. is the scan over k... */
  lemma {:induction false} ReplaceThenFold(s: Bytes, k: nat)
    requires k < PATTERN_COUNT
    ensures FoldFrom(ReplacePattern(s, k), k + 1) == FoldFrom(s, k)
    decreases |s|
  {
    if |s| >= 2 {
      if s[0] == LEAD_C3 && InAccentClass(k, s[1]) {
        ReplaceThenFold(s[2..], k);
        ReplaceThenFoldMatch(s, k);
      } else if s[0] == LEAD_C3 && ClassFrom(s[1], k + 1).Some? {
        ReplaceThenFold(s[2..], k);
        ReplaceThenFoldLater(s, k);
      } else {
        ReplaceThenFold(s[1..], k);
        ReplaceThenFoldKeep(s, k);
      }
    }
  }

  lemma {:induction false} PatternsFromAreFold(s: Bytes, k: nat)
    requires k <= PATTERN_COUNT
    ensures ReplacePatternsFrom(s, k) == FoldFrom(s, k)
    decreases PATTERN_COUNT - k
  {
    if k == PATTERN_COUNT {
      NothingToFold(s);
    } else {
      PatternsFromAreFold(ReplacePattern(s, k), k + 1);
      ReplaceThenFold(s, k);
    }
  }

  lemma {:induction false} NothingToFold(s: Bytes)
    ensures FoldFrom(s, PATTERN_COUNT) == s
    decreases |s|
  {
    if |s| >= 2 {
      NothingToFold(s[1..]);
      assert s == [s[0]] + s[1..];
    }
  }

  /** The twelve passes of removeAccents fold exactly like one scan over the table. */
  lemma {:induction false} RemoveAccentsIsFold(s: Bytes)
    ensures RemoveAccents(s) == FoldAccents(if IsUtf8(s) then s else Utf8Encode(s))
  {
    PatternsFromAreFold(if IsUtf8(s) then s else Utf8Encode(s), 0);
  }

  /** A byte that follows 0xC3 in one of the accented letters of the table. */
  predicate IsAccentByte(b: Byte) {
    ClassFrom(b, 0).Some?
  }

  /** No listed accented letter (0xC3 followed by a table byte) occurs in r. */
  predicate NoAccentedLetter(r: Bytes) {
    forall i :: 0 <= i < |r| - 1 ==> !(r[i] == LEAD_C3 && IsAccentByte(r[i + 1]))
  }

  /** The scan's first byte is the input's first byte or a replacement letter. */
  lemma {:induction false} FoldHead(s: Bytes)
    requires s != []
    ensures FoldAccents(s) != []
    ensures FoldAccents(s)[0] == s[0] || FoldAccents(s)[0] in ACCENT_LETTERS
  {
  }

  /** Putting a byte in front keeps a text free of accented letters unless it starts a new one. */
  lemma {:induction false} ConsKeepsNoAccent(a: Byte, t: Bytes)
    requires NoAccentedLetter(t)
    requires a != LEAD_C3 || t == [] || !IsAccentByte(t[0])
    ensures NoAccentedLetter([a] + t)
  {
    var r := [a] + t;
    forall i | 0 <= i < |r| - 1 ensures !(r[i] == LEAD_C3 && IsAccentByte(r[i + 1])) {
      if i > 0 { assert r[i] == t[i - 1] && r[i + 1] == t[i]; }
    }
  }

  /** After the fold no accented letter of the table is left. */
  lemma {:induction false} FoldLeavesNoAccent(s: Bytes)
    ensures NoAccentedLetter(FoldAccents(s))
    decreases |s|
  {
    if |s| >= 2 {
      if s[0] == LEAD_C3 && IsAccentByte(s[1]) {
        FoldLeavesNoAccent(s[2..]);
        var j := ClassFrom(s[1], 0).value;
        assert FoldAccents(s) == [ACCENT_LETTERS[j]] + FoldAccents(s[2..]);
        ConsKeepsNoAccent(ACCENT_LETTERS[j], FoldAccents(s[2..]));
      } else {
        FoldLeavesNoAccent(s[1..]);
        var t := FoldAccents(s[1..]);
        assert FoldAccents(s) == [s[0]] + t;
        FoldHead(s[1..]);
        if s[0] == LEAD_C3 && t[0] != s[1] {
          var j :| 0 <= j < PATTERN_COUNT && t[0] == ACCENT_LETTERS[j];
          LetterInNoClass(j, 0);
        }
        ConsKeepsNoAccent(s[0], t);
      }
    }
  }

  /** removeAccents leaves no listed accented letter in its output. */
  lemma {:induction false} RemoveAccentsLeavesNoAccent(s: Bytes)
    ensures NoAccentedLetter(RemoveAccents(s))
  {
    RemoveAccentsIsFold(s);
    FoldLeavesNoAccent(if IsUtf8(s) then s else Utf8Encode(s));
  }

  // ---------------------------------------------------------------------
  // str_replace(str_split($remove), '', $s)

  /** str_replace of one byte by the empty string. */
  function RemoveByte(s: Bytes, c: Byte): (r: Bytes)
    ensures |r| <= |s|
    decreases |s|
  {
    if s == [] then []
    else if s[0] == c then RemoveByte(s[1..], c)
    else [s[0]] + RemoveByte(s[1..], c)
  }

  /** Each byte of needles removed in turn, as str_replace does with an array of needles. */
  function RemoveEach(s: Bytes, needles: Bytes): (r: Bytes)
    ensures |r| <= |s|
    decreases |needles|
  {
    if needles == [] then s else RemoveEach(RemoveByte(s, needles[0]), needles[1..])
  }

  /** The reference: keep exactly the bytes that are not needles, in order. */
  function Without(s: Bytes, needles: Bytes): (r: Bytes)
    ensures forall i :: 0 <= i < |r| ==> r[i] !in needles
    decreases |s|
  {
    if s == [] then []
    else if s[0] in needles then Without(s[1..], needles)
    else [s[0]] + Without(s[1..], needles)
  }

  lemma {:induction false} WithoutAfterRemoveByte(s: Bytes, c: Byte, rest: Bytes)
    ensures Without(RemoveByte(s, c), rest) == Without(s, [c] + rest)
    decreases |s|
  {
    if s != [] {
      WithoutAfterRemoveByte(s[1..], c, rest);
      if s[0] != c {
        var t := RemoveByte(s[1..], c);
        assert ([s[0]] + t)[1..] == t;
      }
    }
  }

  /** Removing the needles one after the other keeps exactly the other bytes. */
  lemma {:induction false} RemoveEachIsWithout(s: Bytes, needles: Bytes)
    ensures RemoveEach(s, needles) == Without(s, needles)
    decreases |needles|
  {
    if needles == [] {
      WithoutNothing(s);
    } else {
      RemoveEachIsWithout(RemoveByte(s, needles[0]), needles[1..]);
      WithoutAfterRemoveByte(s, needles[0], needles[1..]);
      assert [needles[0]] + needles[1..] == needles;
    }
  }

  lemma {:induction false} WithoutNothing(s: Bytes)
    ensures Without(s, []) == s
    decreases |s|
  {
    if s != [] {
      WithoutNothing(s[1..]);
    }
  }

  // ---------------------------------------------------------------------
  // prepareText

  /** PHP truthiness of a string: only "" and "0" are false. */
  predicate IsTruthy(s: Bytes) {
    s != [] && s != [0x30]
  }

  /**
   * prepareText(text, remove): HTML entities decoded (the identity here),
   * trimmed, accents folded, upper-cased, then, when remove is a truthy
   * string, every byte of it removed.
   */
  function PrepareText(text: Bytes, remove: Option<Bytes>): (r: Bytes)
    ensures forall i :: 0 <= i < |r| ==> !IsLowerAscii(r[i])
    ensures remove.Some? && IsTruthy(remove.value) ==>
              forall i :: 0 <= i < |r| ==> r[i] !in remove.value
    ensures IsUtf8(Trim(text)) ==> |r| <= |text|
  {
    var folded := ToUpper(RemoveAccents(Trim(text)));
    if remove.Some? && IsTruthy(remove.value) then
      RemoveEachIsWithout(folded, remove.value);
      WithoutKeepsUpper(folded, remove.value);
      RemoveEach(folded, remove.value)
    else folded
  }

  /**
   * What prepareText makes of its input: the trimmed text (UTF-8 encoded first
   * when it is not UTF-8), accent-folded by the one-scan fold, upper-cased, and
   * filtered through a truthy removal set.
   */
  lemma PrepareTextContent(text: Bytes, remove: Option<Bytes>)
    ensures var t := Trim(text);
            var u := ToUpper(FoldAccents(if IsUtf8(t) then t else Utf8Encode(t)));
            PrepareText(text, remove) == if remove.Some? && IsTruthy(remove.value) then Without(u, remove.value) else u
  {
    RemoveAccentsIsFold(Trim(text));
    if remove.Some? && IsTruthy(remove.value) {
      RemoveEachIsWithout(ToUpper(RemoveAccents(Trim(text))), remove.value);
    }
  }

  lemma {:induction false} WithoutKeepsUpper(s: Bytes, needles: Bytes)
    requires forall i :: 0 <= i < |s| ==> !IsLowerAscii(s[i])
    ensures forall i :: 0 <= i < |Without(s, needles)| ==> !IsLowerAscii(Without(s, needles)[i])
    decreases |s|
  {
    if s != [] {
      WithoutKeepsUpper(s[1..], needles);
    }
  }
}
