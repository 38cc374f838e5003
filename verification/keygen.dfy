/** `generateApiKey` (index.js:30-41) with its two entropy sources passed in:
    the string `crypto.randomUUID()` returned and the 32 bytes
    `crypto.getRandomValues` wrote. The key is `"API_KEY_"`, the bytes in hex
    and the first 16 characters of the UUID without its dashes, all upper-cased. */
module KeyGen {
  import opened Results
  import opened Ascii
  import opened Hex
  import opened Uuid

  const KeyPrefix: string := "API_KEY_"

  /** Size of the `Uint8Array` handed to `crypto.getRandomValues` (index.js:35). */
  const RandomByteCount: nat := 32

  /** Number of UUID characters kept, `substring(0, 16)` (index.js:40). */
  const FragmentLength: nat := 16

  /** Length of every key built from a UUID in textual form: 8 + 64 + 16. */
  const KeyLength: nat := 88

  /** The contents of the `Uint8Array(32)` after `crypto.getRandomValues`. */
  type RandomBlock = s: seq<Byte> | |s| == 32 witness seq(32, _ => 0)

  /** `uuidPart` (index.js:32): the UUID without dashes, upper-cased. */
  function UuidPart(uuid: string): (r: string)
    ensures |r| == |StripDashes(uuid)| == |uuid| - multiset(uuid)['-']
    ensures '-' !in r
    ensures IsUpperCase(r)
  {
    StripDashesLength(uuid);
    var stripped := StripDashes(uuid);
    UpperDashFree(stripped);
    Upper(stripped)
  }

  /** Upper-casing never creates a dash. */
  lemma UpperDashFree(s: string)
    requires '-' !in s
    ensures '-' !in Upper(s)
  {
  }

  /** `randomBytesPart` (index.js:35-37): 64 lower-case hex digits from which
      the block can be read back. */
  function RandomBytesPart(block: RandomBlock): (r: string)
    ensures |r| == 2 * RandomByteCount
    ensures forall i :: 0 <= i < |r| ==> IsLowerHexDigit(r[i])
    ensures DecodeHex(r) == Some(block)
  {
    DecodeEncode(block);
    EncodeHex(block)
  }

  /** `generateApiKey()` (index.js:30-41), with the results of
      `crypto.randomUUID()` and `crypto.getRandomValues` as parameters. */
  function GenerateApiKey(uuid: string, block: RandomBlock): (key: string)
    ensures |key| == |KeyPrefix| + 2 * RandomByteCount + Min(FragmentLength, |StripDashes(uuid)|)
    ensures key[..|KeyPrefix|] == KeyPrefix
    ensures DecodeHex(key[|KeyPrefix|..|KeyPrefix| + 2 * RandomByteCount]) == Some(block)
    ensures '-' !in key[|KeyPrefix| + 2 * RandomByteCount..]
    ensures IsUpperCase(key)
  {
    TakeKeeps(UuidPart(uuid), FragmentLength);
    AssembledKey(block, Take(UuidPart(uuid), FragmentLength));
    Upper(KeyPrefix + RandomBytesPart(block) + Take(UuidPart(uuid), FragmentLength))
  }

  /** The key assembled from the block and a dash-free upper-case fragment:
      prefix, decodable hex segment, then the fragment, all upper case. */
  lemma AssembledKey(block: RandomBlock, fragment: string)
    requires '-' !in fragment && IsUpperCase(fragment)
    ensures var key := Upper(KeyPrefix + EncodeHex(block) + fragment);
      && |key| == 72 + |fragment|
      && key[..8] == KeyPrefix
      && DecodeHex(key[8..72]) == Some(block)
      && '-' !in key[72..]
      && IsUpperCase(key)
  {
    DecodeUpperEncode(block);
    KeyLayout(EncodeHex(block), fragment);
  }

  /** A prefix of a dash-free upper-case string is dash-free and upper case. */
  lemma TakeKeeps(s: string, n: nat)
    requires '-' !in s && IsUpperCase(s)
    ensures '-' !in Take(s, n) && IsUpperCase(Take(s, n))
  {
  }

  /** How upper-casing acts on the three pieces of a key: the prefix is already
      upper case, the hex segment and the fragment are upper-cased in place. */
  lemma KeyLayout(hex: string, fragment: string)
    requires |hex| == 64
    ensures var key := Upper(KeyPrefix + hex + fragment);
      && |key| == 72 + |fragment|
      && key[..8] == KeyPrefix
      && key[8..72] == Upper(hex)
      && key[72..] == Upper(fragment)
      && (IsUpperCase(fragment) ==> key[72..] == fragment)
  {
  }

  /** The `.toUpperCase()` on the UUID at index.js:32 is redundant: the key is
      the same when only the final `.toUpperCase()` at index.js:40 is applied. */
  lemma EarlyUpperRedundant(uuid: string, block: RandomBlock)
    ensures GenerateApiKey(uuid, block)
         == Upper(KeyPrefix + EncodeHex(block) + Take(StripDashes(uuid), FragmentLength))
  {
  }

  /** The shape of every key built from a UUID in textual form: the prefix,
      then 80 digits of the Base16 alphabet, 88 characters in all. */
  predicate IsWellFormedKey(k: string) {
    && |k| == KeyLength
    && k[..|KeyPrefix|] == KeyPrefix
    && IsBase16(k[|KeyPrefix|..])
  }

  /** Upper-casing turns hex digits of either case into Base16 digits. */
  lemma UpperHex(s: string)
    requires AllHex(s)
    ensures IsBase16(Upper(s))
  {
  }

  /** A key is well formed when its prefix is right and its hex segment and
      fragment are Base16 of the right lengths. */
  lemma WellFormedFromPieces(k: string)
    requires |k| == KeyLength && k[..8] == KeyPrefix
    requires IsBase16(k[8..72]) && IsBase16(k[72..])
    ensures IsWellFormedKey(k)
  {
  }

  /** From a UUID in textual form, the fragment kept in the key is its first
      three digit groups, upper-cased: 16 Base16 digits. */
  lemma CanonicalFragment(uuid: string)
    requires IsUuidText(uuid)
    ensures Take(UuidPart(uuid), FragmentLength) == Upper(uuid[..8] + uuid[9..13] + uuid[14..18])
    ensures |Take(UuidPart(uuid), FragmentLength)| == FragmentLength
    ensures IsBase16(Take(UuidPart(uuid), FragmentLength))
  {
    var stripped := StripDashes(uuid);
    CanonicalStripDashes(uuid);
    CanonicalStripDashesDigits(uuid);
    var groups := uuid[..8] + uuid[9..13] + uuid[14..18];
    assert stripped[..16] == groups;
    UpperSlice(stripped, 0, 16);
    assert forall i :: 0 <= i < 16 ==> groups[i] == stripped[i];
    UpperHex(groups);
  }

  /** With a UUID in textual form (as `crypto.randomUUID` returns), the key is
      well formed, and its last 16 characters are the first three digit groups
      of the UUID, upper-cased. */
  lemma CanonicalKey(uuid: string, block: RandomBlock)
    requires IsUuidText(uuid)
    ensures IsWellFormedKey(GenerateApiKey(uuid, block))
    ensures GenerateApiKey(uuid, block)[72..] == Upper(uuid[..8] + uuid[9..13] + uuid[14..18])
  {
    var fragment := Take(UuidPart(uuid), FragmentLength);
    CanonicalFragment(uuid);
    KeyLayout(RandomBytesPart(block), fragment);
    UpperHex(EncodeHex(block));
    WellFormedFromPieces(GenerateApiKey(uuid, block));
  }

  /** For a version-4 UUID the key always carries the version digit `4` at
      position 84, so that position adds no entropy to the key. */
  lemma Version4Digit(uuid: string, block: RandomBlock)
    requires IsVersion4Uuid(uuid)
    ensures |GenerateApiKey(uuid, block)| == KeyLength
    ensures GenerateApiKey(uuid, block)[84] == '4'
  {
    CanonicalKey(uuid, block);
    Version4Fragment(uuid);
    TailAt(GenerateApiKey(uuid, block), 72, 12);
  }

  /** The version digit is character 12 of the first three groups. */
  lemma Version4Fragment(uuid: string)
    requires IsVersion4Uuid(uuid)
    ensures Upper(uuid[..8] + uuid[9..13] + uuid[14..18])[12] == '4'
  {
    var groups := uuid[..8] + uuid[9..13] + uuid[14..18];
    assert groups[12] == uuid[14];
  }

  /** Character `i` of the tail from `k` is character `k + i` of the string. */
  lemma TailAt(s: string, k: nat, i: nat)
    requires k + i < |s|
    ensures s[k..][i] == s[k + i]
  {
  }

  /** With random bytes all zero, the hex segment is 64 zero digits. */
  lemma ZeroBlockKey(uuid: string)
    ensures GenerateApiKey(uuid, seq(32, _ => 0))[8..72] == seq(64, _ => '0')
  {
    var zeros: RandomBlock := seq(32, _ => 0);
    var fragment := Take(UuidPart(uuid), FragmentLength);
    assert GenerateApiKey(uuid, zeros) == Upper(KeyPrefix + EncodeHex(zeros) + fragment);
    ZeroSegment(fragment);
  }

  /** The hex segment of a key assembled from all-zero bytes, whatever the fragment. */
  lemma ZeroSegment(fragment: string)
    ensures Upper(KeyPrefix + EncodeHex(seq(32, _ => 0)) + fragment)[8..72] == seq(64, _ => '0')
  {
    EncodeZeros(32);
    HexSegment(EncodeHex(seq(32, _ => 0)), fragment);
    ZerosUpper(64);
  }

  /** Characters 8..72 of an assembled key are the upper-cased hex segment. */
  lemma HexSegment(hex: string, fragment: string)
    requires |hex| == 64
    ensures Upper(KeyPrefix + hex + fragment)[8..72] == Upper(hex)
  {
    KeyLayout(hex, fragment);
  }

  /** A run of `'0'` digits is already upper case. */
  lemma ZerosUpper(n: nat)
    ensures Upper(seq(n, _ => '0')) == seq(n, _ => '0')
  {
    UpperOfUpperCase(seq(n, _ => '0'));
  }

  /** The two random parts carried by a well-formed key. */
  datatype KeyParts = KeyParts(block: RandomBlock, fragment: string)

  /** Reads a key back into its parts; `None` unless it is well formed. */
  function ParseKey(k: string): (r: Option<KeyParts>)
    ensures r.Some? <==> IsWellFormedKey(k)
    ensures r.Some? ==> |r.value.fragment| == FragmentLength
  {
    if IsWellFormedKey(k) then
      var digits := k[8..72];
      DecodeHexTotal(digits);
      Some(KeyParts(DecodeHex(digits).value, k[72..]))
    else
      None
  }

  /** Every character of `s` is a hex digit and there is an even number of
      them, so `DecodeHex` succeeds. */
  lemma {:induction false} DecodeHexTotal(s: string)
    requires |s| % 2 == 0
    requires IsBase16(s)
    ensures DecodeHex(s).Some?
    decreases |s|
  {
    if |s| != 0 {
      assert forall i :: 0 <= i < |s| - 2 ==> s[2..][i] == s[i + 2];
      DecodeHexTotal(s[2..]);
    }
  }

  /** Parsing a generated key recovers the random bytes and the UUID digits it
      was built from. */
  lemma ParseGenerated(uuid: string, block: RandomBlock)
    requires IsUuidText(uuid)
    ensures ParseKey(GenerateApiKey(uuid, block))
         == Some(KeyParts(block, Upper(uuid[..8] + uuid[9..13] + uuid[14..18])))
  {
    CanonicalKey(uuid, block);
  }

  /** A well-formed key is rebuilt from its parsed parts by the assembly of
      index.js:40. */
  lemma ParsedKeyRebuilds(k: string)
    requires IsWellFormedKey(k)
    ensures var parts := ParseKey(k).value;
      && IsUpperCase(parts.fragment)
      && k == Upper(KeyPrefix + EncodeHex(parts.block) + parts.fragment)
  {
    var parts := ParseKey(k).value;
    var hex, f := k[8..72], k[72..];
    assert forall i :: 0 <= i < |hex| ==> hex[i] == k[i + 8];
    assert forall i :: 0 <= i < |f| ==> f[i] == k[i + 72];
    assert IsUpperCase(hex) && IsUpperCase(f);
    DecodeHexTotal(hex);
    assert parts == KeyParts(DecodeHex(hex).value, f);
    EncodeDecode(hex, parts.block);
    UpperOfUpperCase(hex);
    KeyLayout(EncodeHex(parts.block), f);
    SamePieces(k, Upper(KeyPrefix + EncodeHex(parts.block) + f));
  }

  /** Two 88-character strings that agree on the prefix, the hex segment and
      the fragment are equal. */
  lemma SamePieces(a: string, b: string)
    requires |a| == |b| == KeyLength
    requires a[..8] == b[..8] && a[8..72] == b[8..72] && a[72..] == b[72..]
    ensures a == b
  {
  }

  /** A UUID in textual form whose first three groups are the 16 digits `f`. */
  function UuidWithGroups(f: string): string
    requires |f| == FragmentLength
  {
    f[..8] + "-" + f[8..12] + "-" + f[12..16] + "-0000-000000000000"
  }

  lemma UuidWithGroupsText(f: string)
    requires |f| == FragmentLength && IsBase16(f)
    ensures IsUuidText(UuidWithGroups(f))
    ensures var u := UuidWithGroups(f); u[..8] + u[9..13] + u[14..18] == f
  {
    var u := UuidWithGroups(f);
    assert forall i :: 0 <= i < 8 ==> u[i] == f[i];
    assert forall i :: 9 <= i < 13 ==> u[i] == f[i - 1];
    assert forall i :: 14 <= i < 18 ==> u[i] == f[i - 2];
    assert forall i :: 18 <= i < 36 ==> u[i] == "-0000-000000000000"[i - 18];
    assert u[..8] + u[9..13] + u[14..18] == f;
  }

  /** Conversely, every well-formed key is generated: from the parsed bytes and
      a UUID whose first three groups are the parsed fragment. */
  lemma WellFormedKeyGenerated(k: string) returns (uuid: string, block: RandomBlock)
    requires IsWellFormedKey(k)
    ensures IsUuidText(uuid)
    ensures GenerateApiKey(uuid, block) == k
  {
    var parts := ParseKey(k).value;
    var f := parts.fragment;
    block := parts.block;
    assert forall i :: 0 <= i < 16 ==> f[i] == k[72 + i];
    uuid := UuidWithGroups(f);
    UuidWithGroupsText(f);
    CanonicalKey(uuid, block);
    ParsedKeyRebuilds(k);
    UpperOfUpperCase(f);
    var key := GenerateApiKey(uuid, block);
    KeyLayout(EncodeHex(block), Take(UuidPart(uuid), FragmentLength));
    KeyLayout(EncodeHex(block), f);
    SamePieces(key, k);
  }

  /** Why `crypto` could not produce its value; the script catches either one. */
  datatype GenError = UuidUnavailable | RandomValuesUnavailable

  /** The two platform calls `generateApiKey` makes; `None` where the call throws. */
  datatype Crypto = Crypto(randomUuid: Option<string>, randomValues: Option<RandomBlock>)

  /** `generateApiKey()` with its exceptions as errors. `crypto.randomUUID()` is
      called first (index.js:32), so its failure is the one reported. */
  function TryGenerateApiKey(crypto: Crypto): (r: Result<string, GenError>)
    ensures r.Ok? <==> crypto.randomUuid.Some? && crypto.randomValues.Some?
    ensures crypto.randomUuid.None? ==> r == Err(UuidUnavailable)
    ensures r.Ok? ==> |r.value| >= |KeyPrefix| && r.value[..|KeyPrefix|] == KeyPrefix
    ensures r.Ok? && IsUuidText(crypto.randomUuid.value) ==> IsWellFormedKey(r.value)
  {
    match crypto.randomUuid
    case None => Err(UuidUnavailable)
    case Some(uuid) =>
      match crypto.randomValues
      case None => Err(RandomValuesUnavailable)
      case Some(block) =>
        TextualUuidKey(uuid, block);
        Ok(GenerateApiKey(uuid, block))
  }

  /** `CanonicalKey` as an implication, usable whatever the UUID string is. */
  lemma TextualUuidKey(uuid: string, block: RandomBlock)
    ensures IsUuidText(uuid) ==> IsWellFormedKey(GenerateApiKey(uuid, block))
  {
    if IsUuidText(uuid) {
      CanonicalKey(uuid, block);
    }
  }
}
