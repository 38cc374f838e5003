# API key generator — Dafny model

This project models the logic of a small browser script, `index.js`. When the page loads, the script
builds an "API key" and shows it. The key is the literal `API_KEY_`, then 32 random bytes as
hexadecimal, then the first 16 characters of a random UUID with its dashes removed. The whole
string is upper-cased. If the platform cannot supply the randomness, the script shows an error
notification and the text `GENERATION FAILED`.

The two entropy sources are parameters of the model:
- the string that `crypto.randomUUID()` returns;
- the 32 bytes that `crypto.getRandomValues` writes into its `Uint8Array(32)`.

With those two inputs fixed, key generation is a pure function.

Modules, one per concept of the script:

- `Results` (`results.dfy`): `Option` and `Result`. A thrown exception is modelled as an `Err`.
- `Ascii` (`ascii.dfy`): the upper-case mapping of `toUpperCase` on ASCII, and the hex-digit classes.
- `Hex` (`hex.dfy`): `b.toString(16).padStart(2, '0')` for each byte, joined with `''`, plus a
  decoder that reads the digits back. Upper-casing gives the Base16 alphabet of section 8 of
  RFC 4648.
- `Uuid` (`uuid.dfy`): `replace(/-/g, '')`, `substring(0, n)`, and the textual UUID form of
  section 4 of RFC 9562 (version 4 is section 5.4).
- `KeyGen` (`keygen.dfy`): `generateApiKey`, its inverse `ParseKey`, and generation with
  failing platform calls (`TryGenerateApiKey`).
- `Page` (`page.dfy`): `showMessage`, modelled as an update of a class set, and the startup
  try/catch.

The main results:
- For 32 bytes and a UUID in textual form, the key is 8 + 64 + 16 = 88 characters long.
- It starts with `API_KEY_`, and every character after that prefix is in `0-9A-F`.
- The hex segment is a bijection with the bytes.
- `ParseKey` inverts generation. The well-formed keys are exactly the keys generated from
  UUIDs in textual form.
- The early `.toUpperCase()` on the UUID part (index.js:32) is redundant.
- `showMessage` sets the box's text to the message and changes no class other than the five it
  manages (index.js:16-23).
- The key field reads `GENERATION FAILED` exactly when generation failed.

A consequence of the model: a version-4 UUID always has the version digit `4` at position 14
of its textual form. That digit reaches position 84 of the key (`KeyGen.Version4Digit`). So
only 15 of the 16 fragment characters vary.

Two consequences of the order of operations in the script are modelled as written:
- `crypto.randomUUID()` runs before `crypto.getRandomValues` (index.js:32, 35). So when both
  would throw, the UUID failure is the one raised.
- On failure the script still reveals the result area. It writes `GENERATION FAILED` into the
  key field (index.js:58-59).

## Model

| member | source | states |
|---|---|---|
| `Ascii.Upper` | index.js:40 | upper-casing keeps the length and maps each character on its own: a small ASCII letter becomes its capital, every other character stays |
| `Ascii.UpperIdempotent` | index.js:32 | upper-casing an already upper-cased string changes nothing |
| `Ascii.UpperConcat` | index.js:40 | upper-casing the concatenated key upper-cases each piece in place |
| `Hex.ToHexString` | index.js:36 | `n.toString(16)` is a numeral that denotes `n`, most significant digit first: a non-empty string of lower-case hex digits with no leading zero, of length one exactly when `n < 16` |
| `Hex.PadStart` | index.js:36 | `padStart` leaves strings of at least `width` characters unchanged; otherwise it pads on the left with the fill character to exactly `width` |
| `Hex.ByteToHex` | index.js:36 | a byte becomes exactly two digits: high nibble then low nibble, zero-padded below 16 |
| `Hex.EncodeHex` | index.js:35-37 | joining the byte encodings gives two lower-case hex digits per byte |
| `Hex.DecodeEncode` | index.js:35-37 | reading the hex segment back two digits at a time recovers the bytes |
| `Hex.DecodeUpperEncode` | index.js:35-40 | the bytes can still be recovered after the final upper-casing |
| `Hex.EncodeDecode` | index.js:35-37 | any string that decodes to some bytes is, up to case, the encoding of those bytes |
| `Hex.EncodeZeros` | index.js:35-37 | all-zero bytes encode to a run of `0` digits, two per byte |
| `Uuid.StripDashes` | index.js:32 | removing dashes leaves no dash and never lengthens the string |
| `Uuid.StripDashesMultiset` | index.js:32 | every character other than `-` keeps its number of occurrences |
| `Uuid.StripDashesLength` | index.js:32 | the length drops by exactly the number of dashes |
| `Uuid.StripDashesConcat` | index.js:32 | dash removal works piecewise, so the order of characters is kept |
| `Uuid.Take` | index.js:40 | `substring(0, n)` is the prefix of length min(n, length) |
| `Uuid.CanonicalStripDashes` | index.js:32 | a UUID in textual form loses exactly its four separators, keeping its five digit groups in order |
| `Uuid.CanonicalStripDashesDigits` | index.js:32 | what remains of a UUID in textual form is 32 hex digits |
| `KeyGen.UuidPart` | index.js:32 | the UUID part has no dash and no small letter, and its length is the UUID length minus the dash count |
| `KeyGen.RandomBytesPart` | index.js:35-37 | the random-bytes part is 64 lower-case hex digits that decode back to the 32 bytes |
| `KeyGen.GenerateApiKey` | index.js:30-41 | the key is upper case and starts with `API_KEY_`; characters 8..72 decode to the bytes; the tail has no dash; the length is 72 + min(16, non-dash characters of the UUID) |
| `KeyGen.EarlyUpperRedundant` | index.js:32-40 | leaving out the early `.toUpperCase()` on the UUID part does not change the key |
| `KeyGen.CanonicalFragment` | index.js:32-40 | for a UUID in textual form, the fragment is its first three digit groups upper-cased: 16 Base16 digits |
| `KeyGen.CanonicalKey` | index.js:30-41 | for a UUID in textual form, the key is 88 characters: `API_KEY_` followed by 80 characters in `0-9A-F` |
| `KeyGen.Version4Digit` | index.js:32-40 | for a version-4 UUID, key position 84 is always the version digit `4` |
| `KeyGen.ZeroBlockKey` | index.js:35-40 | with all-zero random bytes, the hex segment is 64 `0` characters |
| `KeyGen.ParseKey` | index.js:40 | the key reader succeeds exactly on well-formed keys and yields a 16-character fragment |
| `KeyGen.ParseGenerated` | index.js:30-41 | parsing a generated key returns the random bytes and the UUID digits it was built from |
| `KeyGen.ParsedKeyRebuilds` | index.js:40 | every well-formed key is the upper-cased assembly of its parsed parts |
| `KeyGen.WellFormedKeyGenerated` | index.js:30-41 | every well-formed key is generated by some UUID in textual form and some 32 bytes |
| `KeyGen.TextualUuidKey` | index.js:30-41 | whenever the UUID is in textual form, the key built from it and any 32 bytes is well formed |
| `KeyGen.TryGenerateApiKey` | index.js:30-46 | generation succeeds exactly when both platform calls return; a `randomUUID` failure is the one reported; a success starts with `API_KEY_` and is well formed for a UUID in textual form |
| `Page.ShowMessage` | index.js:15-24 | after `showMessage`, `hidden` is absent; the red pair is present and the green pair absent exactly for type `error`, and the reverse otherwise; the text is the message; no other class changes |
| `Page.ShowMessageLatestWins` | index.js:17-23 | two calls in a row leave the box exactly as the second call alone would |
| `Page.Reveal` | index.js:50 | removing `hidden` keeps the text and every other class |
| `Page.Startup` | index.js:44-60 | after startup, the result area is visible and otherwise unchanged; the key field reads `GENERATION FAILED` or starts with `API_KEY_`; the notification box changes only on failure |
| `Page.StartupSuccess` | index.js:46-50 | on success, the key field shows the generated key, the result area is visible, and the notification box is untouched |
| `Page.StartupFailure` | index.js:55-59 | on failure, the key field reads `GENERATION FAILED`, the result area is visible, and the notification shows the failure message in red |
| `Page.StartupOutcomeDistinguishable` | index.js:46-59 | the key field reads `GENERATION FAILED` exactly when generation failed |
| `Page.StartupShowsWellFormedKey` | index.js:46-50 | when the platform returns a UUID in textual form, the displayed key is well formed |

## Left out

- The random sources `crypto.getRandomValues` and `crypto.randomUUID` are not modelled. Their
  outputs are parameters. The model states nothing about uniqueness or unpredictability,
  because those are probabilistic claims.
- The DOM wiring is not modelled: the `DOMContentLoaded` handler and the `getElementById`
  lookups (index.js:3-8), and the click listener (index.js:63). The elements are assumed to
  exist. The model does not cover an exception thrown by a DOM update inside the `try` block.
- The copy-to-clipboard handler (index.js:63-79) is not modelled. It depends on the
  asynchronous `navigator.clipboard.writeText`, on feature detection, and on
  `document.execCommand('copy')`. All of these are browser I/O.
- Console logging (index.js:52-53, 56) is not modelled. The notification texts are constants.
  Only the generation-failure message is used in the model.
- `Ascii.Upper`: models only the ASCII part of `toUpperCase`. JavaScript applies the full
  Unicode case mapping, which can change a non-ASCII character or the string's length. Every
  character the platform calls produce is ASCII, so the keys are unaffected.
- `Uuid.Take`: counts Unicode scalar values. JavaScript's `substring` and `length` count UTF-16
  code units. So the lengths in `KeyGen.GenerateApiKey` differ from JavaScript for a UUID string
  with characters outside the Basic Multilingual Plane. `randomUUID` never returns one.
- `Page.Startup`: the result area, the key field and the notification box are modelled as three
  separate elements. If the key field sat inside the result area, writing the key would also
  change the result area's `textContent`. The page markup is not part of this model.
- `Page.ShowMessage`: the default `type = 'success'` is not modelled separately. The type is
  always an explicit parameter, as it is at every call site in the script.
- The exception value is not modelled. `TryGenerateApiKey` records which platform call failed.
  The script only logs the error and handles both failures the same way.
