# SCTE 35 cipher registry

A Dafny model of the cipher-algorithm registry used for encrypted SCTE 35
splice sections (section 11.3 of SCTE 35), from
`internal/scte35/encrypted_packet.go`:

- `Scte35.EncryptedPacket`, the record pairing a 32-bit encryption-algorithm
  identifier with a 32-bit control-word (CW) index;
- the 32-bit `EncryptionAlgorithm*` constants (0 to 3);
- the 8-bit `Cipher` type with its constants `CipherNone`, `DES_ECB`,
  `DES_CBC`, `TripleDES`, and the unexported `reserved` (4) of the same
  block, here `Reserved`;
- the untyped constant `maxCipher` (63), declared apart from the `Cipher`
  block and converted to `Cipher` where it is compared; here `MaxCipher`,
  given type `Cipher` directly;
- `Cipher.String()`, modelled as `Scte35.String`, which labels every 8-bit
  code: codes 0 to 3 get the algorithm names, 4 to 31 "reserved", 32 to 63
  "user private" and 64 to 255 "invalid".

Go's `uint8` and `uint32` are the newtypes `Cipher` and `UInt32` (ranges
0..255 and 0..2^32-1), so the classifier is total over exactly the values a
`Cipher` can hold. The labels contain the en dash U+2013, as in the source.

As a partner to `String`, the model gives an independent classification,
`Classify`, read off the bits of the code (more than 6 bits: invalid; bit 5
set: user private; otherwise reserved unless the code is one of the four
smallest), with `Label` naming each class and `ParseLabel` inverting
`Label`. The lemmas prove that `String` is `Label` after `Classify`. They
also prove that each band holds exactly its codes, in both directions. The
seven labels are distinct and each is reached. Among the 256 codes, the set
carrying each algorithm name has one element, and the reserved, user-private
and invalid sets have 28, 32 and 192 (a recursive count, proved equal to the
size of each set, does the arithmetic).

## Model

| member | source | states |
|---|---|---|
| Scte35.String | internal/scte35/encrypted_packet.go:37-54 | Total on every 8-bit code; the label is always one of the seven labels |
| Scte35.Classify | internal/scte35/encrypted_packet.go:48-53 | Reference classification by bits: invalid exactly above MaxCipher (63), user private exactly for 32..63, reserved exactly for 4..31 |
| Scte35.Label | internal/scte35/encrypted_packet.go:38-53 | Every class is named by one of the seven labels |
| Scte35.ParseLabel | internal/scte35/encrypted_packet.go:38-53 | A string is recognised as a class exactly when it is one of the seven labels |
| Scte35.ParseLabelInvertsLabel | internal/scte35/encrypted_packet.go:38-53 | Parsing a class's label gives back that class |
| Scte35.LabelInjective | internal/scte35/encrypted_packet.go:38-53 | Two classes have the same label exactly when they are the same class |
| Scte35.StringIsLabelOfClass | internal/scte35/encrypted_packet.go:37-54 | The switch-then-ranges classifier agrees with the bit-based classification on every code |
| Scte35.SameLabelIffSameClass | internal/scte35/encrypted_packet.go:37-54 | Two codes get equal labels exactly when they are in the same class |
| Scte35.NamedCodes | internal/scte35/encrypted_packet.go:38-47 | Codes 0, 1, 2, 3 are labelled "none", "DES – ECB mode", "DES – CBC mode", "Triple DES EDE3 – ECB mode" |
| Scte35.NamedLabelsOnlyForNamedCodes | internal/scte35/encrypted_packet.go:38-47 | Each algorithm name is produced by its own code and by no other |
| Scte35.ReservedBand | internal/scte35/encrypted_packet.go:48-49 | A code is labelled "reserved" exactly when 4 <= c <= 31 |
| Scte35.UserPrivateBand | internal/scte35/encrypted_packet.go:50-51 | A code is labelled "user private" exactly when 32 <= c <= 63 |
| Scte35.InvalidBand | internal/scte35/encrypted_packet.go:53 | A code is labelled "invalid" exactly when 64 <= c <= 255 |
| Scte35.BandDeterminesLabel | internal/scte35/encrypted_packet.go:48-53 | Any two codes in the same band (4..31, 32..63 or 64..255) get the same label |
| Scte35.EveryLabelReached | internal/scte35/encrypted_packet.go:37-54 | Each of the seven labels is the label of some code |
| Scte35.SevenLabels | internal/scte35/encrypted_packet.go:37-54 | The seven labels are seven distinct strings |
| Scte35.CountIsCardinality | internal/scte35/encrypted_packet.go:37-54 | The recursive count of codes below n with label l equals the size of the set of those codes |
| Scte35.CountBand | internal/scte35/encrypted_packet.go:48-53 | A label held by exactly the codes lo..hi is held by as many codes below n as lie in both ranges |
| Scte35.BandSizes | internal/scte35/encrypted_packet.go:25-54 | The sets of codes carrying each label have sizes 1, 1, 1, 1 (algorithm names), 28 (reserved), 32 (user private), 192 (invalid) |
| Scte35.ConstantsAgree | internal/scte35/encrypted_packet.go:6-35 | The 32-bit identifiers and the 8-bit codes number the algorithms 0..3 alike, Reserved follows TripleDES, MaxCipher is 63, and each identifier's code is labelled with its algorithm's name |
| Scte35.PacketReadsBack | internal/scte35/encrypted_packet.go:14-19 | A packet built from (alg, cw) reads back exactly alg and cw |

## Left out

- Reading or writing the 6-bit cipher field and the CW-index field from the bitstream: that codec is not part of this model.
- Encryption and decryption with DES or Triple DES: foreign cryptography; the source only names the algorithms.
- Go's `fmt.Stringer` interface: only the returned strings are modelled.
- Whether a caller rejects codes labelled "invalid": the source does not decide that.
- Conversion of an `EncryptedPacket.EncryptionAlgorithm` (32-bit) into a `Cipher` (8-bit): the source does not convert between them; `ConstantsAgree` only relates the four constants.
