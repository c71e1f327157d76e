/**
  SCTE 35 encrypted splice sections: the registry of cipher algorithms
  (section 11.3 of SCTE 35) and the record that carries the algorithm
  identifier and the control-word index of an encrypted packet.

  The classifier `String` maps every 8-bit cipher code to one of seven
  labels: the four named algorithms (codes 0 to 3), "reserved" (4 to 31),
  "user private" (32 to 63) and "invalid" (64 to 255).
 */
module Scte35 {

  /** Go's `uint32`. */
  newtype UInt32 = x: int | 0 <= x < 0x1_0000_0000

  /** Go's `Cipher`, declared over `uint8`: the 6-bit cipher field fits,
      but any 8-bit value can be held. */
  newtype Cipher = c: int | 0 <= c < 0x100

  // Algorithm identifiers as 32-bit constants (iota from 0).
  const EncryptionAlgorithmNone: UInt32 := 0
  const EncryptionAlgorithmDESECB: UInt32 := 1
  const EncryptionAlgorithmDESCBC: UInt32 := 2
  const EncryptionAlgorithmTripleDES: UInt32 := 3

  /** Payload encryption information: which cipher is used (section 11.3)
      and which control word is active. Both fields are read back as given. */
  datatype EncryptedPacket = EncryptedPacket(EncryptionAlgorithm: UInt32, CWIndex: UInt32)

  // The same algorithms as 8-bit cipher codes (iota from 0), followed by the
  // first reserved code (unexported `reserved` in Go); codes 32 to 63 are
  // user private (section 11.3.4).
  const CipherNone: Cipher := 0
  const DES_ECB: Cipher := 1    // section 11.3.1
  const DES_CBC: Cipher := 2    // section 11.3.2
  const TripleDES: Cipher := 3  // section 11.3.3
  const Reserved: Cipher := 4

  /** The largest code the 6-bit field can carry (Go's untyped `maxCipher`,
      compared with a `Cipher` and so converted to one). */
  const MaxCipher: Cipher := 63

  const LabelNone := "none"
  const LabelDesEcb := "DES – ECB mode"
  const LabelDesCbc := "DES – CBC mode"
  const LabelTripleDes := "Triple DES EDE3 – ECB mode"
  const LabelReserved := "reserved"
  const LabelUserPrivate := "user private"
  const LabelInvalid := "invalid"

  /** The seven labels the classifier can produce. */
  const Labels: set<string> :=
    {LabelNone, LabelDesEcb, LabelDesCbc, LabelTripleDes, LabelReserved, LabelUserPrivate, LabelInvalid}

  /** The display label of a cipher code: the named codes first, then the
      reserved band, the user-private band, and "invalid" for the rest.
      Total: every 8-bit value has a label, and it is one of the seven. */
  function String(c: Cipher): (r: string)
    ensures r in Labels
  {
    if c == CipherNone then LabelNone
    else if c == DES_ECB then LabelDesEcb
    else if c == DES_CBC then LabelDesCbc
    else if c == TripleDES then LabelTripleDes
    else if c >= Reserved && c <= 31 then LabelReserved
    else if c <= MaxCipher then LabelUserPrivate
    else LabelInvalid
  }

  // ---------------------------------------------------------------------
  // A reference classification, read off the bits of the code: a code that
  // needs more than 6 bits is invalid, bit 5 marks the user-private half,
  // and among the remaining 32 codes only the four smallest are named.

  /** The seven classes of cipher code. */
  datatype CipherKind =
    | NoCipher
    | DesEcbMode
    | DesCbcMode
    | TripleDesEde3EcbMode
    | ReservedCode
    | UserPrivateCode
    | InvalidCode

  function Classify(c: Cipher): (k: CipherKind)
    ensures k == InvalidCode <==> c > MaxCipher
    ensures k == UserPrivateCode <==> 32 <= c <= MaxCipher
    ensures k == ReservedCode <==> Reserved <= c < 32
  {
    if c as int / 64 != 0 then InvalidCode
    else if c as int / 32 == 1 then UserPrivateCode
    else if c as int / 4 != 0 then ReservedCode
    else [NoCipher, DesEcbMode, DesCbcMode, TripleDesEde3EcbMode][c]
  }

  /** The label of each class. */
  function Label(k: CipherKind): (l: string)
    ensures l in Labels
  {
    match k
    case NoCipher => LabelNone
    case DesEcbMode => LabelDesEcb
    case DesCbcMode => LabelDesCbc
    case TripleDesEde3EcbMode => LabelTripleDes
    case ReservedCode => LabelReserved
    case UserPrivateCode => LabelUserPrivate
    case InvalidCode => LabelInvalid
  }

  /** The class a label names, if it is one of the seven. */
  function ParseLabel(l: string): (k: Option<CipherKind>)
    ensures k.Some? <==> l in Labels
  {
    if l == LabelNone then Some(NoCipher)
    else if l == LabelDesEcb then Some(DesEcbMode)
    else if l == LabelDesCbc then Some(DesCbcMode)
    else if l == LabelTripleDes then Some(TripleDesEde3EcbMode)
    else if l == LabelReserved then Some(ReservedCode)
    else if l == LabelUserPrivate then Some(UserPrivateCode)
    else if l == LabelInvalid then Some(InvalidCode)
    else None
  }

  datatype Option<T> = None | Some(value: T)

  /** Labels are parsed back to the class they came from, so no two classes
      share a label. */
  lemma ParseLabelInvertsLabel(k: CipherKind)
    ensures ParseLabel(Label(k)) == Some(k)
  {
  }

  lemma LabelInjective(a: CipherKind, b: CipherKind)
    ensures Label(a) == Label(b) <==> a == b
  {
  }

  /** The classifier agrees with the reference classification on every code. */
  lemma StringIsLabelOfClass(c: Cipher)
    ensures String(c) == Label(Classify(c))
  {
  }

  /** Two codes get the same label exactly when they are in the same class. */
  lemma SameLabelIffSameClass(a: Cipher, b: Cipher)
    ensures String(a) == String(b) <==> Classify(a) == Classify(b)
  {
  }

  // ---------------------------------------------------------------------
  // The bands, each in both directions.

  lemma NamedCodes()
    ensures String(CipherNone) == "none"
    ensures String(DES_ECB) == "DES – ECB mode"
    ensures String(DES_CBC) == "DES – CBC mode"
    ensures String(TripleDES) == "Triple DES EDE3 – ECB mode"
  {
  }

  lemma NamedLabelsOnlyForNamedCodes(c: Cipher)
    ensures String(c) == LabelNone <==> c == CipherNone
    ensures String(c) == LabelDesEcb <==> c == DES_ECB
    ensures String(c) == LabelDesCbc <==> c == DES_CBC
    ensures String(c) == LabelTripleDes <==> c == TripleDES
  {
  }

  lemma ReservedBand(c: Cipher)
    ensures String(c) == "reserved" <==> 4 <= c <= 31
  {
  }

  lemma UserPrivateBand(c: Cipher)
    ensures String(c) == "user private" <==> 32 <= c <= 63
  {
  }

  lemma InvalidBand(c: Cipher)
    ensures String(c) == "invalid" <==> 64 <= c <= 255
  {
  }

  /** Within a band the label does not depend on the code. */
  lemma BandDeterminesLabel(a: Cipher, b: Cipher)
    requires || (4 <= a <= 31 && 4 <= b <= 31)
             || (32 <= a <= 63 && 32 <= b <= 63)
             || (64 <= a && 64 <= b)
    ensures String(a) == String(b)
  {
  }

  /** Every one of the seven labels is the label of some code. */
  lemma EveryLabelReached(l: string)
    requires l in Labels
    ensures exists c: Cipher :: String(c) == l
  {
    var k := ParseLabel(l).value;
    var c: Cipher := match k
      case NoCipher => CipherNone
      case DesEcbMode => DES_ECB
      case DesCbcMode => DES_CBC
      case TripleDesEde3EcbMode => TripleDES
      case ReservedCode => Reserved
      case UserPrivateCode => 32
      case InvalidCode => 64;
    StringIsLabelOfClass(c);
    LabelInjective(k, Classify(c));
    assert Label(k) == l;
  }

  /** The seven labels are seven distinct strings. */
  lemma SevenLabels()
    ensures |Labels| == 7
  {
  }

  // ---------------------------------------------------------------------
  // Band sizes: how many of the 256 codes carry each label.

  /** The number of codes below `n` whose label is `l`. */
  function CountLabelled(l: string, n: nat): (k: nat)
    requires n <= 0x100
    ensures k <= n
  {
    if n == 0 then 0
    else CountLabelled(l, n - 1) + (if String((n - 1) as Cipher) == l then 1 else 0)
  }

  /** The set of codes below `n` whose label is `l`. */
  ghost function CodesLabelled(l: string, n: nat): set<Cipher> {
    set c: Cipher | c as int < n && String(c) == l
  }

  /** The count is the size of that set. */
  lemma {:induction false} CountIsCardinality(l: string, n: nat)
    requires n <= 0x100
    ensures CountLabelled(l, n) == |CodesLabelled(l, n)|
  {
    if n == 0 {
      assert CodesLabelled(l, 0) == {};
    } else {
      CountIsCardinality(l, n - 1);
      var last := (n - 1) as Cipher;
      var below := CodesLabelled(l, n - 1);
      assert last !in below;
      if String(last) == l {
        assert CodesLabelled(l, n) == below + {last};
      } else {
        assert CodesLabelled(l, n) == below;
      }
    }
  }

  /** A label held by exactly the codes `lo..hi` is held by as many codes
      below `n` as the band and `0..n-1` share. */
  lemma {:induction false} CountBand(l: string, lo: nat, hi: nat, n: nat)
    requires lo <= hi < 0x100 && n <= 0x100
    requires forall c: Cipher :: String(c) == l <==> lo <= c as int <= hi
    ensures CountLabelled(l, n) == if n <= lo then 0 else if n <= hi then n - lo else hi + 1 - lo
  {
    if n > 0 {
      CountBand(l, lo, hi, n - 1);
      assert String((n - 1) as Cipher) == l <==> lo <= n - 1 <= hi;
    }
  }

  /** Of the 256 codes, one carries each algorithm name, 28 are reserved,
      32 user private and 192 invalid. */
  lemma BandSizes()
    ensures |CodesLabelled(LabelNone, 0x100)| == 1
    ensures |CodesLabelled(LabelDesEcb, 0x100)| == 1
    ensures |CodesLabelled(LabelDesCbc, 0x100)| == 1
    ensures |CodesLabelled(LabelTripleDes, 0x100)| == 1
    ensures |CodesLabelled(LabelReserved, 0x100)| == 28
    ensures |CodesLabelled(LabelUserPrivate, 0x100)| == 32
    ensures |CodesLabelled(LabelInvalid, 0x100)| == 192
  {
    forall c: Cipher
      ensures String(c) == LabelNone <==> c == CipherNone
      ensures String(c) == LabelDesEcb <==> c == DES_ECB
      ensures String(c) == LabelDesCbc <==> c == DES_CBC
      ensures String(c) == LabelTripleDes <==> c == TripleDES
      ensures String(c) == LabelReserved <==> 4 <= c <= 31
      ensures String(c) == LabelUserPrivate <==> 32 <= c <= 63
      ensures String(c) == LabelInvalid <==> 64 <= c <= 255
    {
      NamedLabelsOnlyForNamedCodes(c);
      ReservedBand(c);
      UserPrivateBand(c);
      InvalidBand(c);
    }
    CountBand(LabelNone, 0, 0, 0x100);
    CountBand(LabelDesEcb, 1, 1, 0x100);
    CountBand(LabelDesCbc, 2, 2, 0x100);
    CountBand(LabelTripleDes, 3, 3, 0x100);
    CountBand(LabelReserved, 4, 31, 0x100);
    CountBand(LabelUserPrivate, 32, 63, 0x100);
    CountBand(LabelInvalid, 64, 255, 0x100);
    CountIsCardinality(LabelNone, 0x100);
    CountIsCardinality(LabelDesEcb, 0x100);
    CountIsCardinality(LabelDesCbc, 0x100);
    CountIsCardinality(LabelTripleDes, 0x100);
    CountIsCardinality(LabelReserved, 0x100);
    CountIsCardinality(LabelUserPrivate, 0x100);
    CountIsCardinality(LabelInvalid, 0x100);
  }

  // ---------------------------------------------------------------------
  // The two sets of constants and the packet record.

  /** The 32-bit algorithm identifiers and the 8-bit cipher codes number the
      four algorithms alike, and the classifier names them accordingly. */
  lemma ConstantsAgree()
    ensures EncryptionAlgorithmNone as int == CipherNone as int == 0
    ensures EncryptionAlgorithmDESECB as int == DES_ECB as int == 1
    ensures EncryptionAlgorithmDESCBC as int == DES_CBC as int == 2
    ensures EncryptionAlgorithmTripleDES as int == TripleDES as int == 3
    ensures Reserved == TripleDES + 1 && MaxCipher == 63
    ensures String(EncryptionAlgorithmNone as int as Cipher) == LabelNone
    ensures String(EncryptionAlgorithmDESECB as int as Cipher) == LabelDesEcb
    ensures String(EncryptionAlgorithmDESCBC as int as Cipher) == LabelDesCbc
    ensures String(EncryptionAlgorithmTripleDES as int as Cipher) == LabelTripleDes
  {
  }

  /** A packet reads back exactly the algorithm and control-word index it
      was built from. */
  lemma PacketReadsBack(alg: UInt32, cw: UInt32)
    ensures EncryptedPacket(alg, cw).EncryptionAlgorithm == alg
    ensures EncryptedPacket(alg, cw).CWIndex == cw
  {
  }
}
