/** Bytes, big-endian integers and the XOR mask shared by the two WebSocket codecs. */
module Bytes {
  type byte = b: int | 0 <= b < 256

  // ---------------------------------------------------------------- bit fields

  /** b & 0x80 != 0 */
  predicate BitAlto(b: byte) { b >= 0x80 }

  /** b & 0x70 != 0 */
  predicate BitsMedios(b: byte) { (b / 0x10) % 8 != 0 }

  /** b & 0x0F */
  function Baixos4(b: byte): byte { b % 0x10 }

  /** b & 0x7F */
  function Baixos7(b: byte): byte { b % 0x80 }

  // The arithmetic readings above are the bit operations they stand for.
  lemma BitFields(v: bv8)
    ensures (v & 0x80 != 0) == BitAlto(v as int)
    ensures (v & 0x70 != 0) == BitsMedios(v as int)
  {
  }

  lemma LowBitFields(v: bv8)
    ensures (v & 0x0F) as int == Baixos4(v as int)
    ensures (v & 0x7F) as int == Baixos7(v as int)
    ensures v < 0x80 ==> (0x80 | v) as int == 0x80 + v as int
  {
  }

  // ------------------------------------------------------------- exclusive or

  function Pot2(n: nat): (p: nat)
    ensures p > 0
  {
    if n == 0 then 1 else 2 * Pot2(n - 1)
  }

  /** The n low bits in which a and b differ. */
  function XorBits(a: nat, b: nat, n: nat): nat {
    if n == 0 then 0 else 2 * XorBits(a / 2, b / 2, n - 1) + (a + b) % 2
  }

  lemma {:induction false} XorBitsCabe(a: nat, b: nat, n: nat)
    ensures XorBits(a, b, n) < Pot2(n)
  {
    if n > 0 { XorBitsCabe(a / 2, b / 2, n - 1); }
  }

  function Xor(a: byte, b: byte): byte {
    assert Pot2(8) == 256;
    XorBitsCabe(a, b, 8);
    XorBits(a, b, 8)
  }

  lemma XorUmBit(a: nat, b: nat, n: nat)
    requires n > 0
    ensures XorBits(a, b, n) == 2 * XorBits(a / 2, b / 2, n - 1) + (a + b) % 2
    ensures a < Pot2(n) ==> a / 2 < Pot2(n - 1)
  {
  }

  lemma Dobro(x: nat, c: nat)
    requires c < 2
    ensures (2 * x + c) / 2 == x && (2 * x + c) % 2 == c
  {
  }

  lemma BitDeVolta(a: nat, b: nat, x: nat)
    requires x % 2 == (a + b) % 2
    ensures 2 * (a / 2) + (x + b) % 2 == a
  {
  }

  lemma {:induction false} XorBitsDuas(a: nat, b: nat, n: nat)
    requires a < Pot2(n)
    ensures XorBits(XorBits(a, b, n), b, n) == a
    decreases n
  {
    if n > 0 { XorBitsDuasPasso(a, b, n); }
  }

  lemma {:induction false} XorBitsDuasPasso(a: nat, b: nat, n: nat)
    requires n > 0 && a < Pot2(n)
    ensures XorBits(XorBits(a, b, n), b, n) == a
    decreases n, 0
  {
    hide XorBits, Pot2;
    var x, y := XorBits(a, b, n), XorBits(a / 2, b / 2, n - 1);
    XorUmBit(a, b, n);
    XorUmBit(x, b, n);
    Dobro(y, (a + b) % 2);
    XorBitsDuas(a / 2, b / 2, n - 1);
    BitDeVolta(a, b, x);
  }

  lemma {:induction false} XorTwice(a: byte, b: byte)
    ensures Xor(Xor(a, b), b) == a
  {
    assert Pot2(8) == 256;
    XorBitsDuas(a, b, 8);
  }

  // The reading by bits is the machine's operation on bytes.
  function Inteiro(v: bv8): nat { v as int }
  function XorBv(v: bv8, w: bv8): bv8 { v ^ w }
  function Metade(v: bv8): bv8 { v >> 1 }
  function Bit(v: bv8): bv8 { v & 1 }

  lemma XorPorPartes(v: bv8, w: bv8)
    ensures Metade(XorBv(v, w)) == XorBv(Metade(v), Metade(w))
    ensures Bit(XorBv(v, w)) == XorBv(Bit(v), Bit(w))
  {
  }

  lemma MetadeDivide(v: bv8)
    ensures Inteiro(Metade(v)) == Inteiro(v) / 2
  {
  }

  lemma BitEResto(v: bv8)
    ensures Inteiro(Bit(v)) == Inteiro(v) % 2
  {
  }

  lemma XorDeBit(v: bv8, w: bv8)
    ensures Inteiro(XorBv(Bit(v), Bit(w))) == (Inteiro(Bit(v)) + Inteiro(Bit(w))) % 2
  {
  }

  lemma XorZero(v: bv8, w: bv8)
    requires Inteiro(v) < 1 && Inteiro(w) < 1
    ensures Inteiro(XorBv(v, w)) == 0
  {
  }

  lemma Remontar(x: nat, a: nat, b: nat)
    requires x % 2 == (a % 2 + b % 2) % 2
    ensures x == 2 * (x / 2) + (a + b) % 2
  {
  }

  lemma XorBvUmBit(v: bv8, w: bv8)
    ensures Inteiro(XorBv(v, w)) == 2 * Inteiro(XorBv(Metade(v), Metade(w))) + (Inteiro(v) + Inteiro(w)) % 2
  {
    hide Inteiro, XorBv, Metade, Bit;
    XorPorPartes(v, w);
    var x := XorBv(v, w);
    MetadeDivide(x);
    BitEResto(x);
    BitEResto(v);
    BitEResto(w);
    XorDeBit(v, w);
    Remontar(Inteiro(x), Inteiro(v), Inteiro(w));
  }

  lemma {:induction false} XorDeBits(v: bv8, w: bv8, n: nat)
    requires Inteiro(v) < Pot2(n) && Inteiro(w) < Pot2(n)
    ensures Inteiro(XorBv(v, w)) == XorBits(Inteiro(v), Inteiro(w), n)
    decreases n
  {
    hide Inteiro, XorBv, Metade;
    if n == 0 {
      XorZero(v, w);
    } else {
      XorDeBitsPasso(v, w, n);
    }
  }

  lemma {:induction false} XorDeBitsPasso(v: bv8, w: bv8, n: nat)
    requires n > 0 && Inteiro(v) < Pot2(n) && Inteiro(w) < Pot2(n)
    ensures Inteiro(XorBv(v, w)) == XorBits(Inteiro(v), Inteiro(w), n)
    decreases n, 0
  {
    hide Inteiro, XorBv, Metade, XorBits, Pot2;
    MetadeDivide(v);
    MetadeDivide(w);
    XorBvUmBit(v, w);
    XorUmBit(Inteiro(v), Inteiro(w), n);
    XorUmBit(Inteiro(w), Inteiro(v), n);
    XorDeBits(Metade(v), Metade(w), n - 1);
  }

  lemma {:induction false} XorFields(v: bv8, w: bv8)
    ensures (v ^ w) as int == Xor(v as int, w as int)
  {
    assert Pot2(8) == 256;
    XorDeBits(v, w, 8);
  }

  datatype Option<+T> = None | Some(value: T)

  function Pow256(k: nat): (p: nat)
    ensures p > 0
  {
    if k == 0 then 1 else 256 * Pow256(k - 1)
  }

  lemma Pow256Values()
    ensures Pow256(2) == 0x1_0000
    ensures Pow256(8) == 0x1_0000_0000_0000_0000
  {
    assert Pow256(4) == 0x1_0000_0000;
    assert Pow256(6) == 0x1_0000_0000_0000;
  }

  /** The unsigned integer whose big-endian bytes are s. */
  function BigEndian(s: seq<byte>): nat
  {
    if s == [] then 0 else 256 * BigEndian(s[..|s| - 1]) + s[|s| - 1]
  }

  /** The k low-order bytes of n, most significant first. */
  function PutBigEndian(n: nat, k: nat): (s: seq<byte>)
    ensures |s| == k
  {
    if k == 0 then [] else PutBigEndian(n / 256, k - 1) + [n % 256]
  }

  lemma {:induction false} BigEndianRoundTrip(n: nat, k: nat)
    requires n < Pow256(k)
    ensures BigEndian(PutBigEndian(n, k)) == n
  {
    if k > 0 {
      BigEndianRoundTrip(n / 256, k - 1);
      var s := PutBigEndian(n, k);
      assert s[..k - 1] == PutBigEndian(n / 256, k - 1);
    }
  }

  lemma {:induction false} PutBigEndianRoundTrip(s: seq<byte>)
    ensures BigEndian(s) < Pow256(|s|)
    ensures PutBigEndian(BigEndian(s), |s|) == s
  {
    if s != [] {
      PutBigEndianRoundTrip(s[..|s| - 1]);
      assert BigEndian(s) / 256 == BigEndian(s[..|s| - 1]);
      assert BigEndian(s) % 256 == s[|s| - 1];
    }
  }

  /** Section 5.3 of RFC 6455: octet i is XORed with octet i mod 4 of the key. */
  function Mascarar(dados: seq<byte>, mascara: seq<byte>): (r: seq<byte>)
    requires |mascara| == 4
    ensures |r| == |dados|
  {
    seq(|dados|, i requires 0 <= i < |dados| => Xor(dados[i], mascara[i % 4]))
  }

  lemma MascararTwice(dados: seq<byte>, mascara: seq<byte>)
    requires |mascara| == 4
    ensures Mascarar(Mascarar(dados, mascara), mascara) == dados
  {
    var r := Mascarar(Mascarar(dados, mascara), mascara);
    forall i | 0 <= i < |dados| ensures r[i] == dados[i] {
      XorTwice(dados[i], mascara[i % 4]);
    }
  }
}
