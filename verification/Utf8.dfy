/** Runes in UTF-8 (section 3 of RFC 3629) and which of them are white space. */
module Utf8 {
  import opened Bytes

  /** The bytes of a rune. */
  function Codificado(n: nat): (b: seq<byte>)
    requires n < 0x11_0000
    ensures 1 <= |b| <= 4
  {
    if n < 0x80 then [n]
    else if n < 0x800 then [0xC0 + n / 0x40, 0x80 + n % 0x40]
    else if n < 0x1_0000 then [0xE0 + n / 0x1000, 0x80 + n / 0x40 % 0x40, 0x80 + n % 0x40]
    else [0xF0 + n / 0x4_0000, 0x80 + n / 0x1000 % 0x40, 0x80 + n / 0x40 % 0x40, 0x80 + n % 0x40]
  }

  predicate Runas(ns: seq<nat>) { forall i | 0 <= i < |ns| :: ns[i] < 0x11_0000 }

  function Codificados(ns: seq<nat>): seq<byte>
    requires Runas(ns)
  {
    if ns == [] then [] else Codificado(ns[0]) + Codificados(ns[1..])
  }

  /** unicode.IsSpace */
  predicate Espaco(n: nat) {
    || 0x09 <= n <= 0x0D || n == 0x20 || n == 0x85 || n == 0xA0 || n == 0x1680
    || 0x2000 <= n <= 0x200A || n == 0x2028 || n == 0x2029 || n == 0x202F || n == 0x205F || n == 0x3000
  }
}
