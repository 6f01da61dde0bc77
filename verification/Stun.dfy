/**
 * The hand-written walk over the attributes of a STUN response that looks for
 * the server's public IPv4 address.
 */
module Stun {
  import opened Bytes

  const XOR_MAPPED_ADDRESS: nat := 0x0020
  const FAMILIA_IPV4: byte := 0x01
  const CABECALHO: nat := 20

  /** The magic cookie of section 5 of RFC 8489, at bytes 4 to 7 of every request. */
  const COOKIE: seq<byte> := [0x21, 0x12, 0xA4, 0x42]

  /** How far the next attribute is: the value padded to a multiple of 4. */
  function Avanco(tamanho: nat): (n: nat)
    ensures n >= 4 + tamanho && n % 4 == 0 && n < 8 + tamanho
  {
    var avanco := 4 + tamanho;
    if avanco % 4 != 0 then avanco + 4 - avanco % 4 else avanco
  }

  predicate Procurado(tipo: nat, valor: seq<byte>) {
    tipo == XOR_MAPPED_ADDRESS && |valor| >= 8 && valor[1] == FAMILIA_IPV4
  }

  /** What the walk finds in these bytes. */
  function Percorrer(corpo: seq<byte>): (ip: Option<seq<byte>>)
    ensures ip.Some? ==> |ip.value| == 4
    decreases |corpo|
  {
    if |corpo| < 4 then None else
    var tipo := BigEndian(corpo[..2]);
    var tamanho := BigEndian(corpo[2..4]);
    if |corpo| < 4 + tamanho then None else
    var valor := corpo[4..4 + tamanho];
    if Procurado(tipo, valor) then Some(Mascarar(valor[4..8], COOKIE))
    else if Avanco(tamanho) > |corpo| then None
    else Percorrer(corpo[Avanco(tamanho)..])
  }

  lemma {:induction false} PercorrerUm(corpo: seq<byte>)
    ensures |corpo| < 4 ==> Percorrer(corpo) == None
    ensures |corpo| >= 4 ==>
              var tipo := BigEndian(corpo[..2]);
              var tamanho := BigEndian(corpo[2..4]);
              Percorrer(corpo) ==
                if |corpo| < 4 + tamanho then None
                else if Procurado(tipo, corpo[4..4 + tamanho])
                then Some(Mascarar(corpo[4..4 + tamanho][4..8], COOKIE))
                else if Avanco(tamanho) > |corpo| then None
                else Percorrer(corpo[Avanco(tamanho)..])
  {
    hide BigEndian, Mascarar, Procurado, Avanco;
  }

  // ------------------------------------------------------------- the code itself

  /** The loop, on whatever bytes came. */
  method PercorrerAtributos(resposta: array<byte>, n: nat, pedido: array<byte>) returns (ip: Option<seq<byte>>)
    requires CABECALHO <= n <= resposta.Length
    requires pedido.Length == CABECALHO && pedido[4..8] == COOKIE
    ensures ip == Percorrer(resposta[CABECALHO..n])
  {
    hide BigEndian, Mascarar, Percorrer;
    var corpo := resposta[CABECALHO..n];
    while |corpo| >= 4
      invariant Percorrer(corpo) == Percorrer(resposta[CABECALHO..n])
      decreases |corpo|
    {
      PercorrerUm(corpo);
      var tipo := BigEndian(corpo[..2]);
      var tamanho := BigEndian(corpo[2..4]);
      if |corpo| < 4 + tamanho { return None; }
      var valor := corpo[4..4 + tamanho];
      if tipo == 0x0020 && |valor| >= 8 && valor[1] == 0x01 {
        var lido := DesfazerXor(valor, pedido);
        return Some(lido);
      }
      var avanco := 4 + tamanho;
      var resto := avanco % 4;
      if resto != 0 { avanco := avanco + 4 - resto; }
      if avanco > |corpo| { return None; }
      corpo := corpo[avanco..];
    }
    PercorrerUm(corpo);
    return None;
  }

  method DesfazerXor(valor: seq<byte>, pedido: array<byte>) returns (ip: seq<byte>)
    requires |valor| >= 8 && pedido.Length == CABECALHO && pedido[4..8] == COOKIE
    ensures ip == Mascarar(valor[4..8], COOKIE)
  {
    hide Xor;
    ip := [];
    for i := 0 to 4
      invariant ip == Mascarar(valor[4..8], COOKIE)[..i]
    {
      ip := ip + [Xor(valor[4 + i], pedido[4 + i])];
      assert pedido[4 + i] == pedido[4..8][i];
    }
  }

  /** The address read from a response of n bytes, None for "". */
  method LerResposta(resposta: array<byte>, n: nat, pedido: array<byte>) returns (ip: Option<seq<byte>>)
    requires n <= resposta.Length
    requires pedido.Length == CABECALHO && pedido[4..8] == COOKIE
    ensures ip == if n < 20 then None else Percorrer(resposta[20..n])
  {
    if n < 20 { return None; }
    ip := PercorrerAtributos(resposta, n, pedido);
  }

  // ----------------------------------------------------- attributes on the wire

  /** Section 14 of RFC 8489: type, length of the value, value, padding of any content. */
  datatype Atributo = Atributo(tipo: nat, valor: seq<byte>, enchimento: seq<byte>)

  predicate BemFormado(a: Atributo) {
    a.tipo < 0x1_0000 && |a.valor| < 0x1_0000 && |a.enchimento| < 4 && (|a.valor| + |a.enchimento|) % 4 == 0
  }

  function SemEnchimento(a: Atributo): seq<byte> {
    PutBigEndian(a.tipo, 2) + PutBigEndian(|a.valor|, 2) + a.valor
  }

  function Fio(atributos: seq<Atributo>): seq<byte> {
    if atributos == [] then []
    else SemEnchimento(atributos[0]) + atributos[0].enchimento + Fio(atributos[1..])
  }

  /** An IPv4 XOR-MAPPED-ADDRESS: type 0x0020, at least 8 bytes of value, family 0x01. */
  predicate MapeiaIPv4(a: Atributo) { a.tipo == 0x0020 && |a.valor| >= 8 && a.valor[1] == 0x01 }

  /** The address an attribute maps, if it is one. */
  function Endereco(a: Atributo): Option<seq<byte>> {
    if Procurado(a.tipo, a.valor) then Some(Mascarar(a.valor[4..8], COOKIE)) else None
  }

  function PrimeiroEndereco(atributos: seq<Atributo>): Option<seq<byte>> {
    if atributos == [] then None
    else if Endereco(atributos[0]).Some? then Endereco(atributos[0])
    else PrimeiroEndereco(atributos[1..])
  }

  /** Exactly those attributes map an address: bytes 4 to 7 of the value with the magic cookie taken off. */
  lemma {:induction false} EnderecoDiz(a: Atributo)
    ensures Endereco(a).Some? <==> MapeiaIPv4(a)
    ensures MapeiaIPv4(a) ==>
              Endereco(a).value ==
                [Xor(a.valor[4], 0x21), Xor(a.valor[5], 0x12), Xor(a.valor[6], 0xA4), Xor(a.valor[7], 0x42)]
  {
    hide Xor;
    if MapeiaIPv4(a) {
      assert Endereco(a).value == Mascarar(a.valor[4..8], COOKIE);
      assert COOKIE[0] == 0x21 && COOKIE[1] == 0x12 && COOKIE[2] == 0xA4 && COOKIE[3] == 0x42;
    }
  }

  lemma {:induction false} NenhumMapeia(atributos: seq<Atributo>)
    ensures PrimeiroEndereco(atributos) == None <==> forall i | 0 <= i < |atributos| :: !MapeiaIPv4(atributos[i])
  {
    hide Endereco, MapeiaIPv4;
    if atributos != [] {
      EnderecoDiz(atributos[0]);
      NenhumMapeia(atributos[1..]);
      forall i | 1 <= i < |atributos| ensures atributos[i] == atributos[1..][i - 1] {}
    }
  }

  ghost predicate BemFormados(atributos: seq<Atributo>) {
    forall i | 0 <= i < |atributos| :: BemFormado(atributos[i])
  }

  lemma EnchimentoExato(a: Atributo)
    requires BemFormado(a)
    ensures Avanco(|a.valor|) == 4 + |a.valor| + |a.enchimento|
  {
  }

  /** The header of an attribute reads back. */
  lemma CabecalhoLido(a: Atributo, resto: seq<byte>)
    requires a.tipo < 0x1_0000 && |a.valor| < 0x1_0000
    ensures var corpo := SemEnchimento(a) + resto;
            && |corpo| == 4 + |a.valor| + |resto|
            && BigEndian(corpo[..2]) == a.tipo && BigEndian(corpo[2..4]) == |a.valor|
            && corpo[4..4 + |a.valor|] == a.valor && corpo[4 + |a.valor|..] == resto
  {
    hide BigEndian, PutBigEndian;
    Pow256Values();
    var corpo := SemEnchimento(a) + resto;
    BigEndianRoundTrip(a.tipo, 2);
    BigEndianRoundTrip(|a.valor|, 2);
    assert corpo[..2] == PutBigEndian(a.tipo, 2);
    assert corpo[2..4] == PutBigEndian(|a.valor|, 2);
  }

  /** One attribute of the walk, whole or with its padding cut off. */
  lemma {:induction false} UmAtributo(a: Atributo, resto: seq<byte>)
    requires a.tipo < 0x1_0000 && |a.valor| < 0x1_0000
    ensures Percorrer(SemEnchimento(a) + resto) ==
              if Endereco(a).Some? then Endereco(a)
              else if Avanco(|a.valor|) > 4 + |a.valor| + |resto| then None
              else Percorrer(resto[Avanco(|a.valor|) - 4 - |a.valor|..])
  {
    hide BigEndian, SemEnchimento, Mascarar, Avanco, Percorrer;
    CabecalhoLido(a, resto);
    PercorrerUm(SemEnchimento(a) + resto);
    var corpo := SemEnchimento(a) + resto;
    var tamanho := |a.valor|;
    if Avanco(tamanho) <= |corpo| {
      assert corpo[Avanco(tamanho)..] == corpo[4 + tamanho..][Avanco(tamanho) - 4 - tamanho..];
    }
  }

  /**
   * Over any well-formed attributes, and whatever follows them, the walk returns
   * the address of the first IPv4 XOR-MAPPED-ADDRESS; without one it goes on with
   * what follows.
   */
  lemma {:induction false} AchaOPrimeiro(atributos: seq<Atributo>, resto: seq<byte>)
    requires BemFormados(atributos)
    ensures Percorrer(Fio(atributos) + resto) ==
              if PrimeiroEndereco(atributos).Some? then PrimeiroEndereco(atributos) else Percorrer(resto)
  {
    hide Percorrer, SemEnchimento, Endereco, Avanco;
    if atributos == [] {
      assert Fio(atributos) + resto == resto;
    } else {
      var a := atributos[0];
      var depois := a.enchimento + (Fio(atributos[1..]) + resto);
      assert BemFormado(a);
      assert Fio(atributos) + resto == SemEnchimento(a) + depois;
      UmAtributo(a, depois);
      EnchimentoExato(a);
      assert depois[|a.enchimento|..] == Fio(atributos[1..]) + resto;
      AchaOPrimeiro(atributos[1..], resto);
    }
  }

  /** Section 14.2 of RFC 8489: reserved byte, family, port and address, the address XORed with the cookie. */
  function ValorMapeado(reservado: byte, porta: seq<byte>, ip: seq<byte>): (valor: seq<byte>)
    requires |porta| == 2 && |ip| == 4
    ensures |valor| == 8
  {
    [reservado, FAMILIA_IPV4] + porta + Mascarar(ip, COOKIE)
  }

  /**
   * So the address a server mapped is the one reported, when no attribute before
   * it maps an IPv4 address and whatever comes after it.
   */
  lemma {:induction false} DevolveOEnderecoMapeado(antes: seq<Atributo>, reservado: byte, porta: seq<byte>, ip: seq<byte>, resto: seq<byte>)
    requires BemFormados(antes) && (forall i | 0 <= i < |antes| :: !MapeiaIPv4(antes[i])) && |porta| == 2 && |ip| == 4
    ensures var a := Atributo(0x0020, [reservado, 0x01] + porta + Mascarar(ip, [0x21, 0x12, 0xA4, 0x42]), []);
            Percorrer(Fio(antes) + SemEnchimento(a) + resto) == Some(ip)
  {
    hide Percorrer, SemEnchimento, Mascarar, Fio, PrimeiroEndereco;
    NenhumMapeia(antes);
    var a := Atributo(XOR_MAPPED_ADDRESS, ValorMapeado(reservado, porta, ip), []);
    assert Fio(antes) + SemEnchimento(a) + resto == Fio(antes) + (SemEnchimento(a) + resto);
    AchaOPrimeiro(antes, SemEnchimento(a) + resto);
    UmAtributo(a, resto);
    assert a.valor[4..8] == Mascarar(ip, COOKIE);
    MascararTwice(ip, COOKIE);
  }

  /**
   * On arbitrary bytes: an address is reported only from an IPv4
   * XOR-MAPPED-ADDRESS that lies in the bytes after well-formed attributes none of
   * which is one.
   */
  lemma {:induction false} SoDevolveMapeado(corpo: seq<byte>)
      returns (antes: seq<Atributo>, a: Atributo, resto: seq<byte>)
    requires Percorrer(corpo).Some?
    ensures BemFormados(antes) && forall i | 0 <= i < |antes| :: !MapeiaIPv4(antes[i])
    ensures |a.valor| < 0x1_0000 && MapeiaIPv4(a) && Endereco(a) == Percorrer(corpo)
    ensures corpo == Fio(antes) + (SemEnchimento(a) + resto)
    decreases |corpo|
  {
    hide BigEndian, SemEnchimento, Percorrer, Mascarar, BemFormado, Avanco, Procurado;
    PercorrerUm(corpo);
    var tipo := BigEndian(corpo[..2]);
    var tamanho := BigEndian(corpo[2..4]);
    var valor := corpo[4..4 + tamanho];
    CabecalhoEscrito(corpo, tipo, tamanho, valor);
    if Procurado(tipo, valor) {
      antes, a, resto := [], Atributo(tipo, valor, []), corpo[4 + tamanho..];
      assert corpo == [] + (SemEnchimento(a) + resto);
    } else {
      var fim := Avanco(tamanho);
      antes, a, resto := SoDevolveMapeado(corpo[fim..]);
      NenhumMapeia(antes);
      var b := ComEnchimento(corpo, tipo, tamanho, valor);
      ComMaisUm(b, antes, SemEnchimento(a) + resto);
      antes := [b] + antes;
      NenhumMapeia(antes);
    }
    EnderecoDiz(a);
  }

  lemma ComEnchimento(corpo: seq<byte>, tipo: nat, tamanho: nat, valor: seq<byte>) returns (b: Atributo)
    requires |corpo| >= 4 && tipo == BigEndian(corpo[..2]) && tamanho == BigEndian(corpo[2..4])
    requires Avanco(tamanho) <= |corpo| && valor == corpo[4..4 + tamanho]
    ensures b.tipo == tipo && b.valor == valor && BemFormado(b)
    ensures corpo == SemEnchimento(b) + (b.enchimento + corpo[Avanco(tamanho)..])
  {
    hide BigEndian, SemEnchimento;
    var fim := Avanco(tamanho);
    CabecalhoEscrito(corpo, tipo, tamanho, valor);
    b := Atributo(tipo, valor, corpo[4 + tamanho..fim]);
    assert corpo[4 + tamanho..] == b.enchimento + corpo[fim..];
  }

  lemma CabecalhoEscrito(corpo: seq<byte>, tipo: nat, tamanho: nat, valor: seq<byte>)
    requires |corpo| >= 4 && tipo == BigEndian(corpo[..2]) && tamanho == BigEndian(corpo[2..4])
    requires |corpo| >= 4 + tamanho && valor == corpo[4..4 + tamanho]
    ensures tipo < 0x1_0000 && tamanho < 0x1_0000
    ensures forall e :: corpo == SemEnchimento(Atributo(tipo, valor, e)) + corpo[4 + tamanho..]
  {
    hide BigEndian, PutBigEndian;
    Pow256Values();
    PutBigEndianRoundTrip(corpo[..2]);
    PutBigEndianRoundTrip(corpo[2..4]);
    assert corpo == corpo[..2] + corpo[2..4] + valor + corpo[4 + tamanho..];
  }

  lemma {:induction false} ComMaisUm(b: Atributo, antes: seq<Atributo>, depois: seq<byte>)
    requires BemFormados(antes) && BemFormado(b) && PrimeiroEndereco(antes) == None && Endereco(b) == None
    ensures BemFormados([b] + antes) && PrimeiroEndereco([b] + antes) == None
    ensures Fio([b] + antes) + depois == SemEnchimento(b) + (b.enchimento + (Fio(antes) + depois))
  {
    hide SemEnchimento, BemFormado, Endereco;
    assert ([b] + antes)[1..] == antes;
  }
}
