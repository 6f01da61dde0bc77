/**
 * Frames on the wire (sections 5.2 to 5.5 of RFC 6455), as the server and the
 * load client write them and as the server reads them. The wire forms are
 * described from the sender's side (FioCliente, FioServidor) and decoding is a
 * separate function on arbitrary bytes; the lemmas connect the two.
 */
module Frames {
  import opened Bytes

  const CONTINUACAO: byte := 0x0
  const TEXTO: byte := 0x1
  const BINARIO: byte := 0x2
  const FECHAR: byte := 0x8
  const PING: byte := 0x9
  const PONG: byte := 0xA

  const TAMANHO_MAXIMO_MENSAGEM: nat := 0x10_0000

  datatype Quadro = Quadro(fim: bool, opcode: byte, dados: seq<byte>)

  /** The three payload-length encodings; a receiver accepts any that fits. */
  datatype Forma = Curta | Media | Longa

  predicate Cabe(forma: Forma, tamanho: nat) {
    match forma
    case Curta => tamanho <= 125
    case Media => tamanho <= 0xFFFF
    case Longa => tamanho < 0x1_0000_0000_0000_0000
  }

  /** The shortest form, the one both writers choose. */
  function FormaMinima(tamanho: nat): Forma {
    if tamanho <= 125 then Curta else if tamanho <= 0xFFFF then Media else Longa
  }

  function CampoDeTamanho(forma: Forma, tamanho: nat): (b: byte)
    requires Cabe(forma, tamanho)
    ensures b <= 127
  {
    match forma
    case Curta => tamanho
    case Media => 126
    case Longa => 127
  }

  /** How many extended-length bytes a form uses. */
  function Largura(forma: Forma): nat {
    match forma
    case Curta => 0
    case Media => 2
    case Longa => 8
  }

  function Extensao(forma: Forma, tamanho: nat): (ext: seq<byte>)
    ensures |ext| == Largura(forma)
  {
    PutBigEndian(tamanho, Largura(forma))
  }

  function PrimeiroByte(q: Quadro): byte
    requires q.opcode < 16
  {
    (if q.fim then 0x80 else 0x00) + q.opcode
  }

  /** A masked frame, the only kind a client may send (section 5.1). */
  function FioCliente(q: Quadro, mascara: seq<byte>, forma: Forma): seq<byte>
    requires q.opcode < 16 && |mascara| == 4 && Cabe(forma, |q.dados|)
  {
    [PrimeiroByte(q), 0x80 + CampoDeTamanho(forma, |q.dados|)]
    + Extensao(forma, |q.dados|) + mascara + Mascarar(q.dados, mascara)
  }

  /** An unmasked, unfragmented frame in the shortest form. */
  function FioServidor(opcode: byte, dados: seq<byte>): seq<byte>
    requires opcode < 16 && Cabe(Longa, |dados|)
  {
    var forma := FormaMinima(|dados|);
    [0x80 + opcode, CampoDeTamanho(forma, |dados|)] + Extensao(forma, |dados|) + dados
  }

  /** The shortest form fits whatever some form fits, and no form that fits takes fewer bytes. */
  lemma FormaMinimaDiz(forma: Forma, n: nat)
    requires Cabe(forma, n)
    ensures Cabe(FormaMinima(n), n) && Largura(FormaMinima(n)) <= Largura(forma)
    ensures n < 0x1_0000_0000_0000_0000
  {
  }

  /** Byte by byte, what the server's frame of n bytes of payload is on the wire. */
  lemma {:induction false} FioServidorDiz(opcode: byte, dados: seq<byte>)
    requires opcode < 16 && |dados| < 0x1_0000_0000_0000_0000
    ensures var n := |dados|;
            var fio := FioServidor(opcode, dados);
            && (n <= 125 ==> fio == [0x80 + opcode, n] + dados)
            && (125 < n <= 0xFFFF ==> fio == [0x80 + opcode, 126, n / 256, n % 256] + dados)
            && (n > 0xFFFF ==> |fio| == 10 + n && fio[..2] == [0x80 + opcode, 127]
                               && BigEndian(fio[2..10]) == n && fio[10..] == dados)
  {
    hide BigEndian;
    var n := |dados|;
    Pow256Values();
    if 125 < n <= 0xFFFF {
      assert PutBigEndian(n, 2) == PutBigEndian(n / 256, 1) + [n % 256];
      assert PutBigEndian(n / 256, 1) == [] + [n / 256];
    } else if n > 0xFFFF {
      hide PutBigEndian;
      ExtensaoVale(Longa, n);
      assert FioServidor(opcode, dados)[2..10] == Extensao(Longa, n);
    }
  }

  predicate Controle(opcode: byte) { opcode >= 0x8 }

  /** What the server accepts of a frame, apart from its encoding. */
  predicate QuadroValido(q: Quadro) {
    && q.opcode < 16
    && |q.dados| <= TAMANHO_MAXIMO_MENSAGEM
    && (Controle(q.opcode) ==> q.fim && |q.dados| <= 125)
  }

  datatype Falha = Truncado | BitsRSV | ControleInvalido | SemMascara | GrandeDemais

  datatype Leitura = Lido(q: Quadro, resto: seq<byte>) | Recusado(falha: Falha)

  /** How many extended-length bytes follow a 7-bit length field. */
  function BytesDeExtensao(t7: nat): nat {
    if t7 == 126 then 2 else if t7 == 127 then 8 else 0
  }

  /** The server's reading of the next frame of an arbitrary byte stream. */
  function Decodificar(s: seq<byte>): (r: Leitura)
    ensures r.Lido? ==> |r.resto| + 6 + |r.q.dados| <= |s|
  {
    if |s| < 2 then Recusado(Truncado) else
    var fim := BitAlto(s[0]);
    if BitsMedios(s[0]) then Recusado(BitsRSV) else
    var opcode := Baixos4(s[0]);
    var mascarado := BitAlto(s[1]);
    var t7 := Baixos7(s[1]);
    if Controle(opcode) && (!fim || t7 > 125) then Recusado(ControleInvalido) else
    var k := BytesDeExtensao(t7);
    if |s| < 2 + k then Recusado(Truncado) else
    var tamanho := if k == 0 then t7 else BigEndian(s[2..2 + k]);
    if !mascarado then Recusado(SemMascara) else
    if tamanho > TAMANHO_MAXIMO_MENSAGEM then Recusado(GrandeDemais) else
    if |s| < 6 + k + tamanho then Recusado(Truncado) else
    var mascara := s[2 + k..6 + k];
    Lido(Quadro(fim, opcode, Mascarar(s[6 + k..6 + k + tamanho], mascara)), s[6 + k + tamanho..])
  }

  // -------------------------------------------------- encode and decode agree

  lemma LimiteDaForma(forma: Forma, n: nat)
    requires !forma.Curta?
    ensures Cabe(forma, n) <==> n < Pow256(Largura(forma))
  {
    Pow256Values();
  }

  lemma CampoVale(forma: Forma, n: nat)
    requires Cabe(forma, n)
    ensures CampoDeTamanho(forma, n) == if forma.Curta? then n else if forma.Media? then 126 else 127
  {
  }

  lemma ExtensaoVale(forma: Forma, n: nat)
    requires Cabe(forma, n) && !forma.Curta?
    ensures BigEndian(Extensao(forma, n)) == n
  {
    LimiteDaForma(forma, n);
    BigEndianRoundTrip(n, Largura(forma));
  }

  /** Where the parts of a client frame lie in a stream that starts with it. */
  lemma PartesDoFio(q: Quadro, mascara: seq<byte>, forma: Forma, resto: seq<byte>)
    requires q.opcode < 16 && |mascara| == 4 && Cabe(forma, |q.dados|)
    ensures var s := FioCliente(q, mascara, forma) + resto;
            var k := Largura(forma);
            var n := |q.dados|;
            && |s| == 6 + k + n + |resto|
            && s[0] == PrimeiroByte(q) && s[1] == 0x80 + CampoDeTamanho(forma, n)
            && s[2..2 + k] == Extensao(forma, n)
            && s[2 + k..6 + k] == mascara
            && s[6 + k..6 + k + n] == Mascarar(q.dados, mascara)
            && s[6 + k + n..] == resto
  {
  }

  /**
   * Any masked frame, valid or not, whatever follows it: it is taken, or refused as an
   * invalid control frame when it is one that is fragmented or not in the short form,
   * or as too big when it is past 1 MiB.
   */
  lemma {:induction false} QualquerFio(q: Quadro, mascara: seq<byte>, forma: Forma, resto: seq<byte>)
    requires q.opcode < 16 && |mascara| == 4 && Cabe(forma, |q.dados|)
    ensures Decodificar(FioCliente(q, mascara, forma) + resto) ==
              if q.opcode >= 8 && (!q.fim || !forma.Curta?) then Recusado(ControleInvalido)
              else if |q.dados| > 0x10_0000 then Recusado(GrandeDemais)
              else Lido(q, resto)
  {
    hide BigEndian, Mascarar, Extensao, FioCliente;
    var n := |q.dados|;
    var s := FioCliente(q, mascara, forma) + resto;
    PartesDoFio(q, mascara, forma, resto);
    CampoVale(forma, n);
    assert BytesDeExtensao(Baixos7(s[1])) == Largura(forma);
    if !forma.Curta? { ExtensaoVale(forma, n); }
    MascararTwice(q.dados, mascara);
  }

  /** Every legal client encoding of a valid frame is read back exactly, whatever follows it. */
  lemma DecodificaTodoFio(q: Quadro, mascara: seq<byte>, forma: Forma, resto: seq<byte>)
    requires QuadroValido(q) && |mascara| == 4 && Cabe(forma, |q.dados|)
    requires Controle(q.opcode) ==> forma.Curta?
    ensures Decodificar(FioCliente(q, mascara, forma) + resto) == Lido(q, resto)
  {
    QualquerFio(q, mascara, forma, resto);
  }

  /** A frame that has not wholly arrived is waited for: no proper prefix is taken, or refused for anything else. */
  lemma {:induction false} PrefixoTruncado(q: Quadro, mascara: seq<byte>, forma: Forma, n: nat)
    requires QuadroValido(q) && |mascara| == 4 && Cabe(forma, |q.dados|) && (Controle(q.opcode) ==> forma.Curta?)
    requires n < |FioCliente(q, mascara, forma)|
    ensures Decodificar(FioCliente(q, mascara, forma)[..n]) == Recusado(Truncado)
  {
    hide BigEndian, Mascarar, Extensao, FioCliente;
    var fio := FioCliente(q, mascara, forma);
    var k := Largura(forma);
    PartesDoFio(q, mascara, forma, []);
    assert fio + [] == fio;
    if n >= 2 {
      CampoVale(forma, |q.dados|);
      assert BytesDeExtensao(Baixos7(fio[1])) == k;
      if n >= 2 + k {
        assert fio[..n][2..2 + k] == fio[2..2 + k];
        if !forma.Curta? { ExtensaoVale(forma, |q.dados|); }
      }
    }
  }

  /** A frame without a mask, as the server itself writes them, is refused. */
  lemma {:induction false} SemMascaraRecusado(opcode: byte, dados: seq<byte>, resto: seq<byte>)
    requires opcode < 16 && |dados| < 0x1_0000_0000_0000_0000 && (opcode >= 8 ==> |dados| <= 125)
    ensures Decodificar(FioServidor(opcode, dados) + resto) == Recusado(SemMascara)
  {
    hide BigEndian;
    var s := FioServidor(opcode, dados) + resto;
    var forma := FormaMinima(|dados|);
    CampoVale(forma, |dados|);
    assert s[1] == CampoDeTamanho(forma, |dados|);
    assert |s| >= 2 + Largura(forma);
  }

  /** A reserved bit set is refused, whatever else the bytes say. */
  lemma {:induction false} ReservadoRecusado(alto: byte, reservados: byte, opcode: byte, resto: seq<byte>)
    requires alto in {0, 0x80} && 0 < reservados < 8 && opcode < 16 && resto != []
    ensures Decodificar([alto + 16 * reservados + opcode] + resto) == Recusado(BitsRSV)
  {
    var b := alto + 16 * reservados + opcode;
    assert b / 0x10 == (if alto == 0 then 0 else 8) + reservados;
  }

  /** The wire forms of q: some key and some fitting length form. */
  ghost predicate EhFio(q: Quadro, fio: seq<byte>) {
    q.opcode < 16 && exists mascara: seq<byte>, forma: Forma ::
      |mascara| == 4 && Cabe(forma, |q.dados|) && fio == FioCliente(q, mascara, forma)
  }

  function FormaLida(t7: byte): Forma {
    if t7 == 126 then Media else if t7 == 127 then Longa else Curta
  }

  lemma {:induction false} TamanhoLido(t7: byte, ext: seq<byte>)
    requires t7 <= 127 && |ext| == BytesDeExtensao(t7)
    ensures var n := if |ext| == 0 then t7 else BigEndian(ext);
            && Cabe(FormaLida(t7), n)
            && CampoDeTamanho(FormaLida(t7), n) == t7
            && Extensao(FormaLida(t7), n) == ext
  {
    PutBigEndianRoundTrip(ext);
    if |ext| != 0 { LimiteDaForma(FormaLida(t7), BigEndian(ext)); }
  }

  lemma Fatiar(s: seq<byte>, a: nat, b: nat, c: nat)
    requires 2 <= a <= b <= c <= |s|
    ensures s[..c] == [s[0], s[1]] + s[2..a] + s[a..b] + s[b..c]
  {
  }

  /** Whatever the server accepts was a wire form of a valid frame, and nothing else was consumed. */
  lemma SoDecodificaFio(s: seq<byte>)
    requires Decodificar(s).Lido?
    ensures var r := Decodificar(s);
            && QuadroValido(r.q)
            && |r.resto| <= |s|
            && s[|s| - |r.resto|..] == r.resto
            && EhFio(r.q, s[..|s| - |r.resto|])
  {
    hide BigEndian, Mascarar, Extensao, CampoDeTamanho, Cabe, Pow256;
    var r := Decodificar(s);
    var t7 := Baixos7(s[1]);
    var k := BytesDeExtensao(t7);
    var n := |r.q.dados|;
    TamanhoLido(t7, s[2..2 + k]);
    var mascara := s[2 + k..6 + k];
    MascararTwice(s[6 + k..6 + k + n], mascara);
    Fatiar(s, 2 + k, 6 + k, 6 + k + n);
    assert s[..6 + k + n] == FioCliente(r.q, mascara, FormaLida(t7));
  }

  /** No bytes that the server reads as a frame are fewer than that frame in its shortest form. */
  lemma {:induction false} NenhumMaisCurto(s: seq<byte>, mascara: seq<byte>)
    requires Decodificar(s).Lido? && |mascara| == 4
    ensures var r := Decodificar(s);
            var n := |r.q.dados|;
            && r.q.opcode < 16 && Cabe(FormaMinima(n), n)
            && |FioCliente(r.q, mascara, FormaMinima(n))| <= |s| - |r.resto|
            && |FioCliente(r.q, mascara, FormaMinima(n))| ==
                 6 + n + if n <= 125 then 0 else if n <= 0xFFFF then 2 else 8
  {
    hide Decodificar, Extensao, Mascarar;
    SoDecodificaFio(s);
    var r := Decodificar(s);
    var n := |r.q.dados|;
    var m, forma :| |m| == 4 && Cabe(forma, n) && s[..|s| - |r.resto|] == FioCliente(r.q, m, forma);
    FormaMinimaDiz(forma, n);
  }
}
