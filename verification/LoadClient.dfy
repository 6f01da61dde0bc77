/**
 * The load client's end of the protocol, written independently of the server:
 * a fixed masking key outbound, and inbound a reader that returns text payloads
 * and skips everything else but a close.
 */
module LoadClient {
  import opened Bytes
  import opened Frames
  import R = Reassembly

  const MASCARA: seq<byte> := [0x11, 0x22, 0x33, 0x44]

  datatype Recebido = Texto(dados: seq<byte>) | Fechado | Interrompido

  datatype Chegada = Chegada(opcode: byte, dados: seq<byte>, resto: seq<byte>) | Faltou

  /** One frame as the client splits it; FIN, RSV and mask bits are not looked at. */
  function Repartir(s: seq<byte>): (r: Chegada)
    ensures r.Chegada? ==> |r.resto| < |s|
  {
    if |s| < 2 then Faltou else
    var t7 := Baixos7(s[1]);
    var k := BytesDeExtensao(t7);
    if |s| < 2 + k then Faltou else
    var tamanho := if k == 0 then t7 else BigEndian(s[2..2 + k]);
    if |s| < 2 + k + tamanho then Faltou
    else Chegada(Baixos4(s[0]), s[2 + k..2 + k + tamanho], s[2 + k + tamanho..])
  }

  /** The outcome of one call and the bytes left after it. */
  function Receber(s: seq<byte>): (r: (Recebido, seq<byte>))
    ensures r.0.Texto? ==> |r.1| < |s|
    decreases |s|
  {
    var c := Repartir(s);
    if c.Faltou? then (Interrompido, [])
    else if c.opcode == TEXTO then (Texto(c.dados), c.resto)
    else if c.opcode == FECHAR then (Fechado, c.resto)
    else Receber(c.resto)
  }

  lemma {:induction false} ReceberUm(s: seq<byte>)
    ensures var c := Repartir(s);
            Receber(s) == if c.Faltou? then (Interrompido, [])
                          else if c.opcode == TEXTO then (Texto(c.dados), c.resto)
                          else if c.opcode == FECHAR then (Fechado, c.resto)
                          else Receber(c.resto)
  {
  }

  /** The texts of repeated calls, up to the first that does not return one. */
  function ReceberAteFalhar(s: seq<byte>): (seq<seq<byte>>, Recebido)
    decreases |s|
  {
    var r := Receber(s);
    if !r.0.Texto? then ([], r.0) else
    var depois := ReceberAteFalhar(r.1);
    ([r.0.dados] + depois.0, depois.1)
  }

  /** Whatever the client takes for a frame has at least as many bytes as the server's frame with that payload. */
  lemma {:induction false} NenhumMenorQueODoServidor(s: seq<byte>)
    requires Repartir(s).Chegada?
    ensures var c := Repartir(s);
            && c.opcode < 16 && |c.dados| < 0x1_0000_0000_0000_0000
            && |FioServidor(c.opcode, c.dados)| <= |s| - |c.resto|
  {
    hide BigEndian;
    var k := BytesDeExtensao(Baixos7(s[1]));
    TamanhoLido(Baixos7(s[1]), s[2..2 + k]);
    FormaMinimaDiz(FormaLida(Baixos7(s[1])), |Repartir(s).dados|);
  }

  class Cliente {
    var leitor: seq<byte>
    var enviado: seq<byte>

    /** The text leaves as one masked frame in the shortest form. */
    method Enviar(texto: seq<byte>)
      requires Cabe(Longa, |texto|)
      modifies this`enviado
      ensures enviado == old(enviado)
                         + FioCliente(Quadro(true, TEXTO, texto), MASCARA, FormaMinima(|texto|))
      ensures |texto| <= 125 ==>
                enviado == old(enviado) + ([0x81, 0x80 + |texto|, 0x11, 0x22, 0x33, 0x44] + Mascarar(texto, MASCARA))
      ensures 125 < |texto| <= 0xFFFF ==>
                enviado == old(enviado) + ([0x81, 0xFE] + PutBigEndian(|texto|, 2) + MASCARA + Mascarar(texto, MASCARA))
    {
      var quadro: seq<byte> := [0x81];
      var tamanho := |texto|;
      ghost var forma := FormaMinima(tamanho);
      if tamanho <= 125 {
        quadro := quadro + [0x80 + tamanho];
      } else if tamanho <= 0xFFFF {
        quadro := quadro + [0x80 + 126];
        quadro := quadro + PutBigEndian(tamanho, 2);
      } else {
        quadro := quadro + [0x80 + 127];
        quadro := quadro + PutBigEndian(tamanho, 8);
      }
      ghost var cabecalho := quadro;
      assert cabecalho == [0x81, 0x80 + CampoDeTamanho(forma, tamanho)] + Extensao(forma, tamanho);
      quadro := quadro + MASCARA;
      ghost var cifrado := Mascarar(texto, MASCARA);
      var i := 0;
      while i < |texto|
        invariant 0 <= i <= |texto|
        invariant quadro == cabecalho + MASCARA + cifrado[..i]
      {
        quadro := quadro + [Xor(texto[i], MASCARA[i % 4])];
        assert cifrado[..i + 1] == cifrado[..i] + [cifrado[i]];
        i := i + 1;
      }
      assert cifrado[..i] == cifrado;
      enviado := enviado + quadro;
    }

    method LerTudo(n: nat) returns (b: Option<seq<byte>>)
      modifies this`leitor
      ensures b.Some? <==> n <= |old(leitor)|
      ensures b.Some? ==> b.value == old(leitor)[..n] && leitor == old(leitor)[n..]
      ensures b.None? ==> leitor == []
    {
      if n <= |leitor| {
        b, leitor := Some(leitor[..n]), leitor[n..];
      } else {
        b, leitor := None, [];
      }
    }

    method LerTamanho(t7: nat) returns (n: Option<nat>)
      modifies this`leitor
      ensures var k := BytesDeExtensao(t7);
              && (n.Some? <==> k <= |old(leitor)|)
              && (n.Some? ==>
                    && leitor == old(leitor)[k..]
                    && n.value == if k == 0 then t7 else BigEndian(old(leitor)[..k]))
              && (n.None? ==> leitor == [])
    {
      if t7 == 126 {
        var ext := LerTudo(2);
        n := if ext.Some? then Some(BigEndian(ext.value)) else None;
      } else if t7 == 127 {
        var ext := LerTudo(8);
        n := if ext.Some? then Some(BigEndian(ext.value)) else None;
      } else {
        n := Some(t7);
      }
    }

    /** The next text payload, skipping other frames. */
    method ReceberTexto() returns (r: Recebido)
      modifies this`leitor
      ensures (r, leitor) == Receber(old(leitor))
    {
      hide BigEndian, Receber;
      while true
        invariant Receber(leitor) == Receber(old(leitor))
        decreases |leitor|
      {
        ghost var s := leitor;
        ReceberUm(s);
        var cab := LerTudo(2);
        if cab.None? { return Interrompido; }
        var opcode := Baixos4(cab.value[0]);
        var t7 := Baixos7(cab.value[1]);
        var declarado := LerTamanho(t7);
        if declarado.None? { return Interrompido; }
        var tamanho := declarado.value;
        ghost var k := BytesDeExtensao(t7);
        assert s[2..][..k] == s[2..2 + k] && leitor == s[2 + k..];
        var dados := LerTudo(tamanho);
        if dados.None? { return Interrompido; }
        assert dados.value == s[2 + k..2 + k + tamanho] && leitor == s[2 + k + tamanho..];
        assert Repartir(s) == Chegada(opcode, dados.value, leitor);
        if opcode == TEXTO { return Texto(dados.value); }
        if opcode == FECHAR { return Fechado; }
      }
    }
  }

  // ----------------------------------------------------- client to server

  function Pedidos(textos: seq<seq<byte>>): seq<byte>
    requires forall i | 0 <= i < |textos| :: |textos[i]| <= TAMANHO_MAXIMO_MENSAGEM
  {
    if textos == [] then []
    else FioCliente(Quadro(true, TEXTO, textos[0]), MASCARA, FormaMinima(|textos[0]|)) + Pedidos(textos[1..])
  }

  /** The server's loop returns exactly the texts the client sent, in order. */
  lemma {:induction false} ServidorLeOCliente(textos: seq<seq<byte>>, e: R.Estado, aceita: nat -> bool)
    requires forall i | 0 <= i < |textos| :: |textos[i]| <= TAMANHO_MAXIMO_MENSAGEM
    requires !e.montando && e.montagem == []
    ensures R.LerAteFalhar(Pedidos(textos), e, aceita) == R.Sessao(textos, R.DoQuadro(Truncado), e)
  {
    hide FioCliente, R.LerAteFalhar;
    if textos == [] {
      NadaALer(e, aceita);
    } else {
      var q := Quadro(true, TEXTO, textos[0]);
      var resto := Pedidos(textos[1..]);
      hide Decodificar;
      DecodificaTodoFio(q, MASCARA, FormaMinima(|textos[0]|), resto);
      R.SessaoPorQuadro(Pedidos(textos), e, aceita);
      assert [] + q.dados == q.dados;
      ServidorLeOCliente(textos[1..], e, aceita);
      assert textos == [textos[0]] + textos[1..];
    }
  }

  lemma {:induction false} NadaALer(e: R.Estado, aceita: nat -> bool)
    ensures R.LerAteFalhar([], e, aceita) == R.Sessao([], R.DoQuadro(Truncado), e)
  {
  }

  // ----------------------------------------------------- server to client

  datatype Saida = Saida(opcode: byte, dados: seq<byte>)

  /** What the server ever queues: texts, pings, pongs and closes. */
  predicate SaidaComum(v: Saida) {
    && (v.opcode == TEXTO || v.opcode == PING || v.opcode == PONG || v.opcode == FECHAR)
    && Cabe(Longa, |v.dados|)
  }

  function Escritos(vs: seq<Saida>): seq<byte>
    requires forall i | 0 <= i < |vs| :: SaidaComum(vs[i])
  {
    if vs == [] then [] else
    assert SaidaComum(vs[0]);
    FioServidor(vs[0].opcode, vs[0].dados) + Escritos(vs[1..])
  }

  /** The text payloads before the first close. */
  function Textos(vs: seq<Saida>): seq<seq<byte>> {
    if vs == [] || vs[0].opcode == FECHAR then []
    else (if vs[0].opcode == TEXTO then [vs[0].dados] else []) + Textos(vs[1..])
  }

  predicate TemFechar(vs: seq<Saida>) { exists i :: 0 <= i < |vs| && vs[i].opcode == FECHAR }

  function Desfecho(vs: seq<Saida>): Recebido { if TemFechar(vs) then Fechado else Interrompido }

  lemma PartesDoFioServidor(opcode: byte, dados: seq<byte>, resto: seq<byte>)
    requires opcode < 16 && Cabe(Longa, |dados|)
    ensures var s := FioServidor(opcode, dados) + resto;
            var forma := FormaMinima(|dados|);
            var k := Largura(forma);
            var n := |dados|;
            && |s| == 2 + k + n + |resto|
            && s[0] == 0x80 + opcode && s[1] == CampoDeTamanho(forma, n)
            && s[2..2 + k] == Extensao(forma, n)
            && s[2 + k..2 + k + n] == dados
            && s[2 + k + n..] == resto
  {
  }

  /** A server frame is split back exactly, in every length form. */
  lemma ReparteOFioServidor(opcode: byte, dados: seq<byte>, resto: seq<byte>)
    requires opcode < 16 && Cabe(Longa, |dados|)
    ensures Repartir(FioServidor(opcode, dados) + resto) == Chegada(opcode, dados, resto)
  {
    hide BigEndian, FioServidor, Extensao;
    var n := |dados|;
    var forma := FormaMinima(n);
    var s := FioServidor(opcode, dados) + resto;
    PartesDoFioServidor(opcode, dados, resto);
    CampoVale(forma, n);
    assert BytesDeExtensao(Baixos7(s[1])) == Largura(forma);
    if !forma.Curta? { ExtensaoVale(forma, n); }
  }

  lemma {:induction false} ReceberPorQuadro(s: seq<byte>)
    requires Repartir(s).Chegada?
    requires Repartir(s).opcode != FECHAR
    ensures var c := Repartir(s);
            var depois := ReceberAteFalhar(c.resto);
            ReceberAteFalhar(s) == if c.opcode == TEXTO then ([c.dados] + depois.0, depois.1) else depois
  {
    hide Repartir;
    var c := Repartir(s);
    if c.opcode != TEXTO {
      assert Receber(s) == Receber(c.resto);
    }
  }

  lemma NadaAReceber()
    ensures ReceberAteFalhar([]) == ([], Interrompido)
  {
  }

  lemma {:induction false} ReceberFechar(s: seq<byte>)
    requires Repartir(s).Chegada? && Repartir(s).opcode == FECHAR
    ensures ReceberAteFalhar(s) == ([], Fechado)
  {
    hide Repartir;
  }

  lemma DesfechoDoResto(vs: seq<Saida>)
    requires vs != []
    ensures Desfecho(vs) == if vs[0].opcode == FECHAR then Fechado else Desfecho(vs[1..])
  {
    if vs[0].opcode != FECHAR && TemFechar(vs) {
      var i :| 0 <= i < |vs| && vs[i].opcode == FECHAR;
      assert vs[1..][i - 1].opcode == FECHAR;
    }
    if TemFechar(vs[1..]) {
      var i :| 0 <= i < |vs[1..]| && vs[1..][i].opcode == FECHAR;
      assert vs[i + 1].opcode == FECHAR;
    }
  }

  /**
   * The client returns exactly the text payloads the server wrote before its first
   * close frame, in order, and then reports the close, or the end of the stream when
   * there was none.
   */
  lemma {:induction false} ClienteLeOServidor(vs: seq<Saida>)
    requires forall i | 0 <= i < |vs| :: SaidaComum(vs[i])
    ensures ReceberAteFalhar(Escritos(vs)) == (Textos(vs), Desfecho(vs))
  {
    hide Repartir, ReceberAteFalhar, FioServidor, Desfecho;
    if vs == [] {
      NadaAReceber();
      DesfechoDeNada();
    } else {
      assert SaidaComum(vs[0]);
      var resto := Escritos(vs[1..]);
      ReparteOFioServidor(vs[0].opcode, vs[0].dados, resto);
      DesfechoDoResto(vs);
      if vs[0].opcode == FECHAR {
        ReceberFechar(Escritos(vs));
      } else {
        ReceberPorQuadro(Escritos(vs));
        ClienteLeOServidor(vs[1..]);
        assert [] + Textos(vs[1..]) == Textos(vs[1..]);
      }
    }
  }

  lemma DesfechoDeNada()
    ensures Desfecho([]) == Interrompido
  {
  }
}
