/**
 * The connection object's own methods: the reader's loop with its fields
 * updated in place, and the frame writer. `leitor` is what is left of the
 * finite byte stream arriving from the socket and `enviado` what the socket has
 * taken; a read deadline that passes is the end of the stream.
 */
module Connection {
  import opened Bytes
  import opened Frames
  import R = Reassembly
  import P = Protocolo

  datatype Resultado<+T> = Ok(valor: T) | Erro(falha: R.FalhaLer)

  class Conn {
    var leitor: seq<byte>
    var enviado: seq<byte>
    var montagem: seq<byte>
    var montando: bool
    var pongs: seq<seq<byte>>
    var pediuFechar: bool  // the reply to a close was handed to the queue
    const filaAceita: nat -> bool
    ghost var lidos: seq<Quadro>

    function Estado(): R.Estado
      reads this
    {
      R.Estado(montando, montagem, pongs)
    }

    /**
     * None of the frames read so far was refused, and `montando`, `montagem` and
     * `pongs` say exactly what they left open and which pings were among them.
     */
    ghost predicate Valid()
      reads this
    {
      && P.TodosAceitos(lidos, filaAceita) && Estado() == P.Depois(lidos)
      && |R.Parcial(lidos)| <= TAMANHO_MAXIMO_MENSAGEM
    }

    constructor (entrada: seq<byte>, filaAceita: nat -> bool)
      ensures Valid() && leitor == entrada && this.filaAceita == filaAceita
      ensures Estado() == R.Estado(false, [], []) && enviado == [] && !pediuFechar
    {
      leitor, enviado := entrada, [];
      montagem, montando, pongs, pediuFechar := [], false, [], false;
      this.filaAceita := filaAceita;
      lidos := [];
    }

    /** io.ReadFull: n bytes, or a failure that uses up what there was. */
    method LerTudo(n: nat) returns (b: Option<seq<byte>>)
      modifies this`leitor
      ensures b.Some? <==> n <= |old(leitor)|
      ensures b.Some? ==> b.value == old(leitor)[..n] && leitor == old(leitor)[n..]
      ensures b.None? ==> leitor == []
    {
      if n <= |leitor| {
        b := Some(leitor[..n]);
        leitor := leitor[n..];
      } else {
        b := None;
        leitor := [];
      }
    }

    /** The declared payload length: the 7-bit field or the integer that follows it. */
    method LerTamanho(t7: nat) returns (n: Option<nat>)
      modifies this`leitor
      ensures var k := BytesDeExtensao(t7);
              && (n.Some? <==> k <= |old(leitor)|)
              && (n.Some? ==>
                    && leitor == old(leitor)[k..]
                    && n.value == if k == 0 then t7 else BigEndian(old(leitor)[..k]))
              && |leitor| <= |old(leitor)|
    {
      if t7 == 126 {
        var ext := LerTudo(2);
        n := if ext.Some? then Some(BigEndian(ext.value)) else None;
      } else if t7 == 127 {
        var ext := LerTudo(8);
        n := if ext.Some? then Some(BigEndian(ext.value)) else None;
      } else {
        n := Some(t7);
      }
    }

    method LerQuadro() returns (r: Resultado<Quadro>)
      modifies this`leitor
      ensures var d := Decodificar(old(leitor));
              && (d.Lido? ==> r == Ok(d.q) && leitor == d.resto)
              && (d.Recusado? ==> r == Erro(R.DoQuadro(d.falha)) && |leitor| <= |old(leitor)|)
    {
      hide BigEndian, Mascarar, BitsMedios, BitAlto, Baixos4, Baixos7;
      ghost var s := leitor;
      var cab := LerTudo(2);
      if cab.None? { return Erro(R.DoQuadro(Truncado)); }
      var cabecalho := cab.value;
      assert cabecalho[0] == s[0] && cabecalho[1] == s[1] && leitor == s[2..];
      var fim := BitAlto(cabecalho[0]);
      if BitsMedios(cabecalho[0]) { return Erro(R.DoQuadro(BitsRSV)); }
      var opcode := Baixos4(cabecalho[0]);
      var mascarado := BitAlto(cabecalho[1]);
      var t7 := Baixos7(cabecalho[1]);
      if Controle(opcode) && (!fim || t7 > 125) { return Erro(R.DoQuadro(ControleInvalido)); }

      ghost var k := BytesDeExtensao(t7);
      var declarado := LerTamanho(t7);
      if declarado.None? { return Erro(R.DoQuadro(Truncado)); }
      var tamanho := declarado.value;
      assert s[2..][..k] == s[2..2 + k] && leitor == s[2 + k..];

      if !mascarado { return Erro(R.DoQuadro(SemMascara)); }
      if tamanho > TAMANHO_MAXIMO_MENSAGEM { return Erro(R.DoQuadro(GrandeDemais)); }

      var claro := LerCorpo(tamanho);
      if claro.None? { return Erro(R.DoQuadro(Truncado)); }
      Fatias(s, 2 + k, tamanho);
      r := Ok(Quadro(fim, opcode, claro.value));
    }

    static lemma Fatias(s: seq<byte>, a: nat, n: nat)
      requires a + 4 + n <= |s|
      ensures s[a..][..4] == s[a..4 + a] && s[a..][4..4 + n] == s[4 + a..4 + a + n]
      ensures s[a..][4 + n..] == s[4 + a + n..]
    {
    }

    /** The masking key and the payload, unmasked. */
    method LerCorpo(tamanho: nat) returns (claro: Option<seq<byte>>)
      modifies this`leitor
      ensures claro.Some? <==> 4 + tamanho <= |old(leitor)|
      ensures claro.Some? ==>
                && claro.value == Mascarar(old(leitor)[4..4 + tamanho], old(leitor)[..4])
                && leitor == old(leitor)[4 + tamanho..]
      ensures |leitor| <= |old(leitor)|
    {
      var chave := LerTudo(4);
      if chave.None? { return None; }
      var corpo := LerTudo(tamanho);
      if corpo.None? { return None; }
      var aberto := Desmascarar(corpo.value, chave.value);
      claro := Some(aberto);
    }

    /** The payload is copied into a buffer and unmasked there in place. */
    static method Desmascarar(corpo: seq<byte>, mascara: seq<byte>) returns (claro: seq<byte>)
      requires |mascara| == 4
      ensures claro == Mascarar(corpo, mascara)
    {
      var dados := new byte[|corpo|](i requires 0 <= i < |corpo| => corpo[i]);
      var i := 0;
      while i < dados.Length
        invariant 0 <= i <= dados.Length
        invariant dados[..i] == Mascarar(corpo, mascara)[..i]
        invariant dados[i..] == corpo[i..]
      {
        assert dados[i] == dados[i..][0] == corpo[i];
        dados[i] := Xor(dados[i], mascara[i % 4]);
        i := i + 1;
      }
      claro := dados[..];
    }

    /** What a call returned, with the state it left and the frames it took. */
    ghost function Resposta(r: Resultado<seq<byte>>, tomados: seq<Quadro>): R.Resposta
      reads this
    {
      if r.Ok? then R.Mensagem(r.valor, Estado(), leitor, tomados) else R.Falhou(r.falha, Estado(), [], tomados)
    }

    /**
     * The next complete message, whatever the stream holds. The call takes frames of
     * the stream up to the one that completes a message, or to the first that is
     * refused, for its reason; a close is handed to the queue exactly when that one
     * is a close frame.
     */
    method Ler() returns (r: Resultado<seq<byte>>)
      requires Valid()
      modifies this
      ensures Valid() && enviado == old(enviado)
      ensures |old(lidos)| <= |lidos| && lidos[..|old(lidos)|] == old(lidos)
      ensures P.Responde(old(lidos), P.FluxoDe(old(leitor)), filaAceita, Resposta(r, lidos[|old(lidos)|..]))
      ensures var quadros := P.FluxoDe(old(leitor)).quadros;
              var n := |lidos| - |old(lidos)|;
              pediuFechar == (old(pediuFechar) || (r.Erro? && n < |quadros| && quadros[n].opcode == 0x8))
      ensures var esperado := R.Ler(old(leitor), old(Estado()), filaAceita);
              && Estado() == esperado.e
              && lidos == old(lidos) + esperado.quadros
              && (esperado.Mensagem? ==> r == Ok(esperado.mensagem) && leitor == esperado.resto)
              && (esperado.Falhou? ==> r == Erro(esperado.falha))
    {
      hide Decodificar, R.Ler, R.Parcial, R.TratarQuadro, P.TodosAceitos, P.FluxoDe, P.Depois, P.Responde;
      ghost var esperado := R.Ler(leitor, Estado(), filaAceita);
      ghost var l0 := lidos;
      P.LerExato(lidos, leitor, filaAceita);
      P.RespondeDiz(lidos, P.FluxoDe(leitor), filaAceita, esperado);
      lidos := lidos + esperado.quadros;
      while true
        invariant enviado == old(enviado) && pediuFechar == old(pediuFechar) && lidos == l0 + esperado.quadros
        invariant esperado == R.Ler(leitor, Estado(), filaAceita).(quadros := esperado.quadros)
        decreases |leitor|
      {
        R.LerUmQuadro(leitor, Estado(), filaAceita);
        var lido := LerQuadro();
        if lido.Erro? { return Erro(lido.falha); }
        var parou := false;
        parou, r := Tratar(lido.valor.fim, lido.valor.opcode, lido.valor.dados);
        if parou { return; }
      }
    }

    /** The switch on the opcode: control frames are answered, data frames join the open message. */
    method Tratar(fim: bool, opcode: byte, dados: seq<byte>) returns (parou: bool, r: Resultado<seq<byte>>)
      modifies this`montagem, this`montando, this`pongs, this`pediuFechar
      ensures var p := R.TratarQuadro(old(Estado()), Quadro(fim, opcode, dados), filaAceita);
              && Estado() == p.e && (parou <==> !p.Segue?)
              && (p.Entrega? ==> r == Ok(p.mensagem))
              && (p.Quebra? ==> r == Erro(p.falha))
              && (opcode == 0x8 <==> p.Quebra? && p.falha == R.FimDaConexao)
      ensures pediuFechar == (old(pediuFechar) || opcode == 0x8)
    {
      parou, r := true, Ok([]);
      if opcode == PING {
        if !filaAceita(|pongs|) { return true, Erro(R.FilaRecusou); }
        pongs := pongs + [dados];
        return false, r;
      } else if opcode == PONG {
        return false, r;
      } else if opcode == FECHAR {
        pediuFechar := true;
        return true, Erro(R.FimDaConexao);
      } else if opcode == TEXTO || opcode == BINARIO {
        if montando { return true, Erro(R.NovaAntesDoFim); }
        montagem := dados;
        montando := true;
        assert [] + dados == dados;
      } else if opcode == CONTINUACAO {
        if !montando { return true, Erro(R.ContinuacaoSemInicio); }
        if |montagem| + |dados| > TAMANHO_MAXIMO_MENSAGEM { return true, Erro(R.FragmentadaGrande); }
        montagem := montagem + dados;
      } else {
        return true, Erro(R.OpcodeDesconhecido);
      }

      if fim {
        r := Ok(montagem);
        montagem := [];
        montando := false;
        return true, r;
      }
      return false, r;
    }

    /**
     * One unfragmented frame in the shortest form is sent after what was already
     * sent: two header bytes and the payload when that is at most 125 bytes. `prazo`
     * says that the write deadline could be set and `cabem` how many more bytes the
     * socket takes before a write fails.
     */
    method EscreverQuadro(opcode: byte, dados: seq<byte>, prazo: bool, cabem: nat) returns (ok: bool)
      requires opcode < 16 && Cabe(Longa, |dados|)
      modifies this`enviado
      ensures ok <==> prazo && |FioServidor(opcode, dados)| <= cabem
      ensures ok ==> enviado == old(enviado) + FioServidor(opcode, dados)
      ensures ok && |dados| <= 125 ==> enviado == old(enviado) + ([0x80 + opcode, |dados|] + dados)
      ensures ok && 125 < |dados| <= 0xFFFF ==>
                enviado == old(enviado) + ([0x80 + opcode, 126, |dados| / 256, |dados| % 256] + dados)
      ensures !ok ==> old(enviado) <= enviado <= old(enviado) + FioServidor(opcode, dados)
    {
      var cabecalho := new byte[10];
      cabecalho[0] := 0x80 + opcode;
      var tamanho := |dados|;
      var n := 2;
      if tamanho <= 125 {
        cabecalho[1] := tamanho;
      } else if tamanho <= 0xFFFF {
        cabecalho[1] := 126;
        PutUint(cabecalho, tamanho, 2);
        n := 4;
      } else {
        cabecalho[1] := 127;
        PutUint(cabecalho, tamanho, 8);
        n := 10;
      }
      assert cabecalho[..n] == [cabecalho[0], cabecalho[1]] + cabecalho[2..n];
      if !prazo { return false; }
      var escrita := cabecalho[..n];
      if tamanho > 0 { escrita := escrita + dados; }
      assert escrita == FioServidor(opcode, dados);
      FioServidorDiz(opcode, dados);
      ok := Descarregar(escrita, cabem);
    }

    /** The buffered frame goes out in order, whole or until a write fails. */
    method Descarregar(escrita: seq<byte>, cabem: nat) returns (ok: bool)
      modifies this`enviado
      ensures ok <==> |escrita| <= cabem
      ensures ok ==> enviado == old(enviado) + escrita
      ensures !ok ==> enviado == old(enviado) + escrita[..cabem]
    {
      ok := |escrita| <= cabem;
      enviado := enviado + if ok then escrita else escrita[..cabem];
    }

    /** binary.BigEndian.PutUint16 and PutUint64 into buf[2..2+k]. */
    static method PutUint(buf: array<byte>, v: nat, k: nat)
      requires 2 + k <= buf.Length
      modifies buf
      ensures buf[2..2 + k] == PutBigEndian(v, k)
      ensures buf[0] == old(buf[0]) && buf[1] == old(buf[1])
    {
      var i, resto := k, v;
      while i > 0
        invariant 0 <= i <= k
        invariant PutBigEndian(v, k) == PutBigEndian(resto, i) + buf[2 + i..2 + k]
        invariant buf[0] == old(buf[0]) && buf[1] == old(buf[1])
      {
        i := i - 1;
        buf[2 + i] := resto % 256;
        resto := resto / 256;
        assert buf[2 + i..2 + k] == [buf[2 + i]] + buf[2 + i + 1..2 + k];
      }
    }
  }
}
