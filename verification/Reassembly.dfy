/**
 * The server's message reader: frames are consumed one at a time, control
 * frames are answered on the spot and data frames are reassembled. The outbound
 * queue is seen only through whether it accepted the k-th pong of the
 * connection (the parameter `aceita`).
 */
module Reassembly {
  import opened Bytes
  import opened Frames

  datatype FalhaLer =
    | DoQuadro(falha: Falha)
    | FilaRecusou
    | FimDaConexao
    | NovaAntesDoFim
    | ContinuacaoSemInicio
    | FragmentadaGrande
    | OpcodeDesconhecido

  /** The reader's fields and the pong payloads it has put in the queue. */
  datatype Estado = Estado(montando: bool, montagem: seq<byte>, pongs: seq<seq<byte>>)

  datatype Passo =
    | Segue(e: Estado)
    | Entrega(mensagem: seq<byte>, e: Estado)
    | Quebra(falha: FalhaLer, e: Estado)

  predicate EhDado(opcode: byte) { opcode == TEXTO || opcode == BINARIO || opcode == CONTINUACAO }

  /** One turn of the reader's loop. */
  function TratarQuadro(e: Estado, q: Quadro, aceita: nat -> bool): Passo {
    if q.opcode == PING then
      if aceita(|e.pongs|) then Segue(e.(pongs := e.pongs + [q.dados])) else Quebra(FilaRecusou, e)
    else if q.opcode == PONG then Segue(e)
    else if q.opcode == FECHAR then Quebra(FimDaConexao, e)
    else if q.opcode == TEXTO || q.opcode == BINARIO then
      if e.montando then Quebra(NovaAntesDoFim, e) else Acrescentar(e.(montagem := []), q)
    else if q.opcode == CONTINUACAO then
      if !e.montando then Quebra(ContinuacaoSemInicio, e)
      else if |e.montagem| + |q.dados| > TAMANHO_MAXIMO_MENSAGEM then Quebra(FragmentadaGrande, e)
      else Acrescentar(e, q)
    else Quebra(OpcodeDesconhecido, e)
  }

  function Acrescentar(e: Estado, q: Quadro): Passo {
    var montagem := e.montagem + q.dados;
    if q.fim then Entrega(montagem, e.(montando := false, montagem := []))
    else Segue(e.(montando := true, montagem := montagem))
  }

  /** The outcome of one call of the reader; `quadros` are the frames it took without failing. */
  datatype Resposta =
    | Mensagem(mensagem: seq<byte>, e: Estado, resto: seq<byte>, quadros: seq<Quadro>)
    | Falhou(falha: FalhaLer, e: Estado, resto: seq<byte>, quadros: seq<Quadro>)

  function Precedido(q: Quadro, r: Resposta): Resposta {
    r.(quadros := [q] + r.quadros)
  }

  function Ler(s: seq<byte>, e: Estado, aceita: nat -> bool): (r: Resposta)
    ensures r.Mensagem? ==> |r.resto| < |s|
    ensures |r.resto| <= |s|
    decreases |s|
  {
    match Decodificar(s)
    case Recusado(falha) => Falhou(DoQuadro(falha), e, [], [])
    case Lido(q, resto) =>
      var p := TratarQuadro(e, q, aceita);
      if p.Segue? then Precedido(q, Ler(resto, p.e, aceita))
      else if p.Entrega? then Mensagem(p.mensagem, p.e, resto, [q])
      else Falhou(p.falha, p.e, resto, [])
  }

  /** The specification one frame at a time, as the loop runs it. */
  lemma {:induction false} LerUmQuadro(s: seq<byte>, e: Estado, aceita: nat -> bool)
    ensures var d := Decodificar(s);
            var r := Ler(s, e, aceita);
            && (d.Recusado? ==> r == Falhou(DoQuadro(d.falha), e, [], []))
            && (d.Lido? ==>
                  var p := TratarQuadro(e, d.q, aceita);
                  && |d.resto| < |s|
                  && (p.Segue? ==> r == Precedido(d.q, Ler(d.resto, p.e, aceita)))
                  && (p.Entrega? ==> r == Mensagem(p.mensagem, p.e, d.resto, [d.q]))
                  && (p.Quebra? ==> r == Falhou(p.falha, p.e, d.resto, [])))
  {
    hide TratarQuadro, Decodificar;
  }

  // ------------------------------------------- bounds and the open message

  /** A data message has started in qs and its final fragment has not come. */
  predicate Aberta(qs: seq<Quadro>) {
    qs != [] &&
    var q := qs[|qs| - 1];
    if EhDado(q.opcode) then !q.fim else Aberta(qs[..|qs| - 1])
  }

  /** The payload so far of the message left open by qs. */
  function Parcial(qs: seq<Quadro>): seq<byte> {
    if !Aberta(qs) then [] else
    var q := qs[|qs| - 1];
    var antes := qs[..|qs| - 1];
    if !EhDado(q.opcode) then Parcial(antes)
    else if q.opcode == CONTINUACAO then Parcial(antes) + q.dados
    else q.dados
  }

  lemma DadoCabe(q: Quadro)
    requires QuadroValido(q)
    ensures |q.dados| <= TAMANHO_MAXIMO_MENSAGEM
  {
  }

  /** qs with the FIN bit of its last frame cleared. */
  function SemFim(qs: seq<Quadro>): seq<Quadro>
    requires qs != []
  {
    qs[..|qs| - 1] + [qs[|qs| - 1].(fim := false)]
  }

  /** The reader's two fields say exactly what the frames read so far left open. */
  ghost predicate Coerente(qs: seq<Quadro>, e: Estado) {
    && e.montando == Aberta(qs)
    && e.montagem == Parcial(qs)
    && |e.montagem| <= TAMANHO_MAXIMO_MENSAGEM
  }

  lemma {:induction false} AbertaApos(qs: seq<Quadro>, q: Quadro)
    ensures Aberta(qs + [q]) == if EhDado(q.opcode) then !q.fim else Aberta(qs)
    ensures Parcial(qs + [q]) ==
            if !Aberta(qs + [q]) then []
            else if !EhDado(q.opcode) then Parcial(qs)
            else if q.opcode == CONTINUACAO then Parcial(qs) + q.dados
            else q.dados
    ensures !Aberta(qs) ==> Parcial(qs) == []
  {
    hide EhDado;
    assert (qs + [q])[..|qs|] == qs;
  }

  lemma PassoCoerente(qs: seq<Quadro>, e: Estado, q: Quadro, aceita: nat -> bool)
    requires Coerente(qs, e) && QuadroValido(q)
    ensures var p := TratarQuadro(e, q, aceita);
            && Coerente(if p.Quebra? then qs else qs + [q], p.e)
            && (p.Entrega? ==>
                  && !p.e.montando
                  && |p.mensagem| <= TAMANHO_MAXIMO_MENSAGEM
                  && p.mensagem == Parcial(SemFim(qs + [q])))
  {
    hide Aberta, Parcial, QuadroValido;
    AbertaApos(qs, q);
    AbertaApos(qs, q.(fim := false));
    assert SemFim(qs + [q]) == qs + [q.(fim := false)];
    assert [] + q.dados == q.dados;
    DadoCabe(q);
  }

  /** fio is the concatenation of wire forms of qs. */
  ghost predicate SaoFios(qs: seq<Quadro>, fio: seq<byte>) {
    if qs == [] then fio == []
    else exists n: nat :: n <= |fio| && EhFio(qs[0], fio[..n]) && SaoFios(qs[1..], fio[n..])
  }

  lemma {:induction false} FiosPrecedidos(q: Quadro, qs: seq<Quadro>, fio: seq<byte>, fios: seq<byte>)
    requires EhFio(q, fio) && SaoFios(qs, fios)
    ensures SaoFios([q] + qs, fio + fios)
  {
    var n := |fio|;
    assert ([q] + qs)[1..] == qs;
    assert (fio + fios)[..n] == fio && (fio + fios)[n..] == fios;
  }

  /**
   * One call of the reader, on any bytes: the open-message fields stay exact,
   * no buffer passes 1 MiB, and a returned message is the payload of the run of
   * data frames that it closed.
   */
  lemma {:induction false} LerCoerente(qs: seq<Quadro>, s: seq<byte>, e: Estado, aceita: nat -> bool)
    requires Coerente(qs, e)
    ensures var r := Ler(s, e, aceita);
            && Coerente(qs + r.quadros, r.e)
            && (r.Mensagem? ==>
                  && |r.mensagem| <= TAMANHO_MAXIMO_MENSAGEM
                  && !r.e.montando
                  && r.quadros != []
                  && r.mensagem == Parcial(SemFim(qs + r.quadros)))
    decreases |s|
  {
    hide Decodificar, TratarQuadro, QuadroValido, Parcial, Aberta;
    var r := Ler(s, e, aceita);
    var d := Decodificar(s);
    if d.Lido? {
      var p := TratarQuadro(e, d.q, aceita);
      QuadroLidoValido(s);
      PassoCoerente(qs, e, d.q, aceita);
      if p.Segue? {
        LerCoerente(qs + [d.q], d.resto, p.e, aceita);
        assert qs + [d.q] + Ler(d.resto, p.e, aceita).quadros == qs + r.quadros;
      }
    }
    assert qs + [] == qs;
  }

  lemma QuadroLidoValido(s: seq<byte>)
    requires Decodificar(s).Lido?
    ensures QuadroValido(Decodificar(s).q)
  {
    SoDecodificaFio(s);
  }

  /** The bytes one successful call consumes are wire forms of the frames it took, and no more. */
  lemma {:induction false} LerConsomeFios(s: seq<byte>, e: Estado, aceita: nat -> bool)
    requires Ler(s, e, aceita).Mensagem?
    ensures var r := Ler(s, e, aceita);
            var n := |s| - |r.resto|;
            s[n..] == r.resto && SaoFios(r.quadros, s[..n])
    decreases |s|
  {
    hide Decodificar, EhFio, SaoFios, TratarQuadro;
    var r := Ler(s, e, aceita);
    var d := Decodificar(s);
    var p := TratarQuadro(e, d.q, aceita);
    var n := |s| - |d.resto|;
    SoDecodificaFio(s);
    if p.Segue? {
      LerConsomeFios(d.resto, p.e, aceita);
      var consumidos := d.resto[..|d.resto| - |r.resto|];
      FiosPrecedidos(d.q, r.quadros[1..], s[..n], consumidos);
      assert s[..|s| - |r.resto|] == s[..n] + consumidos;
      assert r.quadros == [d.q] + r.quadros[1..];
    } else {
      FiosPrecedidos(d.q, [], s[..n], []);
      assert s[..n] + [] == s[..n];
      assert [d.q] + [] == [d.q];
    }
  }

  // ------------------------------------------------------------ whole sessions

  /** What the connection's loop sees: messages in order, until a read fails. */
  datatype Sessao = Sessao(mensagens: seq<seq<byte>>, falha: FalhaLer, e: Estado)

  function LerAteFalhar(s: seq<byte>, e: Estado, aceita: nat -> bool): Sessao
    decreases |s|
  {
    var r := Ler(s, e, aceita);
    if r.Falhou? then Sessao([], r.falha, r.e) else
    var depois := LerAteFalhar(r.resto, r.e, aceita);
    depois.(mensagens := [r.mensagem] + depois.mensagens)
  }

  /** The session, one decoded frame at a time. */
  lemma {:induction false} SessaoPorQuadro(s: seq<byte>, e: Estado, aceita: nat -> bool)
    requires Decodificar(s).Lido?
    ensures var d := Decodificar(s);
            var p := TratarQuadro(e, d.q, aceita);
            LerAteFalhar(s, e, aceita) ==
              if p.Quebra? then Sessao([], p.falha, p.e) else
              var depois := LerAteFalhar(d.resto, p.e, aceita);
              if p.Entrega? then depois.(mensagens := [p.mensagem] + depois.mensagens) else depois
  {
    hide Decodificar, TratarQuadro;
    var d := Decodificar(s);
    var p := TratarQuadro(e, d.q, aceita);
    if p.Segue? {
      assert Ler(s, e, aceita) == Precedido(d.q, Ler(d.resto, p.e, aceita));
    }
  }

  /** The reader's effect on frames, with the encoding abstracted away. */
  datatype Efeito = Efeito(mensagens: seq<seq<byte>>, e: Estado, falha: Option<FalhaLer>)

  function Consumir(qs: seq<Quadro>, e: Estado, aceita: nat -> bool): Efeito {
    if qs == [] then Efeito([], e, None) else
    var p := TratarQuadro(e, qs[0], aceita);
    if p.Quebra? then Efeito([], p.e, Some(p.falha)) else
    var r := Consumir(qs[1..], p.e, aceita);
    if p.Entrega? then r.(mensagens := [p.mensagem] + r.mensagens) else r
  }

  lemma {:induction false} ConsumirNada(e: Estado, aceita: nat -> bool)
    ensures Consumir([], e, aceita) == Efeito([], e, None)
  {
  }

  lemma {:induction false} ConsumirUm(q: Quadro, depois: seq<Quadro>, e: Estado, aceita: nat -> bool)
    requires !TratarQuadro(e, q, aceita).Quebra?
    ensures var p := TratarQuadro(e, q, aceita);
            var r := Consumir(depois, p.e, aceita);
            Consumir([q] + depois, e, aceita)
            == if p.Entrega? then r.(mensagens := [p.mensagem] + r.mensagens) else r
  {
    hide TratarQuadro;
    assert ([q] + depois)[1..] == depois;
  }

  lemma {:induction false} ConsumirConcat(a: seq<Quadro>, b: seq<Quadro>, e: Estado, aceita: nat -> bool)
    requires Consumir(a, e, aceita).falha.None?
    ensures var ra := Consumir(a, e, aceita);
            var rb := Consumir(b, ra.e, aceita);
            Consumir(a + b, e, aceita) == Efeito(ra.mensagens + rb.mensagens, rb.e, rb.falha)
  {
    hide TratarQuadro;
    if a == [] {
      assert a + b == b;
    } else {
      assert (a + b)[1..] == a[1..] + b;
      ConsumirConcat(a[1..], b, TratarQuadro(e, a[0], aceita).e, aceita);
    }
  }

  /** A frame as a client chose to send it. */
  datatype Envio = Envio(q: Quadro, mascara: seq<byte>, forma: Forma)

  predicate EnvioValido(v: Envio) {
    && QuadroValido(v.q) && |v.mascara| == 4 && Cabe(v.forma, |v.q.dados|)
    && (Controle(v.q.opcode) ==> v.forma.Curta?)
  }

  ghost predicate EnviosValidos(vs: seq<Envio>) { forall i | 0 <= i < |vs| :: EnvioValido(vs[i]) }

  function QuadrosDe(vs: seq<Envio>): (qs: seq<Quadro>)
    ensures |qs| == |vs|
  {
    if vs == [] then [] else [vs[0].q] + QuadrosDe(vs[1..])
  }

  ghost function BytesDe(vs: seq<Envio>): seq<byte>
    requires EnviosValidos(vs)
  {
    if vs == [] then []
    else FioCliente(vs[0].q, vs[0].mascara, vs[0].forma) + BytesDe(vs[1..])
  }

  lemma PrimeiroEnvio(v: Envio, resto: seq<byte>)
    requires EnvioValido(v)
    ensures Decodificar(FioCliente(v.q, v.mascara, v.forma) + resto) == Lido(v.q, resto)
  {
    DecodificaTodoFio(v.q, v.mascara, v.forma, resto);
  }

  /** Reading masked bytes is consuming the frames they encode, then reading what follows. */
  lemma {:induction false} LerOsBytes(vs: seq<Envio>, resto: seq<byte>, e: Estado, aceita: nat -> bool)
    requires EnviosValidos(vs)
    requires Consumir(QuadrosDe(vs), e, aceita).falha.None?
    ensures var r := Consumir(QuadrosDe(vs), e, aceita);
            var fim := LerAteFalhar(resto, r.e, aceita);
            LerAteFalhar(BytesDe(vs) + resto, e, aceita) == fim.(mensagens := r.mensagens + fim.mensagens)
  {
    hide Decodificar, FioCliente, TratarQuadro, LerAteFalhar;
    if vs == [] {
      assert BytesDe(vs) + resto == resto;
    } else {
      var v := vs[0];
      var s := BytesDe(vs) + resto;
      var s1 := BytesDe(vs[1..]) + resto;
      assert s == FioCliente(v.q, v.mascara, v.forma) + s1;
      PrimeiroEnvio(v, s1);
      SessaoPorQuadro(s, e, aceita);
      assert QuadrosDe(vs)[1..] == QuadrosDe(vs[1..]);
      LerOsBytes(vs[1..], resto, TratarQuadro(e, v.q, aceita).e, aceita);
    }
  }

  // -------------------------------------------------- messages and fragments

  datatype Intercalado = Ping(dados: seq<byte>) | Pong(dados: seq<byte>)

  /** A fragment and the control frames the sender put just before it. */
  datatype Fragmento = Fragmento(antes: seq<Intercalado>, dados: seq<byte>)

  datatype MensagemEnviada = MensagemEnviada(opcode: byte, fragmentos: seq<Fragmento>)

  function Juntar(fs: seq<Fragmento>): seq<byte> {
    if fs == [] then [] else fs[0].dados + Juntar(fs[1..])
  }

  function PingsDosControles(cs: seq<Intercalado>): seq<seq<byte>> {
    if cs == [] then []
    else (if cs[0].Ping? then [cs[0].dados] else []) + PingsDosControles(cs[1..])
  }

  function PingsDosFragmentos(fs: seq<Fragmento>): seq<seq<byte>> {
    if fs == [] then [] else PingsDosControles(fs[0].antes) + PingsDosFragmentos(fs[1..])
  }

  function Pings(ms: seq<MensagemEnviada>): seq<seq<byte>> {
    if ms == [] then [] else PingsDosFragmentos(ms[0].fragmentos) + Pings(ms[1..])
  }

  function Corpos(ms: seq<MensagemEnviada>): seq<seq<byte>> {
    if ms == [] then [] else [Juntar(ms[0].fragmentos)] + Corpos(ms[1..])
  }

  function QuadrosDosControles(cs: seq<Intercalado>): seq<Quadro> {
    if cs == [] then []
    else [Quadro(true, if cs[0].Ping? then PING else PONG, cs[0].dados)] + QuadrosDosControles(cs[1..])
  }

  /** Section 5.4: the first fragment carries the opcode, the rest are continuations, the last has FIN. */
  function QuadrosDosFragmentos(fs: seq<Fragmento>, opcode: byte): seq<Quadro> {
    if fs == [] then []
    else QuadrosDosControles(fs[0].antes) + [Quadro(|fs| == 1, opcode, fs[0].dados)]
         + QuadrosDosFragmentos(fs[1..], CONTINUACAO)
  }

  function QuadrosDasMensagens(ms: seq<MensagemEnviada>): seq<Quadro> {
    if ms == [] then []
    else QuadrosDosFragmentos(ms[0].fragmentos, ms[0].opcode) + QuadrosDasMensagens(ms[1..])
  }

  predicate MensagemValida(m: MensagemEnviada) {
    && (m.opcode == TEXTO || m.opcode == BINARIO)
    && m.fragmentos != []
    && |Juntar(m.fragmentos)| <= TAMANHO_MAXIMO_MENSAGEM
  }

  lemma Emendar<T>(a: seq<T>, b: seq<T>, c: seq<T>)
    ensures a + (b + c) == a + b + c
  {
  }

  lemma NadaAMais<T>(a: seq<T>)
    ensures a + [] == a
  {
  }

  lemma {:induction false} ConsumirControles(cs: seq<Intercalado>, e: Estado, aceita: nat -> bool)
    requires forall k: nat :: aceita(k)
    ensures Consumir(QuadrosDosControles(cs), e, aceita)
            == Efeito([], e.(pongs := e.pongs + PingsDosControles(cs)), None)
  {
    if cs == [] {
      assert e.pongs + [] == e.pongs;
    } else {
      var q := Quadro(true, if cs[0].Ping? then PING else PONG, cs[0].dados);
      var e1 := if cs[0].Ping? then e.(pongs := e.pongs + [cs[0].dados]) else e;
      assert TratarQuadro(e, q, aceita) == Segue(e1);
      hide Consumir, TratarQuadro;
      ConsumirUm(q, QuadrosDosControles(cs[1..]), e, aceita);
      ConsumirControles(cs[1..], e1, aceita);
      Emendar(e.pongs, if cs[0].Ping? then [cs[0].dados] else [], PingsDosControles(cs[1..]));
      NadaAMais(e.pongs);
    }
  }

  /** Controls are answered first; then the data frame takes its step. */
  lemma {:induction false} ConsumirUmFragmento(f: Fragmento, q: Quadro, depois: seq<Quadro>, e: Estado, aceita: nat -> bool)
    requires forall k: nat :: aceita(k)
    requires var e1 := e.(pongs := e.pongs + PingsDosControles(f.antes));
             !TratarQuadro(e1, q, aceita).Quebra?
    ensures var e1 := e.(pongs := e.pongs + PingsDosControles(f.antes));
            var p := TratarQuadro(e1, q, aceita);
            var r := Consumir(depois, p.e, aceita);
            Consumir(QuadrosDosControles(f.antes) + [q] + depois, e, aceita)
            == if p.Entrega? then r.(mensagens := [p.mensagem] + r.mensagens) else r
  {
    hide Consumir, TratarQuadro;
    var cs := QuadrosDosControles(f.antes);
    var e1 := e.(pongs := e.pongs + PingsDosControles(f.antes));
    ConsumirControles(f.antes, e, aceita);
    ConsumirConcat(cs, [q] + depois, e, aceita);
    assert cs + ([q] + depois) == cs + [q] + depois;
    ConsumirUm(q, depois, e1, aceita);
  }

  lemma DadoAceito(e: Estado, q: Quadro, aceita: nat -> bool)
    requires EhDado(q.opcode) && e.montando == (q.opcode == CONTINUACAO)
    requires !e.montando ==> e.montagem == []
    requires |e.montagem| + |q.dados| <= TAMANHO_MAXIMO_MENSAGEM
    ensures TratarQuadro(e, q, aceita) == Acrescentar(e, q)
  {
  }

  lemma {:induction false} ConsumirFragmentos(fs: seq<Fragmento>, opcode: byte, e: Estado, aceita: nat -> bool)
    requires forall k: nat :: aceita(k)
    requires fs != [] && EhDado(opcode) && e.montando == (opcode == CONTINUACAO)
    requires !e.montando ==> e.montagem == []
    requires |e.montagem| + |Juntar(fs)| <= TAMANHO_MAXIMO_MENSAGEM
    ensures Consumir(QuadrosDosFragmentos(fs, opcode), e, aceita)
            == Efeito([e.montagem + Juntar(fs)], Estado(false, [], e.pongs + PingsDosFragmentos(fs)), None)
  {
    hide Consumir, QuadrosDosControles, PingsDosControles, TratarQuadro;
    var f := fs[0];
    var q := Quadro(|fs| == 1, opcode, f.dados);
    var depois := QuadrosDosFragmentos(fs[1..], CONTINUACAO);
    var e1 := e.(pongs := e.pongs + PingsDosControles(f.antes));
    DadoAceito(e1, q, aceita);
    ConsumirUmFragmento(f, q, depois, e, aceita);
    Emendar(e.montagem, f.dados, Juntar(fs[1..]));
    Emendar(e.pongs, PingsDosControles(f.antes), PingsDosFragmentos(fs[1..]));
    if |fs| == 1 {
      ConsumirNada(Estado(false, [], e1.pongs), aceita);
      NadaAMais(e.montagem + f.dados);
      NadaAMais(e1.pongs);
    } else {
      ConsumirFragmentos(fs[1..], CONTINUACAO, Acrescentar(e1, q).e, aceita);
    }
  }

  lemma {:induction false} ConsumirMensagens(ms: seq<MensagemEnviada>, e: Estado, aceita: nat -> bool)
    requires forall k: nat :: aceita(k)
    requires forall i | 0 <= i < |ms| :: MensagemValida(ms[i])
    requires !e.montando && e.montagem == []
    ensures Consumir(QuadrosDasMensagens(ms), e, aceita)
            == Efeito(Corpos(ms), e.(pongs := e.pongs + Pings(ms)), None)
  {
    hide Consumir, QuadrosDosFragmentos, Juntar, PingsDosFragmentos;
    if ms == [] {
      ConsumirNada(e, aceita);
      assert e.pongs + [] == e.pongs;
    } else {
      var m := ms[0];
      assert MensagemValida(m);
      ConsumirFragmentos(m.fragmentos, m.opcode, e, aceita);
      assert [] + Juntar(m.fragmentos) == Juntar(m.fragmentos);
      var e1 := Estado(false, [], e.pongs + PingsDosFragmentos(m.fragmentos));
      ConsumirMensagens(ms[1..], e1, aceita);
      ConsumirConcat(QuadrosDosFragmentos(m.fragmentos, m.opcode), QuadrosDasMensagens(ms[1..]), e, aceita);
      assert e1.pongs + Pings(ms[1..]) == e.pongs + Pings(ms);
    }
  }

  /**
   * Reassembly round trip: any messages, cut into any fragments, with any
   * control frames before any fragment, any keys and any legal length forms,
   * come back as those messages in order, with one pong per ping in order; the
   * loop then stops only because the stream is exhausted.
   */
  lemma {:induction false} IdaEVolta(ms: seq<MensagemEnviada>, vs: seq<Envio>, aceita: nat -> bool)
    requires forall k: nat :: aceita(k)
    requires forall i | 0 <= i < |ms| :: MensagemValida(ms[i])
    requires EnviosValidos(vs) && QuadrosDe(vs) == QuadrosDasMensagens(ms)
    ensures LerAteFalhar(BytesDe(vs), Estado(false, [], []), aceita)
            == Sessao(Corpos(ms), DoQuadro(Truncado), Estado(false, [], Pings(ms)))
  {
    var e := Estado(false, [], []);
    ConsumirMensagens(ms, e, aceita);
    LerOsBytes(vs, [], e, aceita);
    assert BytesDe(vs) + [] == BytesDe(vs);
    assert [] + Pings(ms) == Pings(ms);
    assert Corpos(ms) + [] == Corpos(ms);
  }
}
