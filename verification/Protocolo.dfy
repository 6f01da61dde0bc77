/**
 * What the server's reader does, said of the frames in the stream alone: which
 * frame is refused and why, which messages the frames before it complete, and
 * what is left open. The reader of Reassembly is proved to do exactly that on
 * arbitrary bytes.
 */
module Protocolo {
  import opened Bytes
  import opened Frames
  import opened Reassembly

  /** The frames of a stream, up to where decoding fails, and why it does. */
  datatype Fluxo = Fluxo(quadros: seq<Quadro>, falha: Falha)

  function FluxoDe(s: seq<byte>): Fluxo
    decreases |s|
  {
    match Decodificar(s)
    case Recusado(falha) => Fluxo([], falha)
    case Lido(q, resto) => var f := FluxoDe(resto); f.(quadros := [q] + f.quadros)
  }

  /** The payloads of the pings among them. */
  function PingsDe(qs: seq<Quadro>): seq<seq<byte>> {
    if qs == [] then [] else
    PingsDe(qs[..|qs| - 1]) + if qs[|qs| - 1].opcode == 0x9 then [qs[|qs| - 1].dados] else []
  }

  /** The messages they complete: for each final data frame the payload of the run it closes. */
  function MensagensDe(qs: seq<Quadro>): seq<seq<byte>> {
    if qs == [] then [] else
    var q := qs[|qs| - 1];
    MensagensDe(qs[..|qs| - 1]) + if q.opcode <= 0x2 && q.fim then [Parcial(SemFim(qs))] else []
  }

  /** Frame q is refused after the frames qs, for this reason. */
  predicate Recusa(qs: seq<Quadro>, q: Quadro, aceita: nat -> bool, motivo: FalhaLer) {
    match motivo
    case FimDaConexao => q.opcode == 0x8
    case FilaRecusou => q.opcode == 0x9 && !aceita(|PingsDe(qs)|)
    case NovaAntesDoFim => 0x1 <= q.opcode <= 0x2 && Aberta(qs)
    case ContinuacaoSemInicio => q.opcode == 0x0 && !Aberta(qs)
    case FragmentadaGrande => q.opcode == 0x0 && Aberta(qs) && |Parcial(qs)| + |q.dados| > 0x10_0000
    case OpcodeDesconhecido => 0x3 <= q.opcode <= 0x7 || 0xA < q.opcode
    case DoQuadro(_) => false
  }

  ghost predicate Barrado(qs: seq<Quadro>, q: Quadro, aceita: nat -> bool) {
    exists motivo :: Recusa(qs, q, aceita, motivo)
  }

  /** None of the frames is refused after those before it. */
  ghost predicate TodosAceitos(qs: seq<Quadro>, aceita: nat -> bool) {
    forall k | 0 <= k < |qs| :: !Barrado(qs[..k], qs[k], aceita)
  }

  /** The reader's state after frames none of which was refused. */
  function Depois(qs: seq<Quadro>): Estado { Estado(Aberta(qs), Parcial(qs), PingsDe(qs)) }

  lemma {:induction false} DepoisDeMais(qs: seq<Quadro>, q: Quadro)
    ensures PingsDe(qs + [q]) == PingsDe(qs) + if q.opcode == 0x9 then [q.dados] else []
    ensures MensagensDe(qs + [q]) ==
              MensagensDe(qs) + if q.opcode <= 0x2 && q.fim then [Parcial(SemFim(qs + [q]))] else []
  {
    assert (qs + [q])[..|qs|] == qs;
  }

  lemma AceitosMais(qs: seq<Quadro>, q: Quadro, aceita: nat -> bool)
    ensures TodosAceitos(qs + [q], aceita) <==> TodosAceitos(qs, aceita) && !Barrado(qs, q, aceita)
  {
    hide Barrado;
    var mais := qs + [q];
    assert mais[..|qs|] == qs && mais[|qs|] == q;
    forall k | 0 <= k < |qs| ensures mais[..k] == qs[..k] && mais[k] == qs[k] {}
    if TodosAceitos(qs, aceita) && !Barrado(qs, q, aceita) {
      forall k | 0 <= k < |mais| ensures !Barrado(mais[..k], mais[k], aceita) {
        if k < |qs| { assert !Barrado(qs[..k], qs[k], aceita); }
      }
    }
    if TodosAceitos(mais, aceita) {
      assert !Barrado(mais[..|qs|], mais[|qs|], aceita);
      forall k | 0 <= k < |qs| ensures !Barrado(qs[..k], qs[k], aceita) {
        assert !Barrado(mais[..k], mais[k], aceita);
      }
    }
  }

  /** One frame: refused exactly for its reason, and otherwise taken with the effect the frames say. */
  lemma {:induction false} QuadroExato(qs: seq<Quadro>, q: Quadro, aceita: nat -> bool)
    requires |Parcial(qs)| <= 0x10_0000 && QuadroValido(q)
    ensures var p := TratarQuadro(Depois(qs), q, aceita);
            && (forall motivo :: (p.Quebra? && p.falha == motivo) <==> Recusa(qs, q, aceita, motivo))
            && (p.Quebra? ==> p.e == Depois(qs))
            && (!p.Quebra? ==> p.e == Depois(qs + [q]) && |p.e.montagem| <= 0x10_0000)
            && MensagensDe(qs + [q]) == MensagensDe(qs) + (if DadoFinal(q) then [Parcial(SemFim(qs + [q]))] else [])
            && (!p.Quebra? ==> (p.Entrega? <==> DadoFinal(q)))
            && (p.Entrega? ==> p.mensagem == Parcial(SemFim(qs + [q])))
  {
    hide Aberta, Parcial, QuadroValido, PingsDe, MensagensDe;
    DepoisDeMais(qs, q);
    AbertaApos(qs, q);
    AbertaApos(qs, q.(fim := false));
    assert SemFim(qs + [q]) == qs + [q.(fim := false)];
    assert [] + q.dados == q.dados;
    DadoCabe(q);
  }

  /** A data frame with FIN. */
  predicate DadoFinal(q: Quadro) { q.opcode <= 0x2 && q.fim }

  /** The outcome r of a call, begun after the frames qs on a stream of these frames, is the one they call for. */
  ghost predicate Responde(qs: seq<Quadro>, fluxo: Fluxo, aceita: nat -> bool, r: Resposta) {
    var n := |r.quadros|;
    var tomados := qs + r.quadros;
    && n <= |fluxo.quadros| && r.quadros == fluxo.quadros[..n]
    && TodosAceitos(tomados, aceita) && |Parcial(tomados)| <= 0x10_0000 && r.e == Depois(tomados)
    && (r.Mensagem? ==>
          && n > 0 && DadoFinal(r.quadros[n - 1]) && r.mensagem == Parcial(SemFim(tomados))
          && MensagensDe(tomados) == MensagensDe(qs) + [r.mensagem]
          && FluxoDe(r.resto) == fluxo.(quadros := fluxo.quadros[n..]))
    && (r.Falhou? ==>
          && MensagensDe(tomados) == MensagensDe(qs)
          && (n == |fluxo.quadros| ==> r.falha == DoQuadro(fluxo.falha))
          && (n < |fluxo.quadros| ==> Recusa(tomados, fluxo.quadros[n], aceita, r.falha)))
  }

  /** The frames taken keep the reader going, and only a close ends the session. */
  lemma RespondeDiz(qs: seq<Quadro>, fluxo: Fluxo, aceita: nat -> bool, r: Resposta)
    requires Responde(qs, fluxo, aceita, r)
    ensures var tomados := qs + r.quadros;
            TodosAceitos(tomados, aceita) && r.e == Depois(tomados) && |Parcial(tomados)| <= 0x10_0000
    ensures r.Falhou? ==> Responde(qs, fluxo, aceita, r.(resto := []))
    ensures r.Falhou? ==>
              (r.falha == FimDaConexao <==>
               |r.quadros| < |fluxo.quadros| && fluxo.quadros[|r.quadros|].opcode == 0x8)
  {
    hide TodosAceitos, Depois, Parcial, MensagensDe, FluxoDe;
  }

  /** A frame that neither fails nor completes a message comes before what the rest of the stream gives. */
  lemma RespondeUmAntes(qs: seq<Quadro>, q: Quadro, fluxo: Fluxo, aceita: nat -> bool, r: Resposta)
    requires Responde(qs + [q], fluxo, aceita, r) && !DadoFinal(q)
    ensures Responde(qs, fluxo.(quadros := [q] + fluxo.quadros), aceita, Precedido(q, r))
  {
    hide Recusa, TodosAceitos, Parcial, Depois, PingsDe, MensagensDe, DadoFinal, SemFim, FluxoDe;
    var n := |r.quadros|;
    assert qs + [q] + r.quadros == qs + ([q] + r.quadros);
    assert ([q] + fluxo.quadros)[..n + 1] == [q] + fluxo.quadros[..n];
    assert ([q] + fluxo.quadros)[n + 1..] == fluxo.quadros[n..];
    SemMensagem(qs, q);
  }

  lemma {:induction false} SemMensagem(qs: seq<Quadro>, q: Quadro)
    requires !DadoFinal(q)
    ensures MensagensDe(qs + [q]) == MensagensDe(qs)
  {
    hide MensagensDe;
    DepoisDeMais(qs, q);
    assert MensagensDe(qs) + [] == MensagensDe(qs);
  }

  /** The call that the first frame already ends. */
  lemma {:induction false} RespondeJa(qs: seq<Quadro>, s: seq<byte>, aceita: nat -> bool)
    requires TodosAceitos(qs, aceita) && |Parcial(qs)| <= 0x10_0000
    requires Decodificar(s).Recusado? || !TratarQuadro(Depois(qs), Decodificar(s).q, aceita).Segue?
    ensures Responde(qs, FluxoDe(s), aceita, Ler(s, Depois(qs), aceita))
  {
    hide Decodificar, TratarQuadro, QuadroValido, Parcial, Aberta, PingsDe, MensagensDe, TodosAceitos;
    hide Recusa, Barrado, SemFim;
    assert qs + [] == qs;
    var d := Decodificar(s);
    if d.Lido? {
      QuadroLidoValido(s);
      QuadroExato(qs, d.q, aceita);
      AceitosMais(qs, d.q, aceita);
      BarradoDiz(qs, d.q, aceita);
      assert ([d.q] + FluxoDe(d.resto).quadros)[..1] == [d.q];
      assert ([d.q] + FluxoDe(d.resto).quadros)[1..] == FluxoDe(d.resto).quadros;
    }
  }

  lemma BarradoDiz(qs: seq<Quadro>, q: Quadro, aceita: nat -> bool)
    ensures Barrado(qs, q, aceita) <==> exists motivo :: Recusa(qs, q, aceita, motivo)
  {
  }

  /**
   * One call of the reader on arbitrary bytes: it takes frames of the stream, none
   * refused, up to the first that completes a message, which it returns, or else up
   * to the first that is refused or cannot be decoded, and says why.
   */
  lemma {:induction false} LerExato(qs: seq<Quadro>, s: seq<byte>, aceita: nat -> bool)
    requires TodosAceitos(qs, aceita) && |Parcial(qs)| <= 0x10_0000
    ensures Responde(qs, FluxoDe(s), aceita, Ler(s, Depois(qs), aceita))
    decreases |s|
  {
    hide Decodificar, TratarQuadro, QuadroValido, Parcial, Depois, MensagensDe, TodosAceitos;
    hide Recusa, Responde, DadoFinal;
    var d := Decodificar(s);
    if d.Lido? && TratarQuadro(Depois(qs), d.q, aceita).Segue? {
      QuadroLidoValido(s);
      QuadroExato(qs, d.q, aceita);
      AceitosMais(qs, d.q, aceita);
      BarradoDiz(qs, d.q, aceita);
      SegueCabe(qs, d.q, aceita);
      LerExato(qs + [d.q], d.resto, aceita);
      RespondeUmAntes(qs, d.q, FluxoDe(d.resto), aceita, Ler(d.resto, Depois(qs + [d.q]), aceita));
    } else {
      RespondeJa(qs, s, aceita);
    }
  }

  lemma {:induction false} SegueCabe(qs: seq<Quadro>, q: Quadro, aceita: nat -> bool)
    requires |Parcial(qs)| <= 0x10_0000 && QuadroValido(q) && TratarQuadro(Depois(qs), q, aceita).Segue?
    ensures |Parcial(qs + [q])| <= 0x10_0000
  {
    hide TratarQuadro, Parcial;
    QuadroExato(qs, q, aceita);
  }

  // ------------------------------------------------------------ whole sessions

  /** A session begun after the frames qs takes n frames of the stream, and returns what they complete. */
  ghost predicate Termina(qs: seq<Quadro>, fluxo: Fluxo, aceita: nat -> bool, n: nat, sessao: Sessao) {
    && n <= |fluxo.quadros|
    && var tomados := qs + fluxo.quadros[..n];
    && TodosAceitos(tomados, aceita) && sessao.e == Depois(tomados)
    && MensagensDe(tomados) == MensagensDe(qs) + sessao.mensagens
    && (n == |fluxo.quadros| ==> sessao.falha == DoQuadro(fluxo.falha))
    && (n < |fluxo.quadros| ==> Recusa(tomados, fluxo.quadros[n], aceita, sessao.falha))
  }

  /**
   * A session, over arbitrary bytes: it returns, in order, the messages that the
   * frames complete up to the first that is refused, and ends for that reason; when
   * none is refused it ends where decoding fails.
   */
  lemma {:induction false} SessaoExata(qs: seq<Quadro>, s: seq<byte>, aceita: nat -> bool) returns (n: nat)
    requires TodosAceitos(qs, aceita) && |Parcial(qs)| <= 0x10_0000
    ensures Termina(qs, FluxoDe(s), aceita, n, LerAteFalhar(s, Depois(qs), aceita))
    decreases |s|
  {
    hide Ler, Parcial, Depois, MensagensDe, TodosAceitos, Recusa, DadoFinal, SemFim, FluxoDe;
    var r := Ler(s, Depois(qs), aceita);
    var quadros := FluxoDe(s).quadros;
    LerExato(qs, s, aceita);
    n := |r.quadros|;
    if r.Falhou? {
      assert MensagensDe(qs) + [] == MensagensDe(qs);
    } else {
      var m := SessaoExata(qs + r.quadros, r.resto, aceita);
      assert qs + quadros[..n] + quadros[n..][..m] == qs + quadros[..n + m];
      var depois := LerAteFalhar(r.resto, r.e, aceita).mensagens;
      assert MensagensDe(qs) + [r.mensagem] + depois == MensagensDe(qs) + ([r.mensagem] + depois);
      n := n + m;
    }
  }

  // ------------------------------------------------- the first frame refused

  const INICIO: Estado := Estado(false, [], [])

  lemma ComecoVazio(aceita: nat -> bool)
    ensures Depois([]) == INICIO && TodosAceitos([], aceita) && |Parcial([])| <= 0x10_0000 && MensagensDe([]) == []
  {
  }

  /** A frame is refused for one reason only. */
  lemma MotivoUnico(qs: seq<Quadro>, q: Quadro, aceita: nat -> bool, a: FalhaLer, b: FalhaLer)
    requires Recusa(qs, q, aceita, a) && Recusa(qs, q, aceita, b)
    ensures a == b
  {
  }

  lemma AceitoAntes(quadros: seq<Quadro>, n: nat, k: nat, aceita: nat -> bool)
    requires k < n <= |quadros| && TodosAceitos(quadros[..n], aceita)
    ensures forall motivo :: !Recusa(quadros[..k], quadros[k], aceita, motivo)
  {
    hide Recusa;
    assert quadros[..n][..k] == quadros[..k] && quadros[..n][k] == quadros[k];
    assert !Barrado(quadros[..n][..k], quadros[..n][k], aceita);
  }

  /** Once a frame of the stream is refused, after frames none of which was, the session ends there. */
  lemma TerminaNoRecusado(quadros: seq<Quadro>, fluxo: Fluxo, aceita: nat -> bool, n: nat, sessao: Sessao,
                          k: nat, motivo: FalhaLer)
    requires fluxo.quadros == quadros && Termina([], fluxo, aceita, n, sessao)
    requires k < |quadros| && TodosAceitos(quadros[..k], aceita) && Recusa(quadros[..k], quadros[k], aceita, motivo)
    ensures n == k && sessao == Sessao(MensagensDe(quadros[..k]), motivo, Depois(quadros[..k]))
  {
    hide Recusa, Depois, MensagensDe;
    assert [] + quadros[..n] == quadros[..n];
    if n < k {
      AceitoAntes(quadros, k, n, aceita);
    } else if k < n {
      AceitoAntes(quadros, n, k, aceita);
    } else {
      MotivoUnico(quadros[..k], quadros[k], aceita, motivo, sessao.falha);
      assert MensagensDe([]) == [] by { ComecoVazio(aceita); }
      assert [] + sessao.mensagens == sessao.mensagens;
    }
  }

  lemma {:induction false} FluxoDosBytes(vs: seq<Envio>, resto: seq<byte>)
    requires EnviosValidos(vs)
    ensures FluxoDe(BytesDe(vs) + resto) == FluxoDe(resto).(quadros := QuadrosDe(vs) + FluxoDe(resto).quadros)
  {
    hide Decodificar, FioCliente;
    if vs == [] {
      assert BytesDe(vs) + resto == resto;
    } else {
      var v := vs[0];
      var s1 := BytesDe(vs[1..]) + resto;
      assert BytesDe(vs) + resto == FioCliente(v.q, v.mascara, v.forma) + s1;
      PrimeiroEnvio(v, s1);
      FluxoDosBytes(vs[1..], resto);
      assert [v.q] + (QuadrosDe(vs[1..]) + FluxoDe(resto).quadros) == QuadrosDe(vs) + FluxoDe(resto).quadros;
    }
  }

  /**
   * The bytes of any frames taken without failure, then of one that is refused, then
   * anything: the session returns exactly the messages before it and ends for that
   * reason, whatever follows.
   */
  lemma {:induction false} RecusadoEncerra(vs: seq<Envio>, v: Envio, resto: seq<byte>, aceita: nat -> bool,
                                           motivo: FalhaLer)
    requires EnviosValidos(vs) && EnvioValido(v) && TodosAceitos(QuadrosDe(vs), aceita)
    requires Recusa(QuadrosDe(vs), v.q, aceita, motivo)
    ensures LerAteFalhar(BytesDe(vs) + (FioCliente(v.q, v.mascara, v.forma) + resto), INICIO, aceita)
            == Sessao(MensagensDe(QuadrosDe(vs)), motivo, Depois(QuadrosDe(vs)))
  {
    hide Decodificar, FioCliente, Recusa, Depois, MensagensDe, TodosAceitos, LerAteFalhar, Termina;
    var depois := FioCliente(v.q, v.mascara, v.forma) + resto;
    var s := BytesDe(vs) + depois;
    var qs := QuadrosDe(vs);
    ComecoVazio(aceita);
    FluxoDosBytes(vs, depois);
    PrimeiroEnvio(v, resto);
    var n := SessaoExata([], s, aceita);
    var quadros := FluxoDe(s).quadros;
    assert quadros == qs + ([v.q] + FluxoDe(resto).quadros);
    assert quadros[..|qs|] == qs && quadros[|qs|] == v.q;
    TerminaNoRecusado(quadros, FluxoDe(s), aceita, n, LerAteFalhar(s, INICIO, aceita), |qs|, motivo);
  }

  /** A close frame ends the session with exactly the messages before it, whatever follows. */
  lemma {:induction false} FecharEncerra(vs: seq<Envio>, v: Envio, resto: seq<byte>, aceita: nat -> bool)
    requires EnviosValidos(vs) && EnvioValido(v) && TodosAceitos(QuadrosDe(vs), aceita) && v.q.opcode == 0x8
    ensures LerAteFalhar(BytesDe(vs) + (FioCliente(v.q, v.mascara, v.forma) + resto), INICIO, aceita)
            == Sessao(MensagensDe(QuadrosDe(vs)), FimDaConexao, Depois(QuadrosDe(vs)))
  {
    RecusadoEncerra(vs, v, resto, aceita, FimDaConexao);
  }

  /**
   * ... and nothing else does: on arbitrary bytes, a session ends so exactly when a
   * close comes after frames none of which is refused.
   */
  lemma {:induction false} SoFecharEncerra(s: seq<byte>, aceita: nat -> bool)
    ensures LerAteFalhar(s, INICIO, aceita).falha == FimDaConexao <==>
              var quadros := FluxoDe(s).quadros;
              exists k :: 0 <= k < |quadros| && TodosAceitos(quadros[..k], aceita) && quadros[k].opcode == 0x8
  {
    hide Decodificar, Depois, MensagensDe, TodosAceitos, LerAteFalhar, FluxoDe;
    ComecoVazio(aceita);
    var n := SessaoExata([], s, aceita);
    var quadros := FluxoDe(s).quadros;
    assert [] + quadros[..n] == quadros[..n];
    if k :| 0 <= k < |quadros| && TodosAceitos(quadros[..k], aceita) && quadros[k].opcode == 0x8 {
      TerminaNoRecusado(quadros, FluxoDe(s), aceita, n, LerAteFalhar(s, INICIO, aceita), k, FimDaConexao);
    }
  }
}
