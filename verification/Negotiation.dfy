/**
 * Renegotiation of one SFU session under every interleaving of the goroutines
 * that add or remove senders, make offers, and apply what the client sends. The
 * peer connection is its signalling state (section 3.2 of RFC 8829), its set of
 * senders and the senders of its last local offer. A run ends at the
 * connection's Close.
 */
module Negotiation {
  import opened Runs
  import opened Sums

  type Faixa = nat

  datatype Sinal = Estavel | OfertaLocal | OfertaRemota

  /** Where a goroutine stands with this session: what it does to it next. */
  datatype Tarefa =
    | Deve                          // has a call of oferecer due
    | CriarOferta
    | AplicarOferta(oferta: set<Faixa>)
    | Liberar
    | LiberarComErro
    | Anunciar
    | AplicarResposta               // a client answer, before SetRemoteDescription
    | TomarPendencia
    | AplicarOfertaRemota           // a client offer, before SetRemoteDescription
    | Responder
    | Feita

  datatype Evento = Ofertou | Respondeu

  /** History: `aguardando`, an announced offer that the client has not answered, and `eventos`. */
  datatype Estado = Estado(
    sinal: Sinal,
    oferecendo: bool,
    renegociarDepois: bool,
    fechada: bool,
    remetentes: set<Faixa>,
    ofertados: set<Faixa>,
    aguardando: bool,
    tarefas: seq<Tarefa>,
    eventos: seq<Evento>)

  /** The session as Entrar has just stored it: its first offer is due. */
  const INICIAL: Estado := Estado(Estavel, false, false, false, {}, {}, false, [Deve], [])

  datatype Acao =
    | Assinar(f: Faixa)             // AddTransceiverFromTrack by a goroutine that will then offer
    | AssinarMais(i: nat, f: Faixa) // ... by one whose offer is already due
    | Remover(f: Faixa)             // RemoveTrack, then an offer
    | Reoferecer                    // an offer with no change of senders
    | Avancar(i: nat)
    | FalharOferta(i: nat)          // CreateOffer or SetLocalDescription fails for a reason of its own
    | ChegaResposta                 // an answer arrives, whether or not one is due
    | ReceberResposta(i: nat, ok: bool)
    | ChegaOferta
    | ReceberOferta(i: nat, ok: bool)
    | MarcarFechada

  predicate Em(s: Estado, i: nat) { i < |s.tarefas| }

  /** The peer connection takes an answer only while our offer is out, and a client offer only when stable. */
  predicate RespostaAceita(s: Estado, ok: bool) { ok && s.sinal == OfertaLocal }
  predicate OfertaAceita(s: Estado, ok: bool) { ok && s.sinal == Estavel }

  predicate Pode(s: Estado, a: Acao) {
    match a
    case Assinar(_) => true
    case AssinarMais(i, _) => Em(s, i) && s.tarefas[i].Deve?
    case Remover(_) => true
    case Reoferecer => true
    case Avancar(i) =>
      Em(s, i) && !s.tarefas[i].AplicarResposta? && !s.tarefas[i].AplicarOfertaRemota? && !s.tarefas[i].Feita?
    case FalharOferta(i) => Em(s, i) && (s.tarefas[i].CriarOferta? || s.tarefas[i].AplicarOferta?)
    case ChegaResposta => true
    case ReceberResposta(i, _) => Em(s, i) && s.tarefas[i].AplicarResposta?
    case ChegaOferta => true
    case ReceberOferta(i, _) => Em(s, i) && s.tarefas[i].AplicarOfertaRemota?
    case MarcarFechada => true
  }

  /** What a goroutine's next operation does to the session. */
  function Efeito(s: Estado, t: Tarefa): Estado {
    match t
    case Deve =>
      if s.fechada then s
      else if s.oferecendo || s.sinal != Estavel then s.(renegociarDepois := true)
      else s.(oferecendo := true)
    case AplicarOferta(oferta) =>
      if s.sinal != Estavel then s
      else s.(sinal := OfertaLocal, ofertados := oferta, eventos := s.eventos + [Ofertou])
    case Liberar => s.(oferecendo := false)
    case LiberarComErro => s.(oferecendo := false)
    case Anunciar => s.(aguardando := true)
    case TomarPendencia => s.(renegociarDepois := false)
    case Responder => if s.sinal == OfertaRemota then s.(sinal := Estavel) else s
    case _ => s
  }

  /** ... and where it leaves the goroutine. */
  function Proxima(s: Estado, t: Tarefa): Tarefa {
    match t
    case Deve => if s.fechada || s.oferecendo || s.sinal != Estavel then Feita else CriarOferta
    case CriarOferta => AplicarOferta(s.remetentes)
    case AplicarOferta(_) => if s.sinal != Estavel then LiberarComErro else Liberar
    case Liberar => Anunciar
    case TomarPendencia => if s.renegociarDepois then Deve else Feita
    case _ => Feita
  }

  /** The session after an action. */
  function Sessao1(s: Estado, a: Acao): Estado
    requires Pode(s, a)
  {
    match a
    case Assinar(f) => s.(remetentes := s.remetentes + {f})
    case AssinarMais(_, f) => s.(remetentes := s.remetentes + {f})
    case Remover(f) => s.(remetentes := s.remetentes - {f})
    case Reoferecer => s
    case Avancar(i) => Efeito(s, s.tarefas[i])
    case FalharOferta(_) => s
    case ChegaResposta => s.(aguardando := false)
    case ReceberResposta(_, ok) =>
      if RespostaAceita(s, ok) then s.(sinal := Estavel, eventos := s.eventos + [Respondeu]) else s
    case ChegaOferta => s
    case ReceberOferta(_, ok) => if OfertaAceita(s, ok) then s.(sinal := OfertaRemota) else s
    case MarcarFechada => s.(fechada := true)
  }

  predicate Cria(a: Acao) { a.Assinar? || a.Remover? || a.Reoferecer? || a.ChegaResposta? || a.ChegaOferta? }
  predicate Move(a: Acao) { a.Avancar? || a.FalharOferta? || a.ReceberResposta? || a.ReceberOferta? }

  /** The goroutine an action moves, and where to; an action that starts one moves it from Feita. */
  function Sai(s: Estado, a: Acao): Tarefa
    requires Pode(s, a)
  {
    if Move(a) then s.tarefas[a.i] else Feita
  }

  function Entra(s: Estado, a: Acao): Tarefa
    requires Pode(s, a)
  {
    match a
    case Assinar(_) => Deve
    case AssinarMais(_, _) => Feita
    case Remover(_) => Deve
    case Reoferecer => Deve
    case Avancar(i) => Proxima(s, s.tarefas[i])
    case FalharOferta(_) => LiberarComErro
    case ChegaResposta => AplicarResposta
    case ReceberResposta(_, ok) => if RespostaAceita(s, ok) then TomarPendencia else Feita
    case ChegaOferta => AplicarOfertaRemota
    case ReceberOferta(_, ok) => if OfertaAceita(s, ok) then Responder else Feita
    case MarcarFechada => Feita
  }

  function Tarefas1(s: Estado, a: Acao): seq<Tarefa>
    requires Pode(s, a)
  {
    if Cria(a) then s.tarefas + [Entra(s, a)]
    else if Move(a) then s.tarefas[a.i := Entra(s, a)]
    else s.tarefas
  }

  function Aplicar(s: Estado, a: Acao): Estado
    requires Pode(s, a)
  {
    Sessao1(s, a).(tarefas := Tarefas1(s, a))
  }

  function Passo(s: Estado, a: Acao): Estado {
    if Pode(s, a) then Aplicar(s, a) else s
  }

  /** Every interleaving, whatever the client sends and whenever. */
  const NEGOCIACAO: Sistema<Estado, Acao> := Sistema(Pode, Passo)

  // ------------------------------------------------------------------- counting

  function Devendo(t: Tarefa): nat { if t.Deve? then 1 else 0 }
  function Preparando(t: Tarefa): nat { if t.CriarOferta? || t.AplicarOferta? then 1 else 0 }
  function Terminando(t: Tarefa): nat { if t.Liberar? || t.LiberarComErro? then 1 else 0 }
  function EmVoo(t: Tarefa): nat { if t.Anunciar? || t.AplicarResposta? then 1 else 0 }
  function Tomando(t: Tarefa): nat { if t.TomarPendencia? then 1 else 0 }
  function Remota(t: Tarefa): nat { if t.AplicarOfertaRemota? || t.Responder? then 1 else 0 }

  /** How many goroutines weigh so. */
  function N(s: Estado, peso: Tarefa -> nat): nat { Soma(s.tarefas, peso) }

  lemma {:induction false} Contar(s: Estado, a: Acao, peso: Tarefa -> nat)
    requires Pode(s, a) && peso(Feita) == 0
    ensures N(Passo(s, a), peso) == N(s, peso) - peso(Sai(s, a)) + peso(Entra(s, a))
    ensures N(s, peso) >= peso(Sai(s, a))
    ensures a.AssinarMais? ==> N(s, peso) >= peso(Deve)
  {
    hide Soma, Sessao1, Proxima;
    if Cria(a) {
      SomaMais(s.tarefas, Entra(s, a), peso);
    } else if Move(a) {
      SomaTroca(s.tarefas, a.i, Entra(s, a), peso);
      SomaInclui(s.tarefas, a.i, peso);
    } else if a.AssinarMais? {
      SomaInclui(s.tarefas, a.i, peso);
    }
  }

  // ------------------------------------- what holds whatever the client sends

  /** One goroutine at a time makes an offer, under `oferecendo`. */
  ghost predicate UmaOferta(s: Estado) {
    N(s, Preparando) + N(s, Terminando) == if s.oferecendo then 1 else 0
  }

  /** ... and none is being made while another is out. */
  ghost predicate UmaDeFora(s: Estado) { N(s, Preparando) > 0 ==> s.sinal != OfertaLocal }

  /** An offer about to be set that misses a sender has another to follow it. */
  ghost predicate Coberta(s: Estado, i: nat) {
    i < |s.tarefas| && s.tarefas[i].AplicarOferta? ==>
      s.remetentes == s.tarefas[i].oferta || s.fechada || s.renegociarDepois || N(s, Devendo) > 0
  }

  /** Offers and accepted answers alternate, starting with an offer. */
  predicate Alternam(eventos: seq<Evento>) {
    forall k :: 0 <= k < |eventos| ==> eventos[k] == if k % 2 == 0 then Ofertou else Respondeu
  }

  ghost predicate Historia(s: Estado) {
    && Alternam(s.eventos)
    && (s.sinal == OfertaLocal <==> |s.eventos| % 2 == 1)
  }

  ghost predicate Inv(s: Estado) {
    UmaOferta(s) && UmaDeFora(s) && Historia(s) && forall i: nat :: Coberta(s, i)
  }

  lemma {:induction false} OfertaUnica(s: Estado, a: Acao)
    requires UmaOferta(s) && Pode(s, a)
    ensures UmaOferta(Passo(s, a))
  {
    hide N;
    Contar(s, a, Preparando);
    Contar(s, a, Terminando);
  }

  lemma {:induction false} UmaDeForaMantida(s: Estado, a: Acao)
    requires UmaOferta(s) && UmaDeFora(s) && Pode(s, a)
    ensures UmaDeFora(Passo(s, a))
  {
    hide N;
    Contar(s, a, Preparando);
  }

  lemma {:induction false} CobertaMantida(s: Estado, a: Acao, i: nat)
    requires UmaOferta(s) && Coberta(s, i) && Pode(s, a)
    ensures Coberta(Passo(s, a), i)
  {
    hide N;
    Contar(s, a, Devendo);
    if i < |s.tarefas| && s.tarefas[i].AplicarOferta? { AlguemPrepara(s, i); }
  }

  lemma {:induction false} AlguemPrepara(s: Estado, i: nat)
    requires i < |s.tarefas| && (s.tarefas[i].CriarOferta? || s.tarefas[i].AplicarOferta?)
    ensures N(s, Preparando) > 0
  {
    SomaInclui(s.tarefas, i, Preparando);
  }

  lemma AlternamMais(eventos: seq<Evento>, e: Evento)
    requires Alternam(eventos) && e == if |eventos| % 2 == 0 then Ofertou else Respondeu
    ensures Alternam(eventos + [e])
  {
  }

  lemma HistoriaMantida(s: Estado, a: Acao)
    requires Historia(s) && Pode(s, a)
    ensures Historia(Passo(s, a))
  {
    hide Alternam;
    if a.Avancar? && s.tarefas[a.i].AplicarOferta? && s.sinal == Estavel {
      AlternamMais(s.eventos, Ofertou);
    } else if a.ReceberResposta? && RespostaAceita(s, a.ok) {
      AlternamMais(s.eventos, Respondeu);
    }
  }

  lemma {:induction false} InvPasso(s: Estado, a: Acao)
    requires Inv(s) && Pode(s, a)
    ensures Inv(Passo(s, a))
  {
    hide Passo, Pode, UmaOferta, UmaDeFora, Coberta, Historia;
    OfertaUnica(s, a);
    UmaDeForaMantida(s, a);
    HistoriaMantida(s, a);
    forall i: nat ensures Coberta(Passo(s, a), i) { CobertaMantida(s, a, i); }
  }

  lemma InvInicial()
    ensures Inv(INICIAL)
  {
  }

  lemma {:induction false} InvSempre(acoes: seq<Acao>)
    requires Executa(NEGOCIACAO, INICIAL, acoes)
    ensures Inv(Final(NEGOCIACAO, INICIAL, acoes))
  {
    hide Inv, Passo, Pode;
    InvInicial();
    forall s, a | Inv(s) && NEGOCIACAO.pode(s, a) ensures Inv(NEGOCIACAO.passo(s, a)) { InvPasso(s, a); }
    Sempre(NEGOCIACAO, Inv, INICIAL, acoes);
  }

  /**
   * Negotiation safety, whatever the client sends and whenever: offers set and
   * answers accepted strictly alternate, our offer is out exactly after an offer,
   * and at most one goroutine is making one.
   */
  lemma {:induction false} OfertasAlternam(acoes: seq<Acao>)
    requires Executa(NEGOCIACAO, INICIAL, acoes)
    ensures var s := Final(NEGOCIACAO, INICIAL, acoes);
            && Alternam(s.eventos)
            && (s.sinal == OfertaLocal <==> |s.eventos| % 2 == 1)
            && N(s, Preparando) + N(s, Terminando) == if s.oferecendo then 1 else 0
  {
    InvSempre(acoes);
  }

  /** An offer set and not yet announced. */
  function PorAnunciar(t: Tarefa): nat { if t.Liberar? || t.Anunciar? then 1 else 0 }

  function Ofertas(eventos: seq<Evento>): int { multiset(eventos)[Ofertou] }

  ghost function SemAnuncio(s: Estado): int { Ofertas(s.eventos) - N(s, PorAnunciar) }

  /** The step sends the offer to the client. */
  function Anuncia(s: Estado, a: Acao): int {
    if a.Avancar? && Em(s, a.i) && s.tarefas[a.i].Anunciar? then 1 else 0
  }

  lemma OfertasMais(eventos: seq<Evento>, e: Evento)
    ensures Ofertas(eventos + [e]) == Ofertas(eventos) + if e == Ofertou then 1 else 0
  {
  }

  lemma {:induction false} AnunciaPasso(s: Estado, a: Acao)
    requires Pode(s, a)
    ensures SemAnuncio(Passo(s, a)) == SemAnuncio(s) + Anuncia(s, a)
  {
    hide N, Ofertas;
    Contar(s, a, PorAnunciar);
    OfertasMais(s.eventos, Ofertou);
    OfertasMais(s.eventos, Respondeu);
  }

  /**
   * Only offers that were set are announced, and each of them once: over any run the
   * offers set are the announcements made and those that are still to come.
   */
  lemma {:induction false} CadaOfertaAnunciada(acoes: seq<Acao>)
    requires Executa(NEGOCIACAO, INICIAL, acoes)
    ensures var s := Final(NEGOCIACAO, INICIAL, acoes);
            Ofertas(s.eventos) == Quanto(NEGOCIACAO, Anuncia, INICIAL, acoes) + N(s, PorAnunciar)
  {
    var sempre := (s: Estado) => true;
    assert SemAnuncio(INICIAL) == 0;
    hide Passo, Pode, Anuncia, Ofertas, N;
    forall s, a | NEGOCIACAO.pode(s, a) ensures SemAnuncio(NEGOCIACAO.passo(s, a)) == SemAnuncio(s) + Anuncia(s, a) {
      AnunciaPasso(s, a);
    }
    QuantoMuda(NEGOCIACAO, sempre, SemAnuncio, Anuncia, INICIAL, acoes);
  }

  function Respondendo(t: Tarefa): nat { if t.Responder? then 1 else 0 }

  predicate Avanca(s: Estado, a: Acao, t: Tarefa) { a.Avancar? && Em(s, a.i) && s.tarefas[a.i] == t }

  /** A client's answer is accepted, or the goroutine that applied one takes the note. */
  function SaldoDeRespostas(s: Estado, a: Acao): int {
    (if a.ReceberResposta? && a.ok && s.sinal == OfertaLocal then 1 else 0)
    - (if Avanca(s, a, TomarPendencia) then 1 else 0)
  }

  /** A client's offer is accepted, or is answered. */
  function SaldoDeOfertas(s: Estado, a: Acao): int {
    (if a.ReceberOferta? && a.ok && s.sinal == Estavel then 1 else 0) - (if Avanca(s, a, Responder) then 1 else 0)
  }

  /** A change of senders calls for an offer, or a note that is taken does; or such a call starts. */
  function SaldoDeChamadas(s: Estado, a: Acao): int {
    (if a.Assinar? || a.Remover? || a.Reoferecer? || (Avanca(s, a, TomarPendencia) && s.renegociarDepois) then 1 else 0)
    - (if Avanca(s, a, Deve) then 1 else 0)
  }

  lemma {:induction false} SaldosDoPasso(s: Estado, a: Acao)
    requires Pode(s, a)
    ensures N(Passo(s, a), Tomando) == N(s, Tomando) + SaldoDeRespostas(s, a)
    ensures N(Passo(s, a), Respondendo) == N(s, Respondendo) + SaldoDeOfertas(s, a)
    ensures N(Passo(s, a), Devendo) == N(s, Devendo) + SaldoDeChamadas(s, a)
  {
    hide N;
    Contar(s, a, Tomando);
    Contar(s, a, Respondendo);
    Contar(s, a, Devendo);
  }

  /**
   * Nothing happens without a cause, and each cause has its effect once: over any run
   * the note is taken once for each answer accepted, each client offer accepted is
   * answered once, and oferecer is called once for Entrar, for each change of senders
   * and for each note taken, counting what is still to come.
   */
  lemma {:induction false} CadaCausaUmEfeito(acoes: seq<Acao>)
    requires Executa(NEGOCIACAO, INICIAL, acoes)
    ensures var s := Final(NEGOCIACAO, INICIAL, acoes);
            && N(s, Tomando) == Quanto(NEGOCIACAO, SaldoDeRespostas, INICIAL, acoes)
            && N(s, Respondendo) == Quanto(NEGOCIACAO, SaldoDeOfertas, INICIAL, acoes)
            && N(s, Devendo) == 1 + Quanto(NEGOCIACAO, SaldoDeChamadas, INICIAL, acoes)
  {
    var sempre := (s: Estado) => true;
    var tomando := (s: Estado) => N(s, Tomando) as int;
    var respondendo := (s: Estado) => N(s, Respondendo) as int;
    var devendo := (s: Estado) => N(s, Devendo) as int;
    assert tomando(INICIAL) == 0 && respondendo(INICIAL) == 0 && devendo(INICIAL) == 1;
    hide Passo, Pode, N, SaldoDeRespostas, SaldoDeOfertas, SaldoDeChamadas;
    forall s, a | NEGOCIACAO.pode(s, a)
      ensures tomando(NEGOCIACAO.passo(s, a)) == tomando(s) + SaldoDeRespostas(s, a)
      ensures respondendo(NEGOCIACAO.passo(s, a)) == respondendo(s) + SaldoDeOfertas(s, a)
      ensures devendo(NEGOCIACAO.passo(s, a)) == devendo(s) + SaldoDeChamadas(s, a)
    {
      SaldosDoPasso(s, a);
    }
    QuantoMuda(NEGOCIACAO, sempre, tomando, SaldoDeRespostas, INICIAL, acoes);
    QuantoMuda(NEGOCIACAO, sempre, respondendo, SaldoDeOfertas, INICIAL, acoes);
    QuantoMuda(NEGOCIACAO, sempre, devendo, SaldoDeChamadas, INICIAL, acoes);
  }

  /** An offer in the making finds the state stable. */
  ghost predicate OfertaEstavel(s: Estado) { N(s, Preparando) > 0 ==> s.sinal == Estavel }

  /** A client offer is accepted while one of ours is being made. */
  ghost predicate Cruza(s: Estado, a: Acao) {
    a.ReceberOferta? && OfertaAceita(s, a.ok) && N(s, Preparando) > 0
  }

  /**
   * SetLocalDescription of an offer runs only in the stable state if and only if no
   * client offer is accepted while one of ours is being made.
   */
  lemma {:induction false} OfertaEstavelSeESoSe(acoes: seq<Acao>)
    requires Executa(NEGOCIACAO, INICIAL, acoes)
    ensures AoLongo(NEGOCIACAO, OfertaEstavel, INICIAL, acoes) <==> NenhumPasso(NEGOCIACAO, Cruza, INICIAL, acoes)
  {
    hide Passo, Pode, UmaOferta, OfertaEstavel, Cruza;
    Comeco();
    forall s, a | UmaOferta(s) && OfertaEstavel(s) && NEGOCIACAO.pode(s, a)
      ensures OfertaEstavel(NEGOCIACAO.passo(s, a)) <==> !Cruza(s, a)
      ensures UmaOferta(NEGOCIACAO.passo(s, a))
    {
      CruzaExato(s, a);
      OfertaUnica(s, a);
    }
    AoLongoSeESoSe(NEGOCIACAO, UmaOferta, OfertaEstavel, Cruza, INICIAL, acoes);
  }

  lemma {:induction false} CruzaExato(s: Estado, a: Acao)
    requires UmaOferta(s) && OfertaEstavel(s) && Pode(s, a)
    ensures OfertaEstavel(Passo(s, a)) <==> !Cruza(s, a)
  {
    hide N;
    Contar(s, a, Preparando);
    Contar(s, a, Terminando);
  }

  lemma Comeco()
    ensures UmaOferta(INICIAL) && OfertaEstavel(INICIAL) && AvisoVivo(INICIAL)
  {
  }

  // ------------------------------------------------------------ lost wake-ups

  /** Someone is to read the note: the answer to the offer that is out, or one just accepted. */
  ghost predicate TemLeitor(s: Estado) { s.sinal == OfertaLocal || N(s, Tomando) > 0 }

  /** An offer is due, in the making, or noted with a reader to come. */
  ghost predicate OfertaPorVir(s: Estado) {
    N(s, Devendo) > 0 || N(s, Preparando) > 0 || (s.renegociarDepois && TemLeitor(s))
  }

  /** If a sender is missing from the last offer, or one in it is gone, an offer is to come. */
  ghost predicate AvisoVivo(s: Estado) { s.fechada || s.remetentes == s.ofertados || OfertaPorVir(s) }

  /** Nobody but the goroutine taking this step has an offer to make, and one is needed. */
  ghost predicate SoResta(s: Estado, devendo: nat) {
    !s.fechada && s.remetentes != s.ofertados && N(s, Devendo) == devendo
  }

  /** The last call due finds the session busy with neither an offer in the making nor a reader for its note. */
  ghost predicate AnotaSemLeitor(s: Estado, a: Acao)
    requires Pode(s, a)
  {
    && a.Avancar? && s.tarefas[a.i].Deve? && (s.oferecendo || s.sinal != Estavel)
    && SoResta(s, 1) && N(s, Preparando) == 0 && !TemLeitor(s)
  }

  /** Making an offer fails, or SetLocalDescription refuses it outside the stable state. */
  predicate Falha(s: Estado, a: Acao)
    requires Pode(s, a)
  {
    a.FalharOferta? || (a.Avancar? && s.tarefas[a.i].AplicarOferta? && s.sinal != Estavel)
  }

  /** It does, and no other call is due and no note is to be read. */
  ghost predicate OfertaPerdida(s: Estado, a: Acao)
    requires Pode(s, a)
  {
    Falha(s, a) && SoResta(s, 0) && !(s.renegociarDepois && TemLeitor(s))
  }

  ghost predicate Perde(s: Estado, a: Acao) { Pode(s, a) && (AnotaSemLeitor(s, a) || OfertaPerdida(s, a)) }

  /** One step keeps every missing sender accounted for exactly unless it is one of the two. */
  lemma {:induction false} PerdeExato(s: Estado, a: Acao)
    requires Inv(s) && AvisoVivo(s) && Pode(s, a)
    ensures AvisoVivo(Passo(s, a)) <==> !Perde(s, a)
  {
    hide N, Historia;
    Contar(s, a, Devendo);
    Contar(s, a, Preparando);
    Contar(s, a, Terminando);
    Contar(s, a, Tomando);
    if a.Avancar? { assert Coberta(s, a.i); }
  }

  /**
   * No lost wake-up, exactly: in every interleaving, whatever the client sends and
   * whenever, senders missing from the last offer have an offer to come at every
   * moment if and only if neither losing step is taken.
   */
  lemma {:induction false} AvisoPerdidoSeESoSe(acoes: seq<Acao>)
    requires Executa(NEGOCIACAO, INICIAL, acoes)
    ensures AoLongo(NEGOCIACAO, AvisoVivo, INICIAL, acoes) <==> NenhumPasso(NEGOCIACAO, Perde, INICIAL, acoes)
  {
    hide Passo, Pode, Inv, AvisoVivo, Perde;
    Comeco();
    InvInicial();
    forall s, a | Inv(s) && AvisoVivo(s) && NEGOCIACAO.pode(s, a)
      ensures AvisoVivo(NEGOCIACAO.passo(s, a)) <==> !Perde(s, a)
      ensures Inv(NEGOCIACAO.passo(s, a))
    {
      PerdeExato(s, a);
      InvPasso(s, a);
    }
    AoLongoSeESoSe(NEGOCIACAO, Inv, AvisoVivo, Perde, INICIAL, acoes);
  }

  predicate Quieta(s: Estado) {
    s.sinal == Estavel && forall i | 0 <= i < |s.tarefas| :: s.tarefas[i].Feita?
  }

  /** When every goroutine is done and the state is stable, every sender has been offered. */
  lemma {:induction false} QuietaTudoOferecido(acoes: seq<Acao>)
    requires Executa(NEGOCIACAO, INICIAL, acoes) && NenhumPasso(NEGOCIACAO, Perde, INICIAL, acoes)
    requires Quieta(Final(NEGOCIACAO, INICIAL, acoes))
    ensures var s := Final(NEGOCIACAO, INICIAL, acoes); s.fechada || s.remetentes == s.ofertados
  {
    hide Perde;
    AvisoPerdidoSeESoSe(acoes);
    AoLongoEm(NEGOCIACAO, AvisoVivo, INICIAL, acoes, |acoes|);
    assert acoes[..|acoes|] == acoes;
    InvSempre(acoes);
    TudoFeito(Final(NEGOCIACAO, INICIAL, acoes));
  }

  lemma {:induction false} TudoFeito(s: Estado)
    requires Quieta(s) && Inv(s) && AvisoVivo(s)
    ensures s.fechada || s.remetentes == s.ofertados
  {
    SomaZero(s.tarefas, Devendo);
    SomaZero(s.tarefas, Preparando);
    SomaZero(s.tarefas, Terminando);
    SomaZero(s.tarefas, Tomando);
  }

  // ----------------------------------------- guards that a caller can check

  /**
   * Nothing from the client is accepted while an offer of ours is being made, no
   * call of oferecer starts while a client offer is being answered, and making an
   * offer fails only outside the stable state.
   */
  predicate EmOrdem(s: Estado, a: Acao) {
    && Pode(s, a)
    && (a.ReceberResposta? && RespostaAceita(s, a.ok) ==> !s.oferecendo)
    && (a.ReceberOferta? && OfertaAceita(s, a.ok) ==> !s.oferecendo)
    && (a.Avancar? && s.tarefas[a.i].Deve? ==> s.sinal != OfertaRemota)
    && !a.FalharOferta?
  }

  const EM_ORDEM: Sistema<Estado, Acao> := Sistema(EmOrdem, Passo)

  /** A note has its reader, or an offer is in the making whose answer will read it. */
  ghost predicate NotaSeraLida(s: Estado) { s.renegociarDepois ==> TemLeitor(s) || N(s, Preparando) > 0 }

  /** In order, every stage of an offer knows the signalling state, and a note will be read. */
  ghost predicate Ordenada(s: Estado) {
    && UmaOferta(s)
    && (N(s, Preparando) > 0 ==> s.sinal == Estavel)
    && (N(s, Terminando) > 0 ==> s.sinal == OfertaLocal)
    && NotaSeraLida(s)
  }

  lemma {:induction false} OrdenadaMantida(s: Estado, a: Acao)
    requires Ordenada(s) && EmOrdem(s, a)
    ensures Ordenada(Passo(s, a)) && !Perde(s, a)
  {
    hide N;
    OfertaUnica(s, a);
    Contar(s, a, Preparando);
    Contar(s, a, Terminando);
    Contar(s, a, Tomando);
  }

  /**
   * Kept in order, no wake-up is lost: the losing steps never happen, senders
   * missing from the last offer have an offer to come, and a note will be read.
   */
  lemma {:induction false} NenhumAvisoPerdido(acoes: seq<Acao>)
    requires Executa(EM_ORDEM, INICIAL, acoes)
    ensures Executa(NEGOCIACAO, INICIAL, acoes) && NenhumPasso(NEGOCIACAO, Perde, INICIAL, acoes)
    ensures AoLongo(NEGOCIACAO, AvisoVivo, INICIAL, acoes)
    ensures Final(NEGOCIACAO, INICIAL, acoes) == Final(EM_ORDEM, INICIAL, acoes)
    ensures NotaSeraLida(Final(EM_ORDEM, INICIAL, acoes))
  {
    hide Passo, Pode, EmOrdem, Ordenada, Perde, AvisoVivo;
    assert Ordenada(INICIAL) by { OrdenadaNoComeco(); }
    forall s, a | Ordenada(s) && EM_ORDEM.pode(s, a)
      ensures NEGOCIACAO.pode(s, a) && Ordenada(Passo(s, a)) && !Perde(s, a)
    {
      EmOrdemPode(s, a);
      OrdenadaMantida(s, a);
    }
    GuardaEvita(NEGOCIACAO, EM_ORDEM, Ordenada, Perde, INICIAL, acoes);
    AvisoPerdidoSeESoSe(acoes);
    OrdenadaLe(Final(EM_ORDEM, INICIAL, acoes));
  }

  lemma OrdenadaNoComeco()
    ensures Ordenada(INICIAL)
  {
  }

  lemma EmOrdemPode(s: Estado, a: Acao)
    requires EmOrdem(s, a)
    ensures Pode(s, a)
  {
  }

  lemma {:induction false} OrdenadaLe(s: Estado)
    requires Ordenada(s)
    ensures NotaSeraLida(s)
  {
  }

  /** A client that sends no offers and one answer to each offer announced to it. */
  predicate SoResponde(s: Estado, a: Acao) {
    Pode(s, a) && !a.ChegaOferta? && !a.FalharOferta? && (a.ChegaResposta? ==> s.aguardando)
  }

  const SO_RESPONDE: Sistema<Estado, Acao> := Sistema(SoResponde, Passo)

  function Esperando(s: Estado): nat { N(s, EmVoo) + if s.aguardando then 1 else 0 }

  /** With such a client one offer at a time is made, announced and answered. */
  ghost predicate UmaDeCadaVez(s: Estado) {
    && Ordenada(s)
    && N(s, Preparando) + N(s, Terminando) + Esperando(s) <= 1
    && (Esperando(s) > 0 ==> s.sinal == OfertaLocal)
    && s.sinal != OfertaRemota && N(s, Remota) == 0
  }

  lemma {:induction false} UmaDeCadaVezMantida(s: Estado, a: Acao)
    requires UmaDeCadaVez(s) && SoResponde(s, a)
    ensures EmOrdem(s, a) && UmaDeCadaVez(Passo(s, a))
  {
    hide N, Perde;
    Contar(s, a, Preparando);
    Contar(s, a, Terminando);
    Contar(s, a, EmVoo);
    Contar(s, a, Remota);
    OrdenadaMantida(s, a);
  }

  /** Its runs are in order, so a session that is quiet with it has offered everything. */
  lemma {:induction false} SoRespostasTudoOferecido(acoes: seq<Acao>)
    requires Executa(SO_RESPONDE, INICIAL, acoes)
    ensures Executa(EM_ORDEM, INICIAL, acoes)
    ensures var s := Final(EM_ORDEM, INICIAL, acoes);
            Quieta(s) ==> s.fechada || s.remetentes == s.ofertados
  {
    hide Passo, Pode, EmOrdem, SoResponde, UmaDeCadaVez, Perde;
    assert UmaDeCadaVez(INICIAL) by { UmaDeCadaVezNoComeco(); }
    var nunca := (s: Estado, a: Acao) => false;
    forall s, a | UmaDeCadaVez(s) && SO_RESPONDE.pode(s, a)
      ensures EM_ORDEM.pode(s, a) && UmaDeCadaVez(Passo(s, a))
    {
      UmaDeCadaVezMantida(s, a);
    }
    GuardaEvita(EM_ORDEM, SO_RESPONDE, UmaDeCadaVez, nunca, INICIAL, acoes);
    NenhumAvisoPerdido(acoes);
    if Quieta(Final(EM_ORDEM, INICIAL, acoes)) { QuietaTudoOferecido(acoes); }
  }

  lemma UmaDeCadaVezNoComeco()
    ensures UmaDeCadaVez(INICIAL)
  {
  }

  /** An answer is accepted while an offer of ours is being made. */
  predicate CedoDemais(s: Estado, a: Acao) { a.ReceberResposta? && RespostaAceita(s, a.ok) && s.oferecendo }

  ghost predicate SemRemota(s: Estado) { s.sinal != OfertaRemota && N(s, Remota) == 0 }

  /**
   * A client that sends no offers but answers whenever it likes: nothing is lost as
   * long as no answer is accepted while `oferecendo`.
   */
  lemma {:induction false} SemRespostaCedoNadaSePerde(s: Estado, acoes: seq<Acao>)
    requires Executa(NEGOCIACAO, s, acoes) && SemRemota(s)
    requires forall k | 0 <= k < |acoes| :: !acoes[k].ChegaOferta? && !acoes[k].FalharOferta?
    requires NenhumPasso(NEGOCIACAO, CedoDemais, s, acoes)
    ensures Executa(EM_ORDEM, s, acoes)
    decreases |acoes|
  {
    if acoes != [] {
      SemRemotaMantida(s, acoes[0]);
      hide SemRemota, Pode, Passo, EmOrdem, CedoDemais;
      SemRespostaCedoNadaSePerde(Passo(s, acoes[0]), acoes[1..]);
    }
  }

  lemma {:induction false} SemRemotaMantida(s: Estado, a: Acao)
    requires Pode(s, a) && SemRemota(s) && !a.ChegaOferta? && !a.FalharOferta? && !CedoDemais(s, a)
    ensures SemRemota(Passo(s, a)) && EmOrdem(s, a)
  {
    hide N;
    Contar(s, a, Remota);
  }

  /** Once the offer was answered while it still holds `oferecendo`, the next track can be lost. */
  lemma {:induction false} NotaEmVao(s: Estado, j: nat, f: Faixa) returns (acoes: seq<Acao>)
    requires UmaOferta(s) && Em(s, j) && s.tarefas[j].Liberar? && s.oferecendo && s.sinal == Estavel && !s.fechada
    requires N(s, Devendo) == 0 && N(s, Tomando) == 0 && f !in s.remetentes + s.ofertados
    ensures Executa(NEGOCIACAO, s, acoes) && !AvisoVivo(Final(NEGOCIACAO, s, acoes))
  {
    hide N, Executa, Final;
    var n := |s.tarefas|;
    var a0, a1 := Assinar(f), Avancar(n);
    AlguemTermina(s, j);
    var s1 := Passo(s, a0);
    ContarTudo(s, a0);
    assert s1.tarefas[n] == Deve;
    var s2 := Passo(s1, a1);
    ContarTudo(s1, a1);
    Parada(s2);
    Encadear(s1, a1, []);
    Encadear(s, a0, [a1] + []);
    acoes := [a0] + ([a1] + []);
  }

  /**
   * And it must be so: from any open session where an answer can be accepted while
   * the offer it answers still holds `oferecendo`, and nothing else is due, there is
   * a run that loses a track.
   */
  lemma {:induction false} RespostaCedoPerde(s: Estado, i: nat, j: nat, f: Faixa) returns (acoes: seq<Acao>)
    requires Em(s, i) && s.tarefas[i].AplicarResposta? && Em(s, j) && s.tarefas[j].Liberar?
    requires UmaOferta(s) && s.oferecendo && s.sinal == OfertaLocal && !s.fechada && !s.renegociarDepois
    requires N(s, Devendo) == 0 && N(s, Tomando) == 0 && f !in s.remetentes + s.ofertados
    ensures acoes != [] && acoes[0] == ReceberResposta(i, true) && CedoDemais(s, acoes[0])
    ensures Executa(NEGOCIACAO, s, acoes) && !AvisoVivo(Final(NEGOCIACAO, s, acoes))
  {
    hide N, Executa, Final, UmaOferta, AvisoVivo;
    var a0, a1 := ReceberResposta(i, true), Avancar(i);
    var s1 := Passo(s, a0);
    ContarTudo(s, a0);
    OfertaUnica(s, a0);
    var s2 := Passo(s1, a1);
    ContarTudo(s1, a1);
    OfertaUnica(s1, a1);
    var resto := NotaEmVao(s2, j, f);
    Encadear(s1, a1, resto);
    Encadear(s, a0, [a1] + resto);
    acoes := [a0] + ([a1] + resto);
  }

  lemma {:induction false} AlguemTermina(s: Estado, j: nat)
    requires UmaOferta(s) && Em(s, j) && s.tarefas[j].Liberar?
    ensures N(s, Preparando) == 0
  {
    SomaInclui(s.tarefas, j, Terminando);
  }

  lemma {:induction false} ContarTudo(s: Estado, a: Acao)
    requires Pode(s, a)
    ensures var t := Passo(s, a);
            && N(t, Devendo) == N(s, Devendo) - Devendo(Sai(s, a)) + Devendo(Entra(s, a))
            && N(t, Preparando) == N(s, Preparando) - Preparando(Sai(s, a)) + Preparando(Entra(s, a))
            && N(t, Tomando) == N(s, Tomando) - Tomando(Sai(s, a)) + Tomando(Entra(s, a))
  {
    hide N, Passo, Sai, Entra;
    Contar(s, a, Devendo);
    Contar(s, a, Preparando);
    Contar(s, a, Tomando);
  }

  lemma {:induction false} Encadear(s: Estado, a: Acao, resto: seq<Acao>)
    requires Pode(s, a) && Executa(NEGOCIACAO, Passo(s, a), resto)
    ensures Executa(NEGOCIACAO, s, [a] + resto)
    ensures Final(NEGOCIACAO, s, [a] + resto) == Final(NEGOCIACAO, Passo(s, a), resto)
  {
    assert ([a] + resto)[1..] == resto;
  }

  lemma {:induction false} Parada(s: Estado)
    ensures Executa(NEGOCIACAO, s, []) && Final(NEGOCIACAO, s, []) == s
  {
  }

  // ----------------------------------------------------- the conditions, step by step

  /**
   * A call due on an open session leaves every note to be read exactly when an offer
   * is in the making or out, an answer was just accepted, or it makes the offer itself.
   */
  lemma {:induction false} NotaTemLeitor(s: Estado, i: nat)
    requires Em(s, i) && s.tarefas[i].Deve? && !s.fechada && NotaSeraLida(s)
    ensures NotaSeraLida(Passo(s, Avancar(i))) <==>
              || N(s, Preparando) > 0 || s.sinal == OfertaLocal || N(s, Tomando) > 0
              || (!s.oferecendo && s.sinal == Estavel)
  {
    hide N;
    Contar(s, Avancar(i), Preparando);
    Contar(s, Avancar(i), Tomando);
  }

  /**
   * An offer that fails or is refused is made up for exactly when nothing is missing,
   * a call is due, or a note was left that an answer just accepted is about to take.
   */
  lemma {:induction false} OfertaRecusada(s: Estado, a: Acao)
    requires Inv(s) && Pode(s, a) && Falha(s, a)
    ensures AvisoVivo(Passo(s, a)) <==>
              || s.fechada || s.remetentes == s.ofertados || N(s, Devendo) > 0
              || (s.renegociarDepois && N(s, Tomando) > 0)
  {
    hide N;
    Contar(s, a, Devendo);
    Contar(s, a, Preparando);
    Contar(s, a, Terminando);
    Contar(s, a, Tomando);
    AlguemPrepara(s, a.i);
  }

  ghost predicate Chega(s: Estado, acoes: seq<Acao>, t: Estado) {
    Executa(NEGOCIACAO, s, acoes) && Final(NEGOCIACAO, s, acoes) == t
  }

  const CRIADA: Estado :=
    INICIAL.(oferecendo := true, tarefas := [AplicarOferta({})])
  const ANUNCIADA: Estado :=
    INICIAL.(sinal := OfertaLocal, aguardando := true, tarefas := [Feita], eventos := [Ofertou])
  const RESPONDIDA: Estado :=
    ANUNCIADA.(sinal := Estavel, aguardando := false, tarefas := [Feita, Feita], eventos := [Ofertou, Respondeu])
  const CRUZADA: Estado :=
    RESPONDIDA.(sinal := OfertaRemota, tarefas := [Feita, Feita, Responder])

  lemma PrimeiraOferta()
    ensures Chega(INICIAL, [Avancar(0), Avancar(0)], CRIADA)
    ensures Chega(CRIADA, [Avancar(0), Avancar(0), Avancar(0)], ANUNCIADA)
  {
  }

  lemma PrimeiraResposta()
    ensures Chega(ANUNCIADA, [ChegaResposta, ReceberResposta(1, true), Avancar(1)], RESPONDIDA)
  {
  }

  lemma OfertaCruzada()
    ensures Chega(RESPONDIDA, [ChegaOferta, ReceberOferta(2, true)], CRUZADA)
  {
  }

  lemma NotaSemLeitor()
    ensures Chega(CRUZADA, [Assinar(7), Avancar(3), Avancar(2)],
                  RESPONDIDA.(renegociarDepois := true, remetentes := {7}, tarefas := [Feita, Feita, Feita, Feita]))
  {
  }

  /**
   * With overlap it fails: a track that arrives while a client offer is being
   * answered is noted, and nothing ever reads the note. The session ends quiet and
   * stable with a sender that was never offered.
   */
  lemma SobreposicaoEsquece() returns (acoes: seq<Acao>)
    ensures Executa(NEGOCIACAO, INICIAL, acoes)
    ensures var s := Final(NEGOCIACAO, INICIAL, acoes);
            Quieta(s) && !s.fechada && s.renegociarDepois && s.remetentes == {7} && s.ofertados == {}
  {
    hide Executa, Final, Passo, Pode;
    var a := [Avancar(0), Avancar(0)];
    var b := [Avancar(0), Avancar(0), Avancar(0)];
    var resposta := [ChegaResposta, ReceberResposta(1, true), Avancar(1)];
    var oferta := [ChegaOferta, ReceberOferta(2, true)];
    var nota := [Assinar(7), Avancar(3), Avancar(2)];
    PrimeiraOferta();
    PrimeiraResposta();
    OfertaCruzada();
    NotaSemLeitor();
    ExecutaConcat(NEGOCIACAO, INICIAL, a, b);
    ExecutaConcat(NEGOCIACAO, INICIAL, a + b, resposta);
    ExecutaConcat(NEGOCIACAO, INICIAL, a + b + resposta, oferta);
    ExecutaConcat(NEGOCIACAO, INICIAL, a + b + resposta + oferta, nota);
    acoes := a + b + resposta + oferta + nota;
  }

  const SAINDO: Estado :=
    RESPONDIDA.(sinal := OfertaLocal, oferecendo := true, tarefas := [Feita, Feita, Liberar],
                eventos := [Ofertou, Respondeu, Ofertou])
  const ADIANTADA: Estado :=
    SAINDO.(sinal := Estavel, tarefas := [Feita, Feita, Liberar, Feita],
            eventos := [Ofertou, Respondeu, Ofertou, Respondeu])

  lemma OfertaSaindo()
    ensures Chega(RESPONDIDA, [Reoferecer, Avancar(2), Avancar(2), Avancar(2)], SAINDO)
  {
  }

  lemma RespostaAdiantada()
    ensures Chega(SAINDO, [ChegaResposta, ReceberResposta(3, true), Avancar(3)], ADIANTADA)
  {
  }

  lemma NotaAbandonada()
    ensures Chega(ADIANTADA, [Assinar(7), Avancar(4), Avancar(2), Avancar(2)],
                  ADIANTADA.(oferecendo := false, renegociarDepois := true, remetentes := {7}, aguardando := true,
                             tarefas := [Feita, Feita, Feita, Feita, Feita]))
  {
  }

  /**
   * With no client offer at all it fails too, when an answer is accepted before
   * `oferecendo` is released. Here a publisher's goroutine makes the second offer, and
   * the client sends an answer that nobody asked for, the offer not being announced
   * yet: the session ends quiet and stable with a sender that was never offered.
   */
  lemma RespostaCedoEsquece() returns (acoes: seq<Acao>)
    ensures Executa(NEGOCIACAO, INICIAL, acoes)
    ensures forall k | 0 <= k < |acoes| :: !acoes[k].ChegaOferta? && !acoes[k].FalharOferta?
    ensures var s := Final(NEGOCIACAO, INICIAL, acoes);
            Quieta(s) && !s.fechada && s.renegociarDepois && s.remetentes == {7} && s.ofertados == {}
  {
    hide Executa, Final, Passo, Pode;
    var a := [Avancar(0), Avancar(0)];
    var b := [Avancar(0), Avancar(0), Avancar(0)];
    var resposta := [ChegaResposta, ReceberResposta(1, true), Avancar(1)];
    var oferta := [Reoferecer, Avancar(2), Avancar(2), Avancar(2)];
    var cedo := [ChegaResposta, ReceberResposta(3, true), Avancar(3)];
    var depois := [Assinar(7), Avancar(4), Avancar(2), Avancar(2)];
    PrimeiraOferta();
    PrimeiraResposta();
    OfertaSaindo();
    RespostaAdiantada();
    NotaAbandonada();
    ExecutaConcat(NEGOCIACAO, INICIAL, a, b);
    ExecutaConcat(NEGOCIACAO, INICIAL, a + b, resposta);
    ExecutaConcat(NEGOCIACAO, INICIAL, a + b + resposta, oferta);
    ExecutaConcat(NEGOCIACAO, INICIAL, a + b + resposta + oferta, cedo);
    ExecutaConcat(NEGOCIACAO, INICIAL, a + b + resposta + oferta + cedo, depois);
    acoes := a + b + resposta + oferta + cedo + depois;
  }

  // ------------------------------------------------------------- the code itself

  /**
   * The session's negotiation fields, the peer connection's state, and the bodies
   * that use them. `Valid` says that the object is in a state some run reaches;
   * each operation of a body is recorded as the action it performs.
   */
  class Sessao {
    var oferecendo: bool
    var renegociarDepois: bool
    var fechada: bool
    var sinal: Sinal
    var remetentes: set<Faixa>
    var descricaoLocal: set<Faixa>
    var ofertaEnviada: bool
    ghost var s: Estado
    ghost var trilha: seq<Acao>

    ghost predicate Valid()
      reads this
    {
      && s.oferecendo == oferecendo && s.renegociarDepois == renegociarDepois && s.fechada == fechada
      && s.sinal == sinal && s.remetentes == remetentes && s.ofertados == descricaoLocal
      && s.aguardando == ofertaEnviada
      && Executa(NEGOCIACAO, INICIAL, trilha) && Final(NEGOCIACAO, INICIAL, trilha) == s
    }

    constructor ()
      ensures Valid() && s == INICIAL
    {
      oferecendo, renegociarDepois, fechada, sinal := false, false, false, Estavel;
      remetentes, descricaoLocal, ofertaEnviada := {}, {}, false;
      s, trilha := INICIAL, [];
    }

    ghost method Registrar(a: Acao)
      requires Executa(NEGOCIACAO, INICIAL, trilha) && Final(NEGOCIACAO, INICIAL, trilha) == s && Pode(s, a)
      modifies this`s, this`trilha
      ensures Executa(NEGOCIACAO, INICIAL, trilha) && Final(NEGOCIACAO, INICIAL, trilha) == s
      ensures s == Aplicar(old(s), a) && trilha == old(trilha) + [a]
    {
      hide Pode, Aplicar;
      ExecutaConcat(NEGOCIACAO, INICIAL, trilha, [a]);
      s, trilha := Passo(s, a), trilha + [a];
    }

    /**
     * A due call, run without interruption: nothing on a closed session, a note
     * when an offer is out or being made, and otherwise an offer of exactly the
     * present senders.
     */
    method Oferecer(ghost i: nat)
      requires Valid() && Em(s, i) && s.tarefas[i].Deve?
      modifies this
      ensures Valid() && s.tarefas == old(s).tarefas[i := Feita]
      ensures remetentes == old(remetentes) && fechada == old(fechada) && oferecendo == old(oferecendo)
      ensures var ocupada := old(oferecendo) || old(sinal) != Estavel;
              && renegociarDepois == (old(renegociarDepois) || (!fechada && ocupada))
              && (fechada || ocupada ==>
                    sinal == old(sinal) && descricaoLocal == old(descricaoLocal)
                    && ofertaEnviada == old(ofertaEnviada))
              && (!fechada && !ocupada ==>
                    sinal == OfertaLocal && descricaoLocal == remetentes && ofertaEnviada)
    {
      hide Executa, Final;
      Registrar(Avancar(i));
      if fechada { return; }
      if oferecendo || sinal != Estavel {
        renegociarDepois := true;
        return;
      }
      oferecendo := true;
      FazerOferta(i);
      ofertaEnviada := true;
      Registrar(Avancar(i));
    }

    /** Create the offer, set it locally and release the mark. */
    method FazerOferta(ghost i: nat)
      requires Valid() && Em(s, i) && s.tarefas[i].CriarOferta? && oferecendo && sinal == Estavel
      modifies this
      ensures Valid() && s.tarefas == old(s).tarefas[i := Anunciar]
      ensures !oferecendo && sinal == OfertaLocal && descricaoLocal == remetentes
      ensures remetentes == old(remetentes) && fechada == old(fechada)
      ensures renegociarDepois == old(renegociarDepois) && ofertaEnviada == old(ofertaEnviada)
    {
      hide Executa, Final;
      var oferta := remetentes;
      Registrar(Avancar(i));
      sinal, descricaoLocal := OfertaLocal, oferta;
      Registrar(Avancar(i));
      oferecendo := false;
      Registrar(Avancar(i));
    }

    /**
     * A client's answer, whenever it comes: once accepted, a noted renegotiation goes
     * out at once with every sender there is, unless an offer is still being made, and
     * then it is noted again.
     */
    method DescricaoResposta(aceita: bool)
      requires Valid()
      modifies this
      ensures Valid() && remetentes == old(remetentes) && fechada == old(fechada) && oferecendo == old(oferecendo)
      ensures var ok := aceita && old(sinal) == OfertaLocal;
              var oferece := old(renegociarDepois) && !fechada;
              && (!ok ==> sinal == old(sinal) && renegociarDepois == old(renegociarDepois)
                          && descricaoLocal == old(descricaoLocal))
              && (ok && oferece && !oferecendo ==>
                    sinal == OfertaLocal && descricaoLocal == remetentes && !renegociarDepois)
              && (ok && !(oferece && !oferecendo) ==>
                    sinal == Estavel && descricaoLocal == old(descricaoLocal) && renegociarDepois == oferece)
    {
      hide Executa, Final;
      ghost var i := |s.tarefas|;
      ofertaEnviada := false;
      Registrar(ChegaResposta);
      Registrar(ReceberResposta(i, aceita));
      if !aceita || sinal != OfertaLocal { return; }
      sinal := Estavel;
      var pendente := TomarPendencia(i);
      if pendente { Oferecer(i); }
    }

    /** The note is taken and cleared; whoever took it has an offer due. */
    method TomarPendencia(ghost i: nat) returns (pendente: bool)
      requires Em(s, i) && s.tarefas[i].TomarPendencia?
      requires Valid()
      modifies this`renegociarDepois, this`s, this`trilha
      ensures Valid() && pendente == old(renegociarDepois) && !renegociarDepois
      ensures Em(s, i) && (pendente ==> s.tarefas[i].Deve?)
    {
      hide Executa, Final;
      pendente := renegociarDepois;
      renegociarDepois := false;
      Registrar(Avancar(i));
    }
  }
}
