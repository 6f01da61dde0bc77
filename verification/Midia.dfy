/**
 * Subscription and negotiation together. A subscription is an entry in `saidas`,
 * written under the session's lock, and after it a sender on the session's peer
 * connection, added by the same goroutine; an offer carries the senders. Each
 * session of Subscription has a negotiation of its own here, and a goroutine does
 * to the peer connection what its last step on the maps calls for before its next.
 */
module Midia {
  import opened Runs
  import S = Subscription
  import N = Negotiation

  /** What a goroutine of Subscription has to do to a peer connection next. */
  datatype Apos =
    | Nada
    | Acrescentar(sessao: nat, faixa: nat)   // AddTransceiverFromTrack, then an offer
    | Tirar(sessao: nat, faixa: nat)         // RemoveTrack and an offer, if the track has a sender there
    | SoOferecer(sessao: nat)                // assinar did nothing; aoReceberFaixa offers all the same

  datatype Estado = Estado(sub: S.Estado, negs: seq<N.Estado>, apos: seq<Apos>)

  const INICIAL: Estado := Estado(S.INICIAL, [], [])

  datatype Acao =
    | Sub(a: S.Acao)
    | Seguir(i: nat)            // goroutine i does what it has to do to the peer connection
    | Neg(k: nat, b: N.Acao)    // a step of session k's negotiation

  /** The action moves a goroutine of Subscription that is already there. */
  predicate Anda(a: S.Acao) {
    a.InscreverUma? || a.DistribuirUm? || a.RemoverFaixa? || a.RetirarDe? || a.MarcarFechada?
  }

  /** Entrar has subscribed session k to all that it listed, so its own offer comes next. */
  predicate EntrarTerminou(s: Estado, k: nat) {
    forall i | 0 <= i < |s.sub.tarefas| && i < |s.apos| ::
      s.sub.tarefas[i].Inscrever? && s.sub.tarefas[i].sessao == k ==> s.sub.tarefas[i].faixas == [] && s.apos[i].Nada?
  }

  /** What goroutine i does to the negotiation; Entrar's offer is still due when it adds a sender. */
  function Pedido(s: Estado, i: nat): N.Acao
    requires i < |s.apos| && i < |s.sub.tarefas| && !s.apos[i].Nada?
  {
    match s.apos[i]
    case Acrescentar(_, f) => if s.sub.tarefas[i].Inscrever? then N.AssinarMais(0, f) else N.Assinar(f)
    case Tirar(_, f) => N.Remover(f)
    case _ => N.Reoferecer
  }

  predicate Pode(s: Estado, a: Acao) {
    match a
    case Sub(b) =>
      && S.Pode(s.sub, b)
      && (Anda(b) ==> b.i < |s.apos| && s.apos[b.i].Nada?)
      && (b.MarcarFechada? ==> s.sub.tarefas[b.i].sessao < |s.negs|)
    case Seguir(i) =>
      && i < |s.apos| && i < |s.sub.tarefas| && !s.apos[i].Nada?
      && s.apos[i].sessao < |s.negs| && N.Pode(s.negs[s.apos[i].sessao], Pedido(s, i))
    case Neg(k, b) =>
      && k < |s.negs| && N.Pode(s.negs[k], b)
      && !b.Assinar? && !b.AssinarMais? && !b.Remover? && !b.Reoferecer? && !b.MarcarFechada?
      && (b == N.Avancar(0) && s.negs[k].tarefas[0].Deve? ==> EntrarTerminou(s, k))
  }

  /** assinar enters the track. */
  predicate Assina(s: S.Estado, b: S.Acao)
    requires S.Pode(s, b) && (b.InscreverUma? || b.DistribuirUm?)
  {
    var k, f := S.SessaoDoPasso(s, b), S.FaixaDoPasso(s, b);
    && (b.InscreverUma? ==> s.criadas[f].dono != s.sessoes[k].peer)
    && !s.sessoes[k].fechada && s.criadas[f].chave !in s.sessoes[k].saidas
  }

  /** What a step on the maps calls for. */
  function Depois(s: S.Estado, b: S.Acao): Apos
    requires S.Pode(s, b)
  {
    if b.InscreverUma? || b.DistribuirUm? then
      if Assina(s, b) then Acrescentar(S.SessaoDoPasso(s, b), S.FaixaDoPasso(s, b))
      else if b.DistribuirUm? then SoOferecer(b.sessao)
      else Nada
    else if b.RetirarDe? then Tirar(b.sessao, S.FaixaDoPasso(s, b))
    else Nada
  }

  /** A step on the maps moves a goroutine, or starts one with nothing to do yet. */
  function Apos1(s: Estado, b: S.Acao): seq<Apos>
    requires Pode(s, Sub(b))
  {
    if Anda(b) then s.apos[b.i := Depois(s.sub, b)]
    else if |S.Passo(s.sub, b).tarefas| > |s.sub.tarefas| then s.apos + [Nada]
    else s.apos
  }

  /** A session comes with its negotiation, and is closed with it. */
  function Negs1(s: Estado, b: S.Acao): seq<N.Estado>
    requires Pode(s, Sub(b))
  {
    if b.Entrar? then s.negs + [N.INICIAL]
    else if b.MarcarFechada? then
      var k := s.sub.tarefas[b.i].sessao;
      s.negs[k := N.Passo(s.negs[k], N.MarcarFechada)]
    else s.negs
  }

  /** The negotiation that goroutine i works on, after it. */
  function Neg1(s: Estado, i: nat): N.Estado
    requires Pode(s, Seguir(i))
  {
    var n := s.negs[s.apos[i].sessao];
    if s.apos[i].Tirar? && s.apos[i].faixa !in n.remetentes then n else N.Passo(n, Pedido(s, i))
  }

  function Aplicar(s: Estado, a: Acao): Estado
    requires Pode(s, a)
  {
    match a
    case Sub(b) => Estado(S.Passo(s.sub, b), Negs1(s, b), Apos1(s, b))
    case Seguir(i) => s.(negs := s.negs[s.apos[i].sessao := Neg1(s, i)], apos := s.apos[i := Nada])
    case Neg(k, b) => s.(negs := s.negs[k := N.Passo(s.negs[k], b)])
  }

  function Passo(s: Estado, a: Acao): Estado { if Pode(s, a) then Aplicar(s, a) else s }

  /** Every interleaving, whatever ids are announced and whatever the clients send. */
  const MIDIA: Sistema<Estado, Acao> := Sistema(Pode, Passo)

  // ------------------------------------------------------- what every step keeps

  /** The track is another owner's, in the session's room. */
  predicate Alheia(s: S.Estado, k: nat, f: nat) {
    && k < |s.sessoes| && f < |s.criadas|
    && s.criadas[f].sala == s.sessoes[k].sala && s.criadas[f].dono != s.sessoes[k].peer
  }

  /** Each session has a negotiation that is closed with it, and each goroutine a place in `apos`. */
  ghost predicate Pareados(s: Estado) {
    && |s.negs| == |s.sub.sessoes| && |s.apos| == |s.sub.tarefas|
    && forall k | 0 <= k < |s.negs| :: s.negs[k].fechada == s.sub.sessoes[k].fechada
  }

  ghost predicate Negociam(s: Estado) { forall k | 0 <= k < |s.negs| :: N.Inv(s.negs[k]) }

  /** What goroutine i has to do fits where it stands, and while Entrar is at work its offer is due. */
  ghost predicate AposVale(s: Estado, i: nat) {
    i < |s.apos| && i < |s.sub.tarefas| ==>
      var t, p := s.sub.tarefas[i], s.apos[i];
      && (p.Acrescentar? ==>
            Alheia(s.sub, p.sessao, p.faixa) && (t.Distribuir? || (t.Inscrever? && t.sessao == p.sessao)))
      && (p.Tirar? ==> p.sessao < |s.negs| && t.Retirar? && t.faixa == p.faixa)
      && (p.SoOferecer? ==> p.sessao < |s.negs| && t.Distribuir?)
      && (t.Distribuir? ==> forall k | k in t.destinos :: Alheia(s.sub, k, t.faixa))
      && (t.Inscrever? && (t.faixas != [] || !p.Nada?) ==>
            t.sessao < |s.negs| && N.Em(s.negs[t.sessao], 0) && s.negs[t.sessao].tarefas[0].Deve?)
  }

  /** Goroutine i is about to add the track to the session's senders. */
  ghost predicate ACaminho(s: Estado, k: nat, f: nat) {
    exists i :: 0 <= i < |s.apos| && s.apos[i] == Acrescentar(k, f)
  }

  /** What still waits for its goroutine has no sender yet and none about to be added. */
  ghost predicate Fresca(s: Estado, k: nat, f: nat) {
    S.Esperando(s.sub, k, f) ==> !ACaminho(s, k, f) && (k < |s.negs| ==> f !in s.negs[k].remetentes)
  }

  /** The negotiation deals in the track. */
  ghost predicate Leva(n: N.Estado, f: nat) {
    || f in n.remetentes || f in n.ofertados
    || exists i :: 0 <= i < |n.tarefas| && n.tarefas[i].AplicarOferta? && f in n.tarefas[i].oferta
  }

  ghost predicate SoAlheias(s: Estado, k: nat) {
    k < |s.negs| ==> forall f: nat | Leva(s.negs[k], f) :: Alheia(s.sub, k, f)
  }

  ghost predicate Inv(s: Estado) {
    && S.Base(s.sub) && Pareados(s) && Negociam(s)
    && (forall i: nat :: AposVale(s, i))
    && (forall k: nat, f: nat :: Fresca(s, k, f))
    && (forall k: nat :: SoAlheias(s, k))
  }

  // ------------------------------------------------- one negotiation at a time

  datatype Efeito = Nenhum | Faz(b: N.Acao)

  /** What an action does to the negotiation of session k. */
  function NaNeg(s: Estado, a: Acao, k: nat): Efeito
    requires Pode(s, a)
  {
    match a
    case Sub(b) => if b.MarcarFechada? && s.sub.tarefas[b.i].sessao == k then Faz(N.MarcarFechada) else Nenhum
    case Seguir(i) =>
      var p := s.apos[i];
      if p.sessao != k || (p.Tirar? && p.faixa !in s.negs[k].remetentes) then Nenhum else Faz(Pedido(s, i))
    case Neg(j, b) => if j == k then Faz(b) else Nenhum
  }

  lemma NegDepois(s: Estado, a: Acao, k: nat)
    requires Pode(s, a)
    ensures |Passo(s, a).negs| == |s.negs| + if a.Sub? && a.a.Entrar? then 1 else 0
    ensures k < |s.negs| ==>
              var e := NaNeg(s, a, k);
              Passo(s, a).negs[k] == if e.Nenhum? then s.negs[k] else N.Passo(s.negs[k], e.b)
    ensures k < |s.negs| && NaNeg(s, a, k).Faz? ==> N.Pode(s.negs[k], NaNeg(s, a, k).b)
    ensures |s.negs| <= k < |Passo(s, a).negs| ==> Passo(s, a).negs[k] == N.INICIAL
  {
    hide N.Passo, S.Passo, EntrarTerminou;
  }

  lemma NegociamMantido(s: Estado, a: Acao)
    requires Negociam(s) && Pode(s, a)
    ensures Negociam(Passo(s, a))
  {
    hide Passo, Pode, NaNeg, N.Passo, N.Pode, N.Inv;
    var t := Passo(s, a);
    forall k | 0 <= k < |t.negs| ensures N.Inv(t.negs[k]) {
      NegDepois(s, a, k);
      if k == |s.negs| {
        N.InvInicial();
      } else if NaNeg(s, a, k).Faz? {
        N.InvPasso(s.negs[k], NaNeg(s, a, k).b);
      }
    }
  }

  lemma SoMarcarFecha(n: N.Estado, b: N.Acao)
    requires N.Pode(n, b)
    ensures N.Passo(n, b).fechada == (n.fechada || b.MarcarFechada?)
  {
    hide N.Proxima, N.Tarefas1;
  }

  lemma MarcarNaNeg(s: Estado, a: Acao, k: nat)
    requires Pode(s, a)
    ensures NaNeg(s, a, k) == Faz(N.MarcarFechada) <==>
              a.Sub? && a.a.MarcarFechada? && s.sub.tarefas[a.a.i].sessao == k
  {
    hide N.Pode, EntrarTerminou;
  }

  /** Sessions are closed by MarcarFechada alone. */
  lemma FechadaDepois(s: S.Estado, b: S.Acao, k: nat)
    requires S.Pode(s, b)
    ensures |S.Passo(s, b).sessoes| == |s.sessoes| + if b.Entrar? then 1 else 0
    ensures k < |s.sessoes| ==>
              S.Passo(s, b).sessoes[k].fechada ==
                (s.sessoes[k].fechada || (b.MarcarFechada? && s.tarefas[b.i].sessao == k))
    ensures |s.sessoes| <= k < |S.Passo(s, b).sessoes| ==> !S.Passo(s, b).sessoes[k].fechada
  {
    hide S.DaSala, S.Destinos, S.SemFaixa;
  }

  lemma PareadosMantidos(s: Estado, a: Acao)
    requires Pareados(s) && Pode(s, a)
    ensures Pareados(Passo(s, a))
  {
    hide NaNeg, N.Passo, N.Pode, S.Passo, S.Pode, EntrarTerminou, Apos1, Negs1, Neg1;
    var t := Passo(s, a);
    TantosApos(s, a);
    if a.Sub? { FechadaDepois(s.sub, a.a, 0); }
    NegDepois(s, a, 0);
    forall k | 0 <= k < |t.negs| ensures k < |t.sub.sessoes| && t.negs[k].fechada == t.sub.sessoes[k].fechada {
      NegDepois(s, a, k);
      MarcarNaNeg(s, a, k);
      if a.Sub? { FechadaDepois(s.sub, a.a, k); }
      if k < |s.negs| && NaNeg(s, a, k).Faz? { SoMarcarFecha(s.negs[k], NaNeg(s, a, k).b); }
    }
  }

  lemma TantosApos(s: Estado, a: Acao)
    requires |s.apos| == |s.sub.tarefas| && Pode(s, a)
    ensures |Passo(s, a).apos| == |Passo(s, a).sub.tarefas|
  {
    hide N.Pode, N.Passo, S.DaSala, S.Destinos, S.SemFaixa, Depois, EntrarTerminou;
  }

  // ---------------------------------------- what goroutines have to do next

  lemma AlheiaFica(s: S.Estado, b: S.Acao, k: nat, f: nat)
    requires S.Pode(s, b) && Alheia(s, k, f)
    ensures Alheia(S.Passo(s, b), k, f)
  {
    hide S.Passo, S.Pode;
    S.SoCresce(s, b);
  }

  /** An offer due stays due until its goroutine moves. */
  lemma DeveFica(n: N.Estado, b: N.Acao)
    requires N.Pode(n, b) && N.Em(n, 0) && n.tarefas[0].Deve? && b != N.Avancar(0)
    ensures N.Em(N.Passo(n, b), 0) && N.Passo(n, b).tarefas[0].Deve?
  {
    hide N.Sessao1, N.Entra;
  }

  /** While Entrar is at work on session k its own offer is due, and no step takes that away. */
  lemma EntrarDeve(s: Estado, a: Acao, i: nat, k: nat)
    requires Pode(s, a) && AposVale(s, i) && k < |s.negs|
    requires i < |s.apos| && i < |s.sub.tarefas| && s.sub.tarefas[i].Inscrever? && s.sub.tarefas[i].sessao == k
    requires s.sub.tarefas[i].faixas != [] || !s.apos[i].Nada?
    ensures k < |Passo(s, a).negs| && N.Em(Passo(s, a).negs[k], 0) && Passo(s, a).negs[k].tarefas[0].Deve?
  {
    hide N.Passo, N.Pode, S.Passo, S.Pode, Alheia;
    NegDepois(s, a, k);
    if NaNeg(s, a, k).Faz? { DeveFica(s.negs[k], NaNeg(s, a, k).b); }
  }

  /** Goroutines that neither move nor are new. */
  lemma AposFica(s: Estado, a: Acao, i: nat)
    requires Pareados(s) && Pode(s, a) && AposVale(s, i) && i < |s.apos|
    requires i < |Passo(s, a).apos| && i < |Passo(s, a).sub.tarefas|
    requires Passo(s, a).apos[i] == s.apos[i] && Passo(s, a).sub.tarefas[i] == s.sub.tarefas[i]
    ensures AposVale(Passo(s, a), i)
  {
    hide Passo, Pode, Alheia, N.Pode;
    var u := Passo(s, a);
    var t, p := s.sub.tarefas[i], s.apos[i];
    NegDepois(s, a, 0);
    AlheiasFicam(s, a);
    if t.Inscrever? && (t.faixas != [] || !p.Nada?) { EntrarDeve(s, a, i, t.sessao); }
  }

  lemma AlheiasFicam(s: Estado, a: Acao)
    requires Pode(s, a)
    ensures forall k, f | Alheia(s.sub, k, f) :: Alheia(Passo(s, a).sub, k, f)
  {
    hide Alheia, N.Pode, N.Passo, S.Pode, S.Passo, NaNeg, EntrarTerminou, Negs1, Neg1, Apos1;
    if a.Sub? {
      forall k, f | Alheia(s.sub, k, f) ensures Alheia(Passo(s, a).sub, k, f) { AlheiaFica(s.sub, a.a, k, f); }
    }
  }

  /** A subscribing step leaves the sender to add, and the snapshot that is left is still of others' tracks. */
  lemma AposInscreve(s: Estado, b: S.Acao)
    requires b.InscreverUma? || b.DistribuirUm?
    requires Pareados(s) && S.Base(s.sub) && Pode(s, Sub(b)) && AposVale(s, b.i)
    ensures AposVale(Passo(s, Sub(b)), b.i)
  {
    hide S.Mapas, S.UmaEspera, S.EsperaNaoInscrita, S.SaidasDaSala, S.Assinar, N.Pode, N.Passo;
    assert S.Referencia(s.sub, s.sub.tarefas[b.i]);
    AlheiasFicam(s, Sub(b));
    if b.InscreverUma? { EntrarDeve(s, Sub(b), b.i, s.sub.tarefas[b.i].sessao); }
  }

  lemma AposRetira(s: Estado, b: S.Acao)
    requires b.RemoverFaixa? || b.RetirarDe? || b.MarcarFechada?
    requires Pareados(s) && Pode(s, Sub(b)) && AposVale(s, b.i)
    ensures AposVale(Passo(s, Sub(b)), b.i)
  {
    hide S.Destinos, S.DaSala, S.SemFaixa, N.Pode, N.Passo;
  }

  lemma AposSegue(s: Estado, i: nat)
    requires Pareados(s) && Pode(s, Seguir(i)) && AposVale(s, i)
    ensures AposVale(Passo(s, Seguir(i)), i)
  {
    hide N.Pode, N.Passo, Neg1;
    if s.sub.tarefas[i].Inscrever? { EntrarDeve(s, Seguir(i), i, s.sub.tarefas[i].sessao); }
  }

  /** A goroutine that starts: the others in the room are given the track, or Entrar's offer is due. */
  lemma AposComeca(s: Estado, b: S.Acao, i: nat)
    requires Pareados(s) && S.Base(s.sub) && Pode(s, Sub(b)) && !Anda(b)
    requires i == |s.apos| && i < |Passo(s, Sub(b)).apos|
    ensures AposVale(Passo(s, Sub(b)), i)
  {
    hide S.Referencias, S.UmaEspera, S.EsperaNaoInscrita, S.SaidasDaSala, S.SemFaixa, S.SemRepetir, N.Pode, N.Passo;
  }

  lemma SoAndaUma(s: Estado, a: Acao, i: nat)
    requires Pareados(s) && Pode(s, a) && i < |s.apos|
    requires !(a.Sub? && Anda(a.a) && a.a.i == i) && !(a.Seguir? && a.i == i)
    ensures i < |Passo(s, a).apos| && i < |Passo(s, a).sub.tarefas|
    ensures Passo(s, a).apos[i] == s.apos[i] && Passo(s, a).sub.tarefas[i] == s.sub.tarefas[i]
  {
    hide S.Destinos, S.DaSala, S.SemFaixa, N.Pode, N.Passo, EntrarTerminou, Negs1, Neg1, Depois;
  }

  lemma AposMantido(s: Estado, a: Acao, i: nat)
    requires Pareados(s) && S.Base(s.sub) && Pode(s, a) && AposVale(s, i)
    ensures AposVale(Passo(s, a), i)
  {
    hide Passo, Pode, AposVale, S.Base;
    TantosApos(s, a);
    if i < |s.apos| {
      if a.Sub? && Anda(a.a) && a.a.i == i {
        if a.a.InscreverUma? || a.a.DistribuirUm? { AposInscreve(s, a.a); } else { AposRetira(s, a.a); }
      } else if a.Seguir? && a.i == i {
        AposSegue(s, i);
      } else {
        SoAndaUma(s, a, i);
        AposFica(s, a, i);
      }
    } else {
      AposAlem(s, a, i);
    }
  }

  lemma AposAlem(s: Estado, a: Acao, i: nat)
    requires Pareados(s) && S.Base(s.sub) && Pode(s, a) && |s.apos| <= i
    ensures AposVale(Passo(s, a), i)
  {
    hide S.Base, S.Passo, S.Pode, N.Pode, N.Passo, EntrarTerminou, Negs1, Neg1, Depois;
    if i < |Passo(s, a).apos| { AposComeca(s, a.a, i); }
  }
}
