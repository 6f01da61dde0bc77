/**
 * What the machine of Midia promises over whole runs: only tracks of others in the
 * room are offered, none is lost on its way but by certain steps, and the guards of
 * Subscription and Negotiation rule those out.
 */
module MidiaResultados {
  import opened Runs
  import opened Midia
  import opened MidiaInvariante
  import S = Subscription
  import N = Negotiation

  // ----------------------------------------------- exactly which steps lose a track

  /** A live track of another owner waits in a goroutine, is about to get a sender, or has one. */
  ghost predicate Encaminhada(s: Estado, k: nat, f: nat) {
    S.Par(s.sub, k, f) ==>
      S.Esperando(s.sub, k, f) || ACaminho(s, k, f) || (k < |s.negs| && f in s.negs[k].remetentes)
  }

  ghost predicate TodasEncaminhadas(s: Estado) { forall k: nat, f: nat :: Encaminhada(s, k, f) }

  ghost predicate Avisados(s: Estado) { forall k | 0 <= k < |s.negs| :: N.AvisoVivo(s.negs[k]) }

  /** And each session whose senders are not those last offered has an offer to come. */
  ghost predicate NadaPerdido(s: Estado) { TodasEncaminhadas(s) && Avisados(s) }

  /** assinar finds the id of such a track taken, or the negotiation takes a losing step. */
  ghost predicate Perde(s: Estado, a: Acao) {
    Pode(s, a) && ((a.Sub? && S.Recusa(s.sub, a.a)) || (a.Neg? && N.Perde(s.negs[a.k], a.b)))
  }

  lemma AvisadosExato(s: Estado, a: Acao)
    requires Negociam(s) && Avisados(s) && Pode(s, a)
    ensures Avisados(Passo(s, a)) <==> !(a.Neg? && N.Perde(s.negs[a.k], a.b))
  {
    hide Passo, S.Pode, EntrarTerminou, N.Passo, N.Pode, N.Inv, N.AvisoVivo, N.Perde;
    var t := Passo(s, a);
    forall k | 0 <= k < |t.negs|
      ensures N.AvisoVivo(t.negs[k]) <==> !(a.Neg? && a.k == k && N.Perde(s.negs[k], a.b))
    {
      NegDepois(s, a, k);
      if k == |s.negs| {
        N.Comeco();
      } else if NaNeg(s, a, k).Faz? {
        N.PerdeExato(s.negs[k], NaNeg(s, a, k).b);
        if !a.Neg? { SoNegPerde(s, a, k); }
      }
    }
    if a.Neg? { NegDepois(s, a, a.k); }
  }

  lemma SoNegPerde(s: Estado, a: Acao, k: nat)
    requires Pode(s, a) && k < |s.negs| && NaNeg(s, a, k).Faz? && !a.Neg?
    ensures !N.Perde(s.negs[k], NaNeg(s, a, k).b)
  {
    hide S.Pode, EntrarTerminou, N.SoResta, N.TemLeitor;
  }

  lemma EncaminhadaFica(s: Estado, a: Acao, k: nat, f: nat)
    requires Inv(s) && Pode(s, a) && Encaminhada(s, k, f) && !(a.Sub? && S.Recusa(s.sub, a.a))
    ensures Encaminhada(Passo(s, a), k, f)
  {
    hide Passo, S.Pode, S.Passo, S.Base, S.Par, S.Esperando, S.Recusa, ACaminho, AposVale, Fresca, SoAlheias, Negociam;
    hide N.Pode, EntrarTerminou;
    if S.Par(Passo(s, a).sub, k, f) {
      ParVem(s, a, k, f);
      if S.Par(s.sub, k, f) {
        if S.Esperando(s.sub, k, f) {
          EsperaSegue(s, a, k, f);
        } else if ACaminho(s, k, f) {
          CaminhoSegue(s, a, k, f);
        } else {
          SenderFica(s, a, k, f);
        }
      }
    }
  }

  lemma ParVem(s: Estado, a: Acao, k: nat, f: nat)
    requires S.Base(s.sub) && Pode(s, a) && S.Par(Passo(s, a).sub, k, f)
    ensures S.Par(s.sub, k, f) || S.Esperando(Passo(s, a).sub, k, f)
  {
    hide S.Pode, S.Passo, S.Par, S.Esperando, S.Mapas, N.Pode, N.Passo, EntrarTerminou, Negs1, Neg1, Apos1;
    if a.Sub? { S.ParAntes(s.sub, a.a, k, f); }
  }

  /** A pair that waits goes on waiting, or is entered and its sender comes next. */
  lemma EsperaSegue(s: Estado, a: Acao, k: nat, f: nat)
    requires Inv(s) && Pode(s, a) && S.Par(s.sub, k, f) && S.Esperando(s.sub, k, f)
    requires !(a.Sub? && S.Recusa(s.sub, a.a))
    ensures S.Esperando(Passo(s, a).sub, k, f) || ACaminho(Passo(s, a), k, f)
  {
    hide S.Pode, S.Passo, S.Par, S.Pendente, S.Mapas, S.SaidasDaSala, S.UmaEspera, S.EsperaNaoInscrita, S.Recusa;
    hide N.Pode, N.Passo, EntrarTerminou, Negs1, Neg1, Apos1, AposVale, Fresca, SoAlheias, Negociam;
    var i :| 0 <= i < |s.sub.tarefas| && S.Pendente(s.sub.tarefas[i], k, f);
    if a.Sub? {
      S.PendenteDepois(s.sub, a.a, i, k, f);
      if S.Trata(s.sub, a.a, k, f) && a.a.i == i { EntraNoCaminho(s, a.a, k, f); }
    }
  }

  lemma EntraNoCaminho(s: Estado, b: S.Acao, k: nat, f: nat)
    requires Inv(s) && Pode(s, Sub(b)) && S.Par(s.sub, k, f) && S.Trata(s.sub, b, k, f) && !S.Recusa(s.sub, b)
    ensures ACaminho(Passo(s, Sub(b)), k, f)
  {
    hide S.Passo, S.NoAr, S.Referencias, S.SaidasDaSala, S.UmaEspera, S.EsperaNaoInscrita;
    hide N.Pode, N.Passo, EntrarTerminou, Negs1, Neg1, AposVale, Fresca, SoAlheias, Negociam;
    assert Assina(s.sub, b);
    assert Passo(s, Sub(b)).apos[b.i] == Acrescentar(k, f);
  }

  lemma CaminhoSegue(s: Estado, a: Acao, k: nat, f: nat)
    requires Inv(s) && Pode(s, a) && ACaminho(s, k, f)
    ensures ACaminho(Passo(s, a), k, f) || (k < |Passo(s, a).negs| && f in Passo(s, a).negs[k].remetentes)
  {
    hide Passo, S.Pode, S.Base, N.Pode, EntrarTerminou, ACaminho, Fresca, SoAlheias, Negociam, AposVale;
    ACaminhoDepois(s, a, k, f);
    AcrescentaAlheia(s, k, f);
    RemetentesDepois(s, a, k);
  }

  /** The senders of live tracks stay: only a track off the air is removed. */
  lemma SenderFica(s: Estado, a: Acao, k: nat, f: nat)
    requires Inv(s) && Pode(s, a) && S.Par(s.sub, k, f) && k < |s.negs| && f in s.negs[k].remetentes
    ensures k < |Passo(s, a).negs| && f in Passo(s, a).negs[k].remetentes
  {
    hide Passo, S.Pode, S.Mapas, S.SaidasDaSala, S.UmaEspera, S.EsperaNaoInscrita;
    hide N.Pode, EntrarTerminou, Fresca, SoAlheias, Negociam;
    RemetentesDepois(s, a, k);
    if a.Seguir? && s.apos[a.i].Tirar? {
      assert AposVale(s, a.i);
      assert S.Referencia(s.sub, s.sub.tarefas[a.i]);
    }
  }

  /** A track refused for its id is neither waiting, nor about to have a sender, nor has one. */
  lemma RecusaPerde(s: Estado, b: S.Acao)
    requires Inv(s) && Pode(s, Sub(b)) && S.Recusa(s.sub, b)
    ensures !TodasEncaminhadas(Passo(s, Sub(b)))
  {
    hide Passo, S.Passo, S.Base, S.Pendente, S.Par, S.Trata, AposVale, SoAlheias, Negociam, ACaminho, S.Esperando;
    hide N.Pode, EntrarTerminou;
    var k, f := S.SessaoDoPasso(s.sub, b), S.FaixaDoPasso(s.sub, b);
    RecusadaEspera(s.sub, b, k, f);
    assert Fresca(s, k, f);
    SubDepois(s, b);
    S.ParFica(s.sub, b, k, f);
    S.RecusaPerde(s.sub, b, k, f);
    NaoEspera(S.Passo(s.sub, b), k, f);
    if ACaminho(Passo(s, Sub(b)), k, f) { ACaminhoAntes(s, Sub(b), k, f); }
    RemetentesDepois(s, Sub(b), k);
    assert !Encaminhada(Passo(s, Sub(b)), k, f);
  }

  lemma RecusadaEspera(s: S.Estado, b: S.Acao, k: nat, f: nat)
    requires S.Pode(s, b) && S.Recusa(s, b) && k == S.SessaoDoPasso(s, b) && f == S.FaixaDoPasso(s, b)
    ensures S.Esperando(s, k, f) && S.Par(s, k, f) && k < |s.sessoes|
  {
    hide S.Par, S.Pendente;
    S.TrataPendente(s, b, k, f);
  }

  lemma SubDepois(s: Estado, b: S.Acao)
    requires Pode(s, Sub(b))
    ensures Passo(s, Sub(b)).sub == S.Passo(s.sub, b)
  {
    hide S.Pode, S.Passo, N.Pode, N.Passo, EntrarTerminou, Negs1, Apos1;
  }

  lemma NaoEspera(s: S.Estado, k: nat, f: nat)
    requires !S.Esperando(s, k, f)
    ensures forall i | 0 <= i < |s.tarefas| :: !S.Pendente(s.tarefas[i], k, f)
  {
    hide S.Pendente;
  }

  lemma PerdeExato(s: Estado, a: Acao)
    requires Inv(s) && NadaPerdido(s) && Pode(s, a)
    ensures NadaPerdido(Passo(s, a)) <==> !Perde(s, a)
  {
    hide Passo, S.Pode, N.Pode, EntrarTerminou, Encaminhada, S.Recusa, N.Perde, Avisados;
    hide S.Base, Pareados, AposVale, Fresca, SoAlheias, Negociam;
    AvisadosExato(s, a);
    if a.Sub? && S.Recusa(s.sub, a.a) {
      RecusaPerde(s, a.a);
    } else {
      forall k: nat, f: nat ensures Encaminhada(Passo(s, a), k, f) { EncaminhadaFica(s, a, k, f); }
    }
  }

  // ------------------------------------------------------------- main results

  /**
   * The model's own guards stop nobody: in every interleaving a goroutine with
   * something to do to a peer connection can do it, Entrar with its offer still due,
   * and one with nothing to do can take its next step on the maps.
   */
  lemma {:induction false} NinguemTrava(acoes: seq<Acao>, i: nat, b: S.Acao)
    requires Executa(MIDIA, INICIAL, acoes)
    ensures var s := Final(MIDIA, INICIAL, acoes);
            && |s.apos| == |s.sub.tarefas|
            && (i < |s.apos| && !s.apos[i].Nada? ==> Pode(s, Seguir(i)))
            && (S.Pode(s.sub, b) && (Anda(b) ==> s.apos[b.i].Nada?) ==> Pode(s, Sub(b)))
  {
    hide S.Mapas, S.SaidasDaSala, S.UmaEspera, S.EsperaNaoInscrita, Fresca, SoAlheias, Negociam, Executa, Final;
    InvSempre(acoes);
    var s := Final(MIDIA, INICIAL, acoes);
    if i < |s.apos| { assert AposVale(s, i); }
    if b.MarcarFechada? && S.Pode(s.sub, b) { assert S.Referencia(s.sub, s.sub.tarefas[b.i]); }
  }

  /**
   * Rooms are kept apart and nobody gets their own tracks back: in every interleaving,
   * whatever ids are announced and whatever the clients send, a session has senders
   * for, and was offered, only tracks of other owners in its room.
   */
  lemma {:induction false} SoFaixasDosOutros(acoes: seq<Acao>, k: nat, f: nat)
    requires Executa(MIDIA, INICIAL, acoes)
    requires var s := Final(MIDIA, INICIAL, acoes);
             k < |s.negs| && f in s.negs[k].remetentes + s.negs[k].ofertados
    ensures Alheia(Final(MIDIA, INICIAL, acoes).sub, k, f)
  {
    hide Alheia, Pareados, Negociam, AposVale, Fresca, Executa, Final;
    InvSempre(acoes);
    assert SoAlheias(Final(MIDIA, INICIAL, acoes), k);
  }

  /**
   * No track is lost on its way, exactly: in every interleaving each live track of
   * another owner in a session's room is at every moment waiting in a goroutine, about
   * to get a sender or has one, and a session whose senders are not those last offered
   * has an offer to come, if and only if assinar never finds the id of such a track
   * taken and the negotiations take no losing step. A removal that deletes the entry
   * of another track with the id loses nothing here: that track keeps its sender.
   */
  lemma {:induction false} FaixaPerdidaSeESoSe(acoes: seq<Acao>)
    requires Executa(MIDIA, INICIAL, acoes)
    ensures AoLongo(MIDIA, NadaPerdido, INICIAL, acoes) <==> NenhumPasso(MIDIA, Perde, INICIAL, acoes)
  {
    assert NadaPerdido(INICIAL);
    InvNoComeco();
    hide Inv, Passo, Pode, NadaPerdido, Perde;
    forall s, a | Inv(s) && NadaPerdido(s) && MIDIA.pode(s, a)
      ensures NadaPerdido(MIDIA.passo(s, a)) <==> !Perde(s, a)
      ensures Inv(MIDIA.passo(s, a))
    {
      PerdeExato(s, a);
      InvMantido(s, a);
    }
    AoLongoSeESoSe(MIDIA, Inv, NadaPerdido, Perde, INICIAL, acoes);
  }

  /** No publisher's goroutine has session k left in its snapshot, or a sender to add there. */
  predicate SemEntregas(s: Estado, k: nat) {
    && (forall i | 0 <= i < |s.sub.tarefas| && s.sub.tarefas[i].Distribuir? :: k !in s.sub.tarefas[i].destinos)
    && (forall i | 0 <= i < |s.apos| && i < |s.sub.tarefas| && s.sub.tarefas[i].Distribuir? ::
          s.apos[i].Acrescentar? ==> s.apos[i].sessao != k)
  }

  /** The session is in its room, its connection quiet and stable, and nothing is on its way to it. */
  predicate EmDia(s: Estado, k: nat) {
    k < |s.negs| && S.NaSala(s.sub, k) && N.Quieta(s.negs[k]) && SemEntregas(s, k)
  }

  /**
   * End to end: when no losing step was taken, a session that is in its room, quiet and
   * stable, with nothing on its way to it, has been offered, of the tracks on the air,
   * exactly those of the others in its room.
   */
  lemma {:induction false} ChegaExatamente(acoes: seq<Acao>, k: nat, f: nat)
    requires Executa(MIDIA, INICIAL, acoes) && NenhumPasso(MIDIA, Perde, INICIAL, acoes)
    requires var s := Final(MIDIA, INICIAL, acoes); EmDia(s, k) && S.NoAr(s.sub, f)
    ensures var s := Final(MIDIA, INICIAL, acoes);
            k < |s.negs| && (f in s.negs[k].ofertados <==> S.Par(s.sub, k, f))
  {
    hide Perde, NadaPerdido, Inv, EmDia, S.NoAr, S.Par;
    InvSempre(acoes);
    FaixaPerdidaSeESoSe(acoes);
    AoLongoEm(MIDIA, NadaPerdido, INICIAL, acoes, |acoes|);
    assert acoes[..|acoes|] == acoes;
    EmDiaOferecida(Final(MIDIA, INICIAL, acoes), k, f);
  }

  lemma EmDiaOferecida(s: Estado, k: nat, f: nat)
    requires Inv(s) && NadaPerdido(s) && EmDia(s, k) && S.NoAr(s.sub, f)
    ensures k < |s.negs| && (f in s.negs[k].ofertados <==> S.Par(s.sub, k, f))
  {
    hide AposVale, Fresca, Negociam, S.Base, N.Quieta, S.Esperando, ACaminho, N.AvisoVivo, N.Inv, SemEntregas;
    assert SoAlheias(s, k);
    NadaACaminho(s, k, f);
    assert Encaminhada(s, k, f);
    assert N.Inv(s.negs[k]) by { NegociaUma(s, k); }
    N.TudoFeito(s.negs[k]);
    NaSalaAberta(s.sub, k);
    if f in s.negs[k].ofertados { assert Leva(s.negs[k], f); }
  }

  lemma NegociaUma(s: Estado, k: nat)
    requires Negociam(s) && k < |s.negs|
    ensures N.Inv(s.negs[k])
  {
    hide N.Inv;
  }

  lemma NaSalaAberta(s: S.Estado, k: nat)
    requires S.Base(s) && S.NaSala(s, k)
    ensures !s.sessoes[k].fechada
  {
    hide S.Referencias, S.SaidasDaSala, S.UmaEspera, S.EsperaNaoInscrita;
  }

  /** A quiet session's own Entrar is done with its list. */
  lemma NadaACaminho(s: Estado, k: nat, f: nat)
    requires Pareados(s) && (forall i: nat :: AposVale(s, i)) && EmDia(s, k)
    ensures !S.Esperando(s.sub, k, f) && !ACaminho(s, k, f)
  {
    hide Alheia;
    forall i | 0 <= i < |s.sub.tarefas| ensures !S.Pendente(s.sub.tarefas[i], k, f) && s.apos[i] != Acrescentar(k, f) {
      assert AposVale(s, i);
    }
  }

  // --------------------------------------------------- guards the caller can check

  /**
   * Ids are out of use in their room when announced, and each negotiation is in order:
   * the guards of Subscription and of Negotiation.
   */
  ghost predicate EmOrdem(s: Estado, a: Acao) {
    && Pode(s, a)
    && (a.Sub? ==> S.PublicaLivre(s.sub, a.a))
    && (a.Neg? ==> N.EmOrdem(s.negs[a.k], a.b))
  }

  ghost const EM_ORDEM: Sistema<Estado, Acao> := Sistema((s, a) => EmOrdem(s, a), Passo)

  ghost predicate Ordenada(s: Estado) {
    S.Livre(s.sub) && forall k | 0 <= k < |s.negs| :: N.Ordenada(s.negs[k])
  }

  /** The maps' side of a step in order, and that it is no losing one. */
  lemma LivreSegue(s: Estado, a: Acao)
    requires Pode(s, a) && S.Livre(s.sub) && (a.Sub? ==> S.PublicaLivre(s.sub, a.a))
    ensures S.Livre(Passo(s, a).sub) && !(a.Sub? && S.Recusa(s.sub, a.a))
  {
    hide S.Livre, S.PublicaLivre, S.Pode, S.Passo, S.Recusa, N.Pode, N.Passo, EntrarTerminou, Negs1, Neg1, Apos1;
    if a.Sub? {
      S.LivreMantida(s.sub, a.a);
      S.LivreNaoPerde(s.sub, a.a);
    }
  }

  /** ... and the negotiations' side. */
  lemma NegsSeguem(s: Estado, a: Acao)
    requires EmOrdem(s, a) && forall k | 0 <= k < |s.negs| :: N.Ordenada(s.negs[k])
    ensures forall k | 0 <= k < |Passo(s, a).negs| :: N.Ordenada(Passo(s, a).negs[k])
    ensures !(a.Neg? && N.Perde(s.negs[a.k], a.b))
  {
    hide Passo, S.PublicaLivre, S.Pode, EntrarTerminou, N.Ordenada, N.Perde, N.Pode, N.Passo, N.EmOrdem;
    forall k | 0 <= k < |Passo(s, a).negs| ensures N.Ordenada(Passo(s, a).negs[k]) {
      NegDepois(s, a, k);
      if k == |s.negs| {
        N.OrdenadaNoComeco();
      } else if NaNeg(s, a, k).Faz? {
        PedidoEmOrdem(s, a, k);
        N.OrdenadaMantida(s.negs[k], NaNeg(s, a, k).b);
      }
    }
    if a.Neg? { N.OrdenadaMantida(s.negs[a.k], a.b); }
  }

  lemma OrdenadaMantida(s: Estado, a: Acao)
    requires Ordenada(s) && EmOrdem(s, a)
    ensures Ordenada(Passo(s, a)) && !Perde(s, a)
  {
    hide Passo, S.Livre, S.PublicaLivre, S.Pode, S.Recusa, EntrarTerminou;
    hide N.Ordenada, N.Perde, N.Pode, N.EmOrdem;
    LivreSegue(s, a);
    NegsSeguem(s, a);
  }

  /** Goroutines that add and remove senders, and Sair, are always in order. */
  lemma PedidoEmOrdem(s: Estado, a: Acao, k: nat)
    requires EmOrdem(s, a) && k < |s.negs| && NaNeg(s, a, k).Faz?
    ensures N.EmOrdem(s.negs[k], NaNeg(s, a, k).b)
  {
    hide S.Pode, S.PublicaLivre, EntrarTerminou;
  }

  /**
   * So with ids out of use when announced and negotiations in order nothing is lost:
   * every session that is in its room, quiet and with nothing on its way to it has
   * been offered, of the tracks on the air, exactly those of the others there.
   */
  lemma {:induction false} EmOrdemTudoChega(acoes: seq<Acao>, k: nat, f: nat)
    requires Executa(EM_ORDEM, INICIAL, acoes)
    ensures Executa(MIDIA, INICIAL, acoes) && AoLongo(MIDIA, NadaPerdido, INICIAL, acoes)
    ensures Final(MIDIA, INICIAL, acoes) == Final(EM_ORDEM, INICIAL, acoes)
    ensures var s := Final(MIDIA, INICIAL, acoes);
            EmDia(s, k) && S.NoAr(s.sub, f) ==> (f in s.negs[k].ofertados <==> S.Par(s.sub, k, f))
  {
    assert Ordenada(INICIAL) by {
      S.LivreNoComeco();
    }
    hide Passo, Pode, EmOrdem, Ordenada, Perde, NadaPerdido, S.NoAr, S.Par;
    forall s, a | Ordenada(s) && EM_ORDEM.pode(s, a)
      ensures MIDIA.pode(s, a) && Ordenada(MIDIA.passo(s, a)) && !Perde(s, a)
    {
      EmOrdemPode(s, a);
      OrdenadaMantida(s, a);
    }
    GuardaEvita(MIDIA, EM_ORDEM, Ordenada, Perde, INICIAL, acoes);
    FaixaPerdidaSeESoSe(acoes);
    var s := Final(MIDIA, INICIAL, acoes);
    if EmDia(s, k) && S.NoAr(s.sub, f) { ChegaExatamente(acoes, k, f); }
  }

  lemma EmOrdemPode(s: Estado, a: Acao)
    requires EmOrdem(s, a)
    ensures Pode(s, a)
  {
  }
}
