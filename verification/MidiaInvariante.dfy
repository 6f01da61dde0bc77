/** Every step of the machine of Midia keeps its invariant: what becomes of senders, offers and waiting pairs. */
module MidiaInvariante {
  import opened Runs
  import opened Midia
  import S = Subscription
  import N = Negotiation

  // ------------------------------------------------------ senders and offers

  /** The senders of a session change only as its own steps say. */
  lemma RemetentesDepois(s: Estado, a: Acao, k: nat)
    requires Pode(s, a) && k < |s.negs|
    ensures k < |Passo(s, a).negs|
    ensures Passo(s, a).negs[k].remetentes ==
              if a.Seguir? && s.apos[a.i].sessao == k && s.apos[a.i].Acrescentar?
              then s.negs[k].remetentes + {s.apos[a.i].faixa}
              else if a.Seguir? && s.apos[a.i].sessao == k && s.apos[a.i].Tirar?
              then s.negs[k].remetentes - {s.apos[a.i].faixa}
              else s.negs[k].remetentes
  {
    hide Passo, S.Passo, S.Pode, N.Tarefas1, EntrarTerminou;
    NegDepois(s, a, k);
  }

  /** A sender about to be added was, or this step on the maps entered it. */
  lemma ACaminhoAntes(s: Estado, a: Acao, k: nat, f: nat)
    requires Pareados(s) && Pode(s, a) && ACaminho(Passo(s, a), k, f)
    ensures ACaminho(s, k, f) || (a.Sub? && S.Trata(s.sub, a.a, k, f) && Assina(s.sub, a.a))
  {
    hide N.Pode, N.Passo, S.Passo, EntrarTerminou, Negs1, Neg1;
    var t := Passo(s, a);
    var j :| 0 <= j < |t.apos| && t.apos[j] == Acrescentar(k, f);
    if j < |s.apos| && t.apos[j] == s.apos[j] { assert s.apos[j] == Acrescentar(k, f); }
  }

  /** One that was still is, or its goroutine has added it. */
  lemma ACaminhoDepois(s: Estado, a: Acao, k: nat, f: nat)
    requires Pareados(s) && Pode(s, a) && ACaminho(s, k, f)
    ensures ACaminho(Passo(s, a), k, f) || (a.Seguir? && s.apos[a.i] == Acrescentar(k, f))
  {
    hide Passo, N.Pode, S.Pode, EntrarTerminou;
    var j :| 0 <= j < |s.apos| && s.apos[j] == Acrescentar(k, f);
    if !(a.Seguir? && a.i == j) { SoAndaUma(s, a, j); }
  }

  lemma AcrescentaAlheia(s: Estado, k: nat, f: nat)
    requires Pareados(s) && (forall i: nat :: AposVale(s, i)) && ACaminho(s, k, f)
    ensures Alheia(s.sub, k, f)
  {
    hide Alheia;
    var i :| 0 <= i < |s.apos| && s.apos[i] == Acrescentar(k, f);
    assert AposVale(s, i);
  }

  lemma LevaAntes(n: N.Estado, b: N.Acao, f: nat)
    requires N.Pode(n, b) && Leva(N.Passo(n, b), f)
    ensures Leva(n, f) || ((b.Assinar? || b.AssinarMais?) && b.f == f)
  {
    var m := N.Passo(n, b);
    if i :| 0 <= i < |m.tarefas| && m.tarefas[i].AplicarOferta? && f in m.tarefas[i].oferta {
      if i < |n.tarefas| && n.tarefas[i] == m.tarefas[i] { assert Leva(n, f); }
    }
  }

  lemma SoAlheiasMantido(s: Estado, a: Acao, k: nat)
    requires Pareados(s) && (forall i: nat :: AposVale(s, i)) && SoAlheias(s, k) && Pode(s, a)
    ensures SoAlheias(Passo(s, a), k)
  {
    hide Passo, Pode, Alheia, AposVale, Leva, N.Passo, N.Pode;
    var t := Passo(s, a);
    if k < |t.negs| {
      NegDepois(s, a, k);
      AlheiasFicam(s, a);
      forall f: nat | Leva(t.negs[k], f) ensures Alheia(t.sub, k, f) {
        if |s.negs| <= k {
          NadaLeva(f);
        } else if NaNeg(s, a, k).Faz? {
          LevaAntes(s.negs[k], NaNeg(s, a, k).b, f);
          if !Leva(s.negs[k], f) { AcrescentaAgora(s, a, k, f); }
        }
      }
    }
  }

  lemma NadaLeva(f: nat)
    ensures !Leva(N.INICIAL, f)
  {
  }

  lemma AcrescentaAgora(s: Estado, a: Acao, k: nat, f: nat)
    requires Pareados(s) && (forall i: nat :: AposVale(s, i)) && Pode(s, a)
    requires NaNeg(s, a, k).Faz?
    requires var b := NaNeg(s, a, k).b; (b.Assinar? || b.AssinarMais?) && b.f == f
    ensures Alheia(s.sub, k, f)
  {
    hide Alheia, N.Pode, S.Pode, EntrarTerminou, AposVale;
    assert s.apos[a.i] == Acrescentar(k, f);
    AcrescentaAlheia(s, k, f);
  }

  /** A pair that waits after a step waited before it, unhandled by it, or it or its track is new. */
  lemma EsperaAntes(s: Estado, a: Acao, k: nat, f: nat)
    requires S.Base(s.sub) && Pode(s, a) && S.Esperando(Passo(s, a).sub, k, f)
    ensures || (S.Esperando(s.sub, k, f) && !(a.Sub? && S.Trata(s.sub, a.a, k, f)))
            || (a.Sub? && k == |s.sub.sessoes|) || (a.Sub? && f == |s.sub.criadas|)
  {
    hide S.Pode, S.Passo, S.Pendente, S.Mapas, S.SaidasDaSala, S.EsperaNaoInscrita, N.Pode, N.Passo, EntrarTerminou;
    hide Negs1, Neg1, Apos1;
    var t := Passo(s, a);
    if a.Sub? {
      var i :| 0 <= i < |t.sub.tarefas| && S.Pendente(t.sub.tarefas[i], k, f);
      S.PendenteAntes(s.sub, a.a, i, k, f);
      if S.Trata(s.sub, a.a, k, f) { S.TrataPendente(s.sub, a.a, k, f); }
    }
  }

  lemma FrescaMantida(s: Estado, a: Acao, k: nat, f: nat)
    requires Inv(s) && Pode(s, a)
    ensures Fresca(Passo(s, a), k, f)
  {
    hide Passo, S.Pode, N.Pode, EntrarTerminou, AposVale, ACaminho, Negociam, SoAlheias, S.Base, S.Esperando;
    var t := Passo(s, a);
    if S.Esperando(t.sub, k, f) {
      EsperaAntes(s, a, k, f);
      if S.Esperando(s.sub, k, f) && !(a.Sub? && S.Trata(s.sub, a.a, k, f)) {
        EsperaFresca(s, a, k, f);
      } else {
        NovaFresca(s, a, k, f);
      }
    }
  }

  lemma EsperaFresca(s: Estado, a: Acao, k: nat, f: nat)
    requires Inv(s) && Pode(s, a) && S.Esperando(s.sub, k, f) && !(a.Sub? && S.Trata(s.sub, a.a, k, f))
    ensures Fresca(Passo(s, a), k, f)
  {
    hide Passo, Alheia, AposVale, Leva, ACaminho, Negociam, SoAlheias, S.Base, S.Esperando, S.Pode, S.Trata;
    hide N.Pode, EntrarTerminou;
    assert Fresca(s, k, f);
    EsperandoExiste(s.sub, k, f);
    if ACaminho(Passo(s, a), k, f) { ACaminhoAntes(s, a, k, f); }
    RemetentesDepois(s, a, k);
    if a.Seguir? && s.apos[a.i] == Acrescentar(k, f) { JaACaminho(s, a.i); }
  }

  lemma JaACaminho(s: Estado, i: nat)
    requires i < |s.apos| && s.apos[i].Acrescentar?
    ensures ACaminho(s, s.apos[i].sessao, s.apos[i].faixa)
  {
  }

  lemma EsperandoExiste(s: S.Estado, k: nat, f: nat)
    requires S.Base(s) && S.Esperando(s, k, f)
    ensures k < |s.sessoes| && f < |s.criadas|
  {
    hide S.Mapas, S.SaidasDaSala, S.EsperaNaoInscrita, S.UmaEspera;
    var i :| 0 <= i < |s.tarefas| && S.Pendente(s.tarefas[i], k, f);
    assert S.Referencia(s, s.tarefas[i]);
  }

  lemma NovaFresca(s: Estado, a: Acao, k: nat, f: nat)
    requires Inv(s) && Pode(s, a) && a.Sub? && (k == |s.sub.sessoes| || f == |s.sub.criadas|)
    ensures Fresca(Passo(s, a), k, f)
  {
    hide Passo, S.Pode, S.Passo, AposVale, Negociam, S.Base, S.Esperando, Leva, ACaminho, N.Pode;
    if ACaminho(s, k, f) { AcrescentaAlheia(s, k, f); }
    if ACaminho(Passo(s, a), k, f) {
      ACaminhoAntes(s, a, k, f);
      TrataExiste(s.sub, a.a);
    }
    NegDepois(s, a, k);
    if k < |s.negs| {
      RemetentesDepois(s, a, k);
      assert SoAlheias(s, k);
      if f in s.negs[k].remetentes { LevaRemetente(s.negs[k], f); }
    }
  }

  lemma LevaRemetente(n: N.Estado, f: nat)
    requires f in n.remetentes
    ensures Leva(n, f)
  {
  }

  lemma TrataExiste(s: S.Estado, b: S.Acao)
    requires S.Pode(s, b) && (b.InscreverUma? || b.DistribuirUm?)
    ensures S.SessaoDoPasso(s, b) < |s.sessoes| && S.FaixaDoPasso(s, b) < |s.criadas|
  {
  }

  lemma InvMantido(s: Estado, a: Acao)
    requires Inv(s) && Pode(s, a)
    ensures Inv(Passo(s, a))
  {
    hide S.Base, Pareados, Negociam, AposVale, Fresca, SoAlheias;
    BaseMantida(s, a);
    hide Passo, Pode;
    PareadosMantidos(s, a);
    NegociamMantido(s, a);
    forall i: nat ensures AposVale(Passo(s, a), i) { AposMantido(s, a, i); }
    forall k: nat, f: nat ensures Fresca(Passo(s, a), k, f) { FrescaMantida(s, a, k, f); }
    forall k: nat ensures SoAlheias(Passo(s, a), k) { SoAlheiasMantido(s, a, k); }
  }

  lemma BaseMantida(s: Estado, a: Acao)
    requires S.Base(s.sub) && Pode(s, a)
    ensures S.Base(Passo(s, a).sub)
  {
    hide S.Base, S.Pode, S.Passo, N.Pode, N.Passo, EntrarTerminou, Negs1, Neg1, Apos1;
    if a.Sub? { S.BaseMantida(s.sub, a.a); }
  }

  lemma InvNoComeco()
    ensures Inv(INICIAL)
  {
  }

  lemma {:induction false} InvSempre(acoes: seq<Acao>)
    requires Executa(MIDIA, INICIAL, acoes)
    ensures Inv(Final(MIDIA, INICIAL, acoes))
  {
    hide Inv, Passo, Pode;
    InvNoComeco();
    forall s, a | Inv(s) && MIDIA.pode(s, a) ensures Inv(MIDIA.passo(s, a)) { InvMantido(s, a); }
    Sempre(MIDIA, Inv, INICIAL, acoes);
  }
}
