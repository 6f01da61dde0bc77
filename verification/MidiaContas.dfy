/**
 * How many offers the changes of subscription call for: in the machine of Midia each
 * track handed to a session, and each sender removed from it, calls for one, and
 * everything that Entrar subscribes for one in all.
 */
module MidiaContas {
  import opened Runs
  import opened Sums
  import opened Midia
  import opened MidiaInvariante
  import S = Subscription
  import N = Negotiation

  /** Each goroutine with what it has to do next. */
  function Juntos(s: Estado): (r: seq<(Apos, S.Tarefa)>)
    requires |s.apos| == |s.sub.tarefas|
    ensures |r| == |s.apos|
  {
    seq(|s.apos|, i requires 0 <= i < |s.apos| => (s.apos[i], s.sub.tarefas[i]))
  }

  /** A publisher's goroutine about to change or offer to session k: it will call oferecer once more. */
  function VaiOferecer(k: nat): ((Apos, S.Tarefa)) -> nat {
    (p: (Apos, S.Tarefa)) => if !p.0.Nada? && p.0.sessao == k && !p.1.Inscrever? then 1 else 0
  }

  ghost function DevidasNaSessao(s: Estado, k: nat): int {
    if k < |s.negs| then N.N(s.negs[k], N.Devendo) else 0
  }

  /** The calls of oferecer for session k that are due, or that a goroutine is about to owe. */
  ghost function Chamadas(s: Estado, k: nat): int {
    DevidasNaSessao(s, k) + if |s.apos| == |s.sub.tarefas| then Soma(Juntos(s), VaiOferecer(k)) else 0
  }

  /** What each step adds: the session's own Entrar, a track handed to it or taken from it, a note taken; and what it takes off. */
  function Saldo(k: nat): (Estado, Acao) -> int {
    (s: Estado, a: Acao) =>
      match a
      case Sub(b) =>
        if (b.Entrar? && k == |s.sub.sessoes|) || ((b.DistribuirUm? || b.RetirarDe?) && b.sessao == k) then 1 else 0
      case Seguir(i) =>
        if i < |s.apos| && s.apos[i].Tirar? && s.apos[i].sessao == k && k < |s.negs|
           && s.apos[i].faixa !in s.negs[k].remetentes then -1 else 0
      case Neg(j, b) =>
        if j != k || k >= |s.negs| then 0 else
        (if N.Avanca(s.negs[k], b, N.TomarPendencia) && s.negs[k].renegociarDepois then 1 else 0)
        - (if N.Avanca(s.negs[k], b, N.Deve) then 1 else 0)
  }

  /** What goroutines have to do changes where one moves, or at the end where one starts. */
  lemma JuntosDepois(s: Estado, a: Acao)
    requires Pareados(s) && Pode(s, a)
    ensures var t := Passo(s, a);
            && |t.apos| == |t.sub.tarefas|
            && (a.Sub? && Anda(a.a) ==>
                  a.a.i < |t.apos| && Juntos(t) == Juntos(s)[a.a.i := (t.apos[a.a.i], t.sub.tarefas[a.a.i])])
            && (a.Sub? && !Anda(a.a) && |t.apos| == |s.apos| ==> Juntos(t) == Juntos(s))
            && (a.Sub? && !Anda(a.a) && |t.apos| != |s.apos| ==>
                  |t.apos| == |s.apos| + 1 && t.apos[|s.apos|].Nada?
                  && Juntos(t) == Juntos(s) + [(Nada, t.sub.tarefas[|s.apos|])])
            && (a.Seguir? ==> Juntos(t) == Juntos(s)[a.i := (Nada, s.sub.tarefas[a.i])])
            && (a.Neg? ==> Juntos(t) == Juntos(s))
  {
    hide S.DaSala, S.Destinos, S.SemFaixa, N.Pode, N.Passo, EntrarTerminou, Negs1, Neg1, Depois;
    TantosApos(s, a);
  }

  /** The goroutine that moves: what it owes session k after its step on the maps. */
  lemma AndaDeve(s: Estado, b: S.Acao, k: nat)
    requires Pareados(s) && Pode(s, Sub(b)) && Anda(b)
    ensures var t := Passo(s, Sub(b));
            && b.i < |t.apos| && b.i < |t.sub.tarefas| && b.i < |s.apos| && s.apos[b.i].Nada?
            && VaiOferecer(k)((t.apos[b.i], t.sub.tarefas[b.i])) == Saldo(k)(s, Sub(b))
  {
    hide S.DaSala, S.Destinos, S.SemFaixa, N.Pode, N.Passo, EntrarTerminou, Negs1, Neg1, S.Assinar;
  }

  lemma DevidasDepois(s: Estado, a: Acao, k: nat)
    requires Pareados(s) && Pode(s, a)
    ensures DevidasNaSessao(Passo(s, a), k) ==
              if k < |s.negs| then
                DevidasNaSessao(s, k) + if NaNeg(s, a, k).Faz? then N.SaldoDeChamadas(s.negs[k], NaNeg(s, a, k).b) else 0
              else if a.Sub? && a.a.Entrar? && k == |s.negs| then 1 else 0
  {
    hide Passo, Pode, NaNeg, N.N, N.Passo, N.Pode, N.SaldoDeChamadas;
    NegDepois(s, a, k);
    if k < |s.negs| && NaNeg(s, a, k).Faz? { N.SaldosDoPasso(s.negs[k], NaNeg(s, a, k).b); }
    UmaNoComeco();
  }

  lemma UmaNoComeco()
    ensures N.N(N.INICIAL, N.Devendo) == 1
  {
  }

  lemma SeguirDeve(s: Estado, i: nat, k: nat)
    requires Pareados(s) && Pode(s, Seguir(i)) && AposVale(s, i) && k < |s.negs|
    ensures i < |s.sub.tarefas|
    ensures (if NaNeg(s, Seguir(i), k).Faz? then N.SaldoDeChamadas(s.negs[k], NaNeg(s, Seguir(i), k).b) else 0)
            - VaiOferecer(k)((s.apos[i], s.sub.tarefas[i])) == Saldo(k)(s, Seguir(i))
  {
    hide N.Pode, N.Passo;
  }

  lemma ChamadasPasso(s: Estado, a: Acao, k: nat)
    requires Inv(s) && Pode(s, a)
    ensures Chamadas(Passo(s, a), k) == Chamadas(s, k) + Saldo(k)(s, a)
  {
    hide Passo, S.Base, S.Pode, N.Pode, EntrarTerminou, AposVale, Fresca, SoAlheias, Negociam, Soma, DevidasNaSessao;
    var t := Passo(s, a);
    var vai := VaiOferecer(k);
    JuntosDepois(s, a);
    DevidasDepois(s, a, k);
    DevidasFora(s, k);
    match a
    case Neg(_, _) =>
    case Seguir(i) =>
      assert AposVale(s, i);
      SomaTroca(Juntos(s), i, (Nada, s.sub.tarefas[i]), vai);
      SeguirVale(s, i);
      if k < |s.negs| { SeguirDeve(s, i, k); }
    case Sub(b) =>
      if Anda(b) {
        AndaDeve(s, b, k);
        SomaTroca(Juntos(s), b.i, (t.apos[b.i], t.sub.tarefas[b.i]), vai);
        if k < |s.negs| { AndaNaSessao(s, b, k); }
      } else if |t.apos| != |s.apos| {
        SomaMais(Juntos(s), (Nada, t.sub.tarefas[|s.apos|]), vai);
      }
  }

  lemma DevidasFora(s: Estado, k: nat)
    ensures k >= |s.negs| ==> DevidasNaSessao(s, k) == 0
  {
  }

  lemma SeguirVale(s: Estado, i: nat)
    requires Pode(s, Seguir(i))
    ensures i < |s.apos| && s.apos[i].sessao < |s.negs|
  {
  }

  /** A step on the maps by a goroutine already there leaves the negotiations' calls alone. */
  lemma AndaNaSessao(s: Estado, b: S.Acao, k: nat)
    requires Pareados(s) && Pode(s, Sub(b)) && Anda(b) && k < |s.negs|
    ensures NaNeg(s, Sub(b), k).Faz? ==> N.SaldoDeChamadas(s.negs[k], NaNeg(s, Sub(b), k).b) == 0
  {
  }

  /**
   * One call of oferecer for each cause, in every interleaving: for a session's
   * Entrar, however many tracks it subscribes, for each track then handed to it,
   * whether or not it takes it, for each removal that finds the track's sender there,
   * and for each note taken; nothing else calls it.
   */
  lemma {:induction false} UmaChamadaPorCausa(acoes: seq<Acao>, k: nat)
    requires Executa(MIDIA, INICIAL, acoes) && k < |Final(MIDIA, INICIAL, acoes).negs|
    ensures var s := Final(MIDIA, INICIAL, acoes);
            && |s.apos| == |s.sub.tarefas|
            && N.N(s.negs[k], N.Devendo) + Soma(Juntos(s), VaiOferecer(k)) == Quanto(MIDIA, Saldo(k), INICIAL, acoes)
  {
    var chamadas := (s: Estado) => Chamadas(s, k);
    assert chamadas(INICIAL) == 0;
    InvNoComeco();
    InvSempre(acoes);
    hide Inv, Passo, Pode, Chamadas, Saldo;
    forall s, a | Inv(s) && MIDIA.pode(s, a)
      ensures Inv(MIDIA.passo(s, a)) && chamadas(MIDIA.passo(s, a)) == chamadas(s) + Saldo(k)(s, a)
    {
      InvMantido(s, a);
      ChamadasPasso(s, a, k);
    }
    QuantoMuda(MIDIA, Inv, chamadas, Saldo(k), INICIAL, acoes);
    ChamadasDiz(Final(MIDIA, INICIAL, acoes), k);
  }

  lemma ChamadasDiz(s: Estado, k: nat)
    requires Inv(s) && k < |s.negs|
    ensures |s.apos| == |s.sub.tarefas|
    ensures Chamadas(s, k) == N.N(s.negs[k], N.Devendo) + Soma(Juntos(s), VaiOferecer(k))
  {
  }
}
