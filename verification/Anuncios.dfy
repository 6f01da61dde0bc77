/**
 * The ids of outgoing tracks. A publisher announces an id for each of its tracks,
 * or none, and then the kind stands for it; the outgoing id puts the owner's first
 * 8 characters before that. Peers' ids are UUIDs of 36 characters.
 */
module Anuncios {
  import opened Runs
  import opened Subscription

  /** What an owner's tracks are told apart by. */
  function Rotulo(anunciado: string, tipo: string): string { if anunciado == "" then tipo else anunciado }

  /** One owner's ids are equal exactly when what was announced is, the kind where nothing was. */
  lemma IdsDoDono(dono: Peer, a: string, t: string, b: string, u: string)
    ensures ChaveDe(dono, a, t) == ChaveDe(dono, b, u) <==> Rotulo(a, t) == Rotulo(b, u)
  {
    var n := |ChaveDe(dono, "", "")|;
    assert ChaveDe(dono, a, t)[n..] == Rotulo(a, t) && ChaveDe(dono, b, u)[n..] == Rotulo(b, u);
  }

  /** Ids of two owners are equal exactly when their first 8 characters are, and what they announced. */
  lemma IdsDeDois(d: Peer, a: string, t: string, e: Peer, b: string, u: string)
    requires |d| >= 8 && |e| >= 8
    ensures ChaveDe(d, a, t) == ChaveDe(e, b, u) <==> d[..8] == e[..8] && Rotulo(a, t) == Rotulo(b, u)
  {
    CurtoDiz(d);
    CurtoDiz(e);
    hide Curto;
    var x, y := ChaveDe(d, a, t), ChaveDe(e, b, u);
    assert x[10..18] == d[..8] && y[10..18] == e[..8];
    assert x[19..] == Rotulo(a, t) && y[19..] == Rotulo(b, u);
  }

  lemma CurtoDiz(id: string)
    requires |id| >= 8
    ensures Curto(id) == id[..8]
  {
    assert id[..|id|] == id;
  }

  // ------------------------------------------------ two tracks of one owner

  /** Session k holds the track, or it waits for it with the id free. */
  ghost predicate ACaminho(s: Estado, k: nat, f: nat) {
    && k < |s.sessoes| && f < |s.criadas|
    && (Inscrita(s, k, f) || (Esperando(s, k, f) && s.criadas[f].chave !in s.sessoes[k].saidas))
  }

  /** The step hands session k another track with the id of f, or takes the id from it. */
  predicate Estorva(s: Estado, a: Acao, k: nat, f: nat) {
    Pode(s, a) && f < |s.criadas| &&
    (RetiraId(s, a, k, s.criadas[f].chave)
     || ((a.InscreverUma? || a.DistribuirUm?) && SessaoDoPasso(s, a) == k && FaixaDoPasso(s, a) != f
         && s.criadas[FaixaDoPasso(s, a)].chave == s.criadas[f].chave))
  }

  lemma SaidaLivreFica(s: Estado, a: Acao, k: nat, f: nat)
    requires Pode(s, a) && !Estorva(s, a, k, f) && k < |s.sessoes| && f < |s.criadas|
    requires s.criadas[f].chave !in s.sessoes[k].saidas
    ensures k < |Passo(s, a).sessoes|
    ensures s.criadas[f].chave !in Passo(s, a).sessoes[k].saidas || Trata(s, a, k, f)
  {
    hide DaSala, Destinos, SemFaixa;
  }

  lemma TrataInscreve(s: Estado, a: Acao, k: nat, f: nat)
    requires Pode(s, a) && Trata(s, a, k, f) && s.criadas[f].chave !in s.sessoes[k].saidas
    requires !s.sessoes[k].fechada && s.criadas[f].dono != s.sessoes[k].peer
    ensures Inscrita(Passo(s, a), k, f)
  {
    hide DaSala, Destinos, SemFaixa;
  }

  lemma ACaminhoFica(s: Estado, a: Acao, k: nat, f: nat)
    requires Base(s) && Pode(s, a) && ACaminho(s, k, f) && !Estorva(s, a, k, f)
    requires !s.sessoes[k].fechada && s.criadas[f].dono != s.sessoes[k].peer
    ensures ACaminho(Passo(s, a), k, f)
  {
    hide Passo, Mapas, SaidasDaSala, UmaEspera, EsperaNaoInscrita, Pendente;
    SoCresce(s, a);
    if Inscrita(s, k, f) {
      InscritaExata(s, a, k, f, s.criadas[f].chave);
    } else {
      var i :| 0 <= i < |s.tarefas| && Pendente(s.tarefas[i], k, f);
      PendenteDepois(s, a, i, k, f);
      if Trata(s, a, k, f) { TrataInscreve(s, a, k, f); } else { SaidaLivreFica(s, a, k, f); }
    }
  }

  lemma {:induction false} FechadaAteOFim(s: Estado, acoes: seq<Acao>, k: nat)
    requires Executa(SFU, s, acoes) && k < |s.sessoes| && s.sessoes[k].fechada
    ensures var t := Final(SFU, s, acoes); k < |t.sessoes| && t.sessoes[k].fechada
    decreases |acoes|
  {
    hide Pode, Passo;
    if acoes != [] {
      FechadaFica(s, acoes[0], k);
      FechadaAteOFim(Passo(s, acoes[0]), acoes[1..], k);
    }
  }

  lemma FechadaFica(s: Estado, a: Acao, k: nat)
    requires Pode(s, a) && k < |s.sessoes| && s.sessoes[k].fechada
    ensures k < |Passo(s, a).sessoes| && Passo(s, a).sessoes[k].fechada
  {
    hide DaSala, Destinos, SemFaixa;
  }

  /** What is on its way to an open session gets there, unless a step stands in its way. */
  lemma {:induction false} ChegaSeNadaEstorva(s: Estado, acoes: seq<Acao>, k: nat, f: nat)
    requires Base(s) && Executa(SFU, s, acoes) && ACaminho(s, k, f) && s.criadas[f].dono != s.sessoes[k].peer
    requires NenhumPasso(SFU, (t, a) => Estorva(t, a, k, f), s, acoes)
    requires k < |Final(SFU, s, acoes).sessoes| && !Final(SFU, s, acoes).sessoes[k].fechada
    ensures ACaminho(Final(SFU, s, acoes), k, f)
    decreases |acoes|
  {
    hide Base, Pode, Passo, Estorva, ACaminho;
    NaSessao(s, k, f);
    if s.sessoes[k].fechada { FechadaAteOFim(s, acoes, k); }
    if acoes != [] {
      SoCresce(s, acoes[0]);
      ACaminhoFica(s, acoes[0], k, f);
      BaseMantida(s, acoes[0]);
      ChegaSeNadaEstorva(Passo(s, acoes[0]), acoes[1..], k, f);
    }
  }

  lemma NaSessao(s: Estado, k: nat, f: nat)
    requires ACaminho(s, k, f)
    ensures k < |s.sessoes| && f < |s.criadas|
  {
  }

  /** The step hands session k a track other than these two under the id of one of them, or takes such an id from it. */
  predicate Alheio(s: Estado, a: Acao, k: nat, f: nat, g: nat) {
    (Estorva(s, a, k, f) || Estorva(s, a, k, g))
    && !(Pode(s, a) && (a.InscreverUma? || a.DistribuirUm?) && FaixaDoPasso(s, a) in {f, g})
  }

  /** Handing over one of two tracks with different ids does not stand in the other's way. */
  lemma {:induction false} SemEstorvo(s: Estado, acoes: seq<Acao>, k: nat, f: nat, g: nat)
    requires Executa(SFU, s, acoes) && f < |s.criadas| && g < |s.criadas| && s.criadas[f].chave != s.criadas[g].chave
    requires NenhumPasso(SFU, (t, a) => Alheio(t, a, k, f, g), s, acoes)
    ensures NenhumPasso(SFU, (t, a) => Estorva(t, a, k, f), s, acoes)
    ensures NenhumPasso(SFU, (t, a) => Estorva(t, a, k, g), s, acoes)
    decreases |acoes|
  {
    hide Passo;
    if acoes != [] {
      SoCresce(s, acoes[0]);
      SemEstorvo(Passo(s, acoes[0]), acoes[1..], k, f, g);
    }
  }

  /**
   * Two tracks of one owner announced under different ids, say its audio and its
   * video: an open session that both are on their way to, and that holds neither id,
   * is subscribed to both once neither waits, in every interleaving, unless it is
   * handed some other track under one of the ids or one of them is taken from it.
   */
  lemma {:induction false} DuasFaixasChegam(s: Estado, acoes: seq<Acao>, k: nat, f: nat, g: nat, dono: Peer,
                                            a: string, t: string, b: string, u: string)
    requires Base(s) && Executa(SFU, s, acoes) && k < |s.sessoes| && f < |s.criadas| && g < |s.criadas|
    requires s.criadas[f].dono == dono && s.criadas[f].chave == ChaveDe(dono, a, t)
    requires s.criadas[g].dono == dono && s.criadas[g].chave == ChaveDe(dono, b, u)
    requires (if a == "" then t else a) != (if b == "" then u else b) && dono != s.sessoes[k].peer
    requires Esperando(s, k, f) && Esperando(s, k, g)
    requires s.criadas[f].chave !in s.sessoes[k].saidas && s.criadas[g].chave !in s.sessoes[k].saidas
    requires NenhumPasso(SFU, (x, y) => Alheio(x, y, k, f, g), s, acoes)
    requires var fim := Final(SFU, s, acoes);
             k < |fim.sessoes| && !fim.sessoes[k].fechada && !Esperando(fim, k, f) && !Esperando(fim, k, g)
    ensures Inscrita(Final(SFU, s, acoes), k, f) && Inscrita(Final(SFU, s, acoes), k, g)
  {
    hide Base, Executa, Final, Passo, Pode, Esperando, Inscrita, ChaveDe, Estorva, Alheio;
    IdsDoDono(dono, a, t, b, u);
    SemEstorvo(s, acoes, k, f, g);
    ChegaSeNadaEstorva(s, acoes, k, f);
    ChegaSeNadaEstorva(s, acoes, k, g);
  }

  // ------------------------------------------- whole rooms, from what is announced

  function Anunciada(a: Acao): Faixa
    requires a.Publicar?
  {
    Faixa(a.sala, a.dono, ChaveDe(a.dono, a.anunciado, a.tipo))
  }

  function Anunciadas(acoes: seq<Acao>): seq<Faixa> {
    if acoes == [] then []
    else (if acoes[0].Publicar? then [Anunciada(acoes[0])] else []) + Anunciadas(acoes[1..])
  }

  /** In one room, owners whose first 8 characters are the same announce different ids. */
  predicate Distintas(a: Acao, b: Acao) {
    a.Publicar? && b.Publicar? && a.sala == b.sala ==>
      |a.dono| >= 8 && |b.dono| >= 8
      && (a.dono[..8] != b.dono[..8]
          || (if a.anunciado == "" then a.tipo else a.anunciado) != (if b.anunciado == "" then b.tipo else b.anunciado))
  }

  predicate TodasDistintas(acoes: seq<Acao>) {
    forall i, j | 0 <= i < j < |acoes| :: Distintas(acoes[i], acoes[j])
  }

  lemma {:induction false} AnunciadaVeioDe(acoes: seq<Acao>, f: nat) returns (i: nat)
    requires f < |Anunciadas(acoes)|
    ensures i < |acoes| && acoes[i].Publicar? && Anunciadas(acoes)[f] == Anunciada(acoes[i])
  {
    hide ChaveDe;
    if acoes[0].Publicar? && f == 0 {
      i := 0;
    } else {
      i := AnunciadaVeioDe(acoes[1..], if acoes[0].Publicar? then f - 1 else f);
      i := i + 1;
    }
  }

  lemma Emendar(a: seq<Faixa>, b: seq<Faixa>, c: seq<Faixa>)
    ensures a + (b + c) == a + b + c
  {
  }

  lemma {:induction false} AnunciadasMais(acoes: seq<Acao>, a: Acao)
    ensures Anunciadas(acoes + [a]) == Anunciadas(acoes) + if a.Publicar? then [Anunciada(a)] else []
  {
    hide ChaveDe, Anunciada;
    if acoes == [] {
      assert acoes + [a] == [a] && [a][1..] == [];
    } else {
      assert (acoes + [a])[1..] == acoes[1..] + [a] && (acoes + [a])[0] == acoes[0];
      AnunciadasMais(acoes[1..], a);
      Emendar(if acoes[0].Publicar? then [Anunciada(acoes[0])] else [], Anunciadas(acoes[1..]),
              if a.Publicar? then [Anunciada(a)] else []);
    }
  }

  lemma CriadasDepois(s: Estado, a: Acao)
    requires Pode(s, a)
    ensures Passo(s, a).criadas == s.criadas + if a.Publicar? then [Anunciada(a)] else []
  {
    hide DaSala, Destinos, SemFaixa, ChaveDe;
  }

  lemma GuardadaTemOId(s: Estado, k: nat, chave: Chave)
    requires Base(s) && k < |s.sessoes| && chave in s.sessoes[k].saidas
    ensures MesmoId(s, s.sessoes[k].saidas[chave], s.sessoes[k].sala, chave)
  {
    assert SaidasDaSala(s, k);
  }

  /** An id that no track of the room was ever given is out of use there. */
  lemma NovaELivre(s: Estado, sala: Sala, chave: Chave)
    requires Base(s) && forall f: nat :: !MesmoId(s, f, sala, chave)
    ensures ChaveLivre(s, sala, chave)
  {
    hide Mapas, Referencias, UmaEspera, EsperaNaoInscrita;
    forall k: nat | NaSala(s, k) && s.sessoes[k].sala == sala ensures chave !in s.sessoes[k].saidas {
      if chave in s.sessoes[k].saidas { GuardadaTemOId(s, k, chave); }
    }
  }

  lemma {:induction false} DistintasDasDeAntes(antes: seq<Acao>, a: Acao, criadas: seq<Faixa>, f: nat)
    requires a.Publicar? && TodasDistintas(antes + [a]) && criadas == Anunciadas(antes) && f < |criadas|
    ensures !(criadas[f].sala == a.sala && criadas[f].chave == Anunciada(a).chave)
  {
    hide ChaveDe;
    var i := AnunciadaVeioDe(antes, f);
    var b := antes[i];
    assert Distintas((antes + [a])[i], (antes + [a])[|antes|]);
    if b.sala == a.sala { IdsDeDois(b.dono, b.anunciado, b.tipo, a.dono, a.anunciado, a.tipo); }
  }

  lemma {:induction false} DistintasSaoLivres(antes: seq<Acao>, s: Estado, acoes: seq<Acao>)
    requires Base(s) && s.criadas == Anunciadas(antes) && Executa(SFU, s, acoes) && TodasDistintas(antes + acoes)
    ensures Executa(SFU_LIVRE, s, acoes)
    decreases |acoes|
  {
    hide Base, Pode, Passo, ChaveLivre, Anunciadas, ChaveDe;
    if acoes != [] {
      var a := acoes[0];
      assert antes + acoes == antes + [a] + acoes[1..];
      assert TodasDistintas(antes + [a]) by { TodasDistintasParte(antes + [a], acoes[1..]); }
      if a.Publicar? {
        forall f: nat ensures !MesmoId(s, f, a.sala, Anunciada(a).chave) {
          if f < |s.criadas| { DistintasDasDeAntes(antes, a, s.criadas, f); }
        }
        NovaELivre(s, a.sala, Anunciada(a).chave);
      }
      BaseMantida(s, a);
      CriadasDepois(s, a);
      AnunciadasMais(antes, a);
      DistintasSaoLivres(antes + [a], Passo(s, a), acoes[1..]);
    }
  }

  lemma TodasDistintasParte(a: seq<Acao>, b: seq<Acao>)
    requires TodasDistintas(a + b)
    ensures TodasDistintas(a)
  {
    hide Distintas;
    forall i, j | 0 <= i < j < |a| ensures Distintas(a[i], a[j]) {
      assert Distintas((a + b)[i], (a + b)[j]);
    }
  }

  /**
   * When no owner in a room announces an id twice, and owners differ in their first 8
   * characters, no subscription is missed: in every interleaving each session in a
   * room and each live track of another owner there is at every moment subscribed or
   * waiting in a goroutine.
   */
  lemma {:induction false} IdsDistintosTudoInscrito(acoes: seq<Acao>)
    requires Executa(SFU, INICIAL, acoes) && TodasDistintas(acoes)
    ensures NenhumPasso(SFU, Perde, INICIAL, acoes) && AoLongo(SFU, NenhumParPerdido, INICIAL, acoes)
  {
    assert Base(INICIAL) by { BaseNoComeco(); }
    hide Base, Pode, Passo, Perde, NenhumParPerdido;
    assert [] + acoes == acoes;
    DistintasSaoLivres([], INICIAL, acoes);
    NenhumaInscricaoPerdida(acoes);
    InscricaoPerdidaSeESoSe(acoes);
  }

  lemma BaseNoComeco()
    ensures Base(INICIAL)
  {
  }
}
