/**
 * Who is subscribed to what in the SFU, under every interleaving of Entrar,
 * aoReceberFaixa, removerFaixa and Sair. Each section under the SFU lock or a
 * session lock is one action; the snapshots taken under the lock are worked
 * through one element at a time. Sessions and tracks are objects, named by the
 * order of their creation; `salas` is keyed by room and peer together.
 */
module Subscription {
  import opened Runs

  type Sala = string
  type Peer = string
  type Chave = string

  /** `saidas` maps the id of an outgoing track to the track that was subscribed under it. */
  datatype Sessao = Sessao(sala: Sala, peer: Peer, saidas: map<Chave, nat>, fechada: bool)

  datatype Faixa = Faixa(sala: Sala, dono: Peer, chave: Chave)

  function Curto(id: string): string { if |id| > 8 then id[..8] else id }

  /** The id of an outgoing track: its owner and the id the publisher announced, or else its kind. */
  function ChaveDe(dono: Peer, anunciado: string, tipo: string): Chave {
    "greenlabs-" + Curto(dono) + "-" + if anunciado == "" then tipo else anunciado
  }

  /** What is left of a goroutine's snapshot. */
  datatype Tarefa =
    | Inscrever(sessao: nat, faixas: seq<nat>)       // Entrar
    | Distribuir(faixa: nat, destinos: set<nat>)     // aoReceberFaixa, then its packet loop
    | Retirar(faixa: nat, destinos: set<nat>)        // removerFaixa
    | FecharSessao(sessao: nat)                      // Sair
    | Feita

  datatype Estado = Estado(
    salas: map<(Sala, Peer), nat>,
    faixas: map<Sala, seq<nat>>,
    sessoes: seq<Sessao>,
    criadas: seq<Faixa>,
    tarefas: seq<Tarefa>)

  const INICIAL: Estado := Estado(map[], map[], [], [], [])

  datatype Acao =
    | Entrar(sala: Sala, peer: Peer)
    | InscreverUma(i: nat)
    | Publicar(sala: Sala, dono: Peer, anunciado: string, tipo: string)
    | DistribuirUm(i: nat, sessao: nat)
    | RemoverFaixa(i: nat)
    | RetirarDe(i: nat, sessao: nat)
    | Sair(sala: Sala, peer: Peer)
    | MarcarFechada(i: nat)

  function DaSala(s: Estado, sala: Sala): seq<nat> {
    if sala in s.faixas then s.faixas[sala] else []
  }

  /** The sessions of a room other than the owner's. */
  function Destinos(s: Estado, sala: Sala, dono: Peer): set<nat> {
    set k | k in s.salas && k.0 == sala && k.1 != dono :: s.salas[k]
  }

  function SemFaixa(fs: seq<nat>, f: nat): (r: seq<nat>)
    ensures f !in r && forall g :: g in r <==> g in fs && g != f
  {
    if fs == [] then []
    else if fs[0] == f then SemFaixa(fs[1..], f)
    else [fs[0]] + SemFaixa(fs[1..], f)
  }

  predicate Tem(s: Estado, i: nat) { i < |s.tarefas| }

  predicate Pode(s: Estado, a: Acao) {
    match a
    case Entrar(_, _) => true
    case InscreverUma(i) =>
      Tem(s, i) && s.tarefas[i].Inscrever? && s.tarefas[i].faixas != []
      && s.tarefas[i].sessao < |s.sessoes| && s.tarefas[i].faixas[0] < |s.criadas|
    case Publicar(_, _, _, _) => true
    case DistribuirUm(i, k) =>
      Tem(s, i) && s.tarefas[i].Distribuir? && k in s.tarefas[i].destinos
      && k < |s.sessoes| && s.tarefas[i].faixa < |s.criadas|
    case RemoverFaixa(i) =>
      Tem(s, i) && s.tarefas[i].Distribuir? && s.tarefas[i].destinos == {} && s.tarefas[i].faixa < |s.criadas|
    case RetirarDe(i, k) =>
      Tem(s, i) && s.tarefas[i].Retirar? && k in s.tarefas[i].destinos
      && k < |s.sessoes| && s.tarefas[i].faixa < |s.criadas|
    case Sair(_, _) => true
    case MarcarFechada(i) =>
      Tem(s, i) && s.tarefas[i].FecharSessao? && s.tarefas[i].sessao < |s.sessoes|
  }

  /** assinar: nothing on a closed session or under an id already there. */
  function Assinar(z: Sessao, chave: Chave, f: nat): Sessao {
    if z.fechada || chave in z.saidas then z else z.(saidas := z.saidas[chave := f])
  }

  function ComSessao(s: Estado, k: nat, z: Sessao, i: nat, t: Tarefa): Estado
    requires k < |s.sessoes| && Tem(s, i)
  {
    s.(sessoes := s.sessoes[k := z], tarefas := s.tarefas[i := t])
  }

  function Aplicar(s: Estado, a: Acao): Estado
    requires Pode(s, a)
  {
    match a
    case Entrar(sala, peer) =>
      var k := |s.sessoes|;
      s.(sessoes := s.sessoes + [Sessao(sala, peer, map[], false)],
         salas := s.salas[(sala, peer) := k],
         tarefas := s.tarefas + [Inscrever(k, DaSala(s, sala))])
    case InscreverUma(i) =>
      var k, f := s.tarefas[i].sessao, s.tarefas[i].faixas[0];
      var z := s.sessoes[k];
      ComSessao(s, k, if s.criadas[f].dono == z.peer then z else Assinar(z, s.criadas[f].chave, f),
                i, Inscrever(k, s.tarefas[i].faixas[1..]))
    case Publicar(sala, dono, anunciado, tipo) =>
      var f := |s.criadas|;
      s.(criadas := s.criadas + [Faixa(sala, dono, ChaveDe(dono, anunciado, tipo))],
         faixas := s.faixas[sala := DaSala(s, sala) + [f]],
         tarefas := s.tarefas + [Distribuir(f, Destinos(s, sala, dono))])
    case DistribuirUm(i, k) =>
      var f := s.tarefas[i].faixa;
      ComSessao(s, k, Assinar(s.sessoes[k], s.criadas[f].chave, f),
                i, Distribuir(f, s.tarefas[i].destinos - {k}))
    case RemoverFaixa(i) =>
      var f := s.tarefas[i].faixa;
      var Faixa(sala, dono, _) := s.criadas[f];
      s.(faixas := s.faixas[sala := SemFaixa(DaSala(s, sala), f)],
         tarefas := s.tarefas[i := Retirar(f, Destinos(s, sala, dono))])
    case RetirarDe(i, k) =>
      var f := s.tarefas[i].faixa;
      var z := s.sessoes[k];
      ComSessao(s, k, z.(saidas := z.saidas - {s.criadas[f].chave}),
                i, Retirar(f, s.tarefas[i].destinos - {k}))
    case Sair(sala, peer) =>
      var salas := s.salas - {(sala, peer)};
      var vazia := forall k | k in salas :: k.0 != sala;
      s.(salas := salas,
         faixas := if vazia then s.faixas - {sala} else s.faixas,
         tarefas := if (sala, peer) in s.salas then s.tarefas + [FecharSessao(s.salas[(sala, peer)])] else s.tarefas)
    case MarcarFechada(i) =>
      var k := s.tarefas[i].sessao;
      ComSessao(s, k, s.sessoes[k].(fechada := true), i, Feita)
  }

  function Passo(s: Estado, a: Acao): Estado {
    if Pode(s, a) then Aplicar(s, a) else s
  }

  /** Every interleaving, whatever ids the publishers announce. */
  const SFU: Sistema<Estado, Acao> := Sistema(Pode, Passo)

  // ------------------------------- what holds whatever ids are announced

  /** Goroutine t still has the subscription of session k to track f in its snapshot. */
  predicate Pendente(t: Tarefa, k: nat, f: nat) {
    || (t.Inscrever? && t.sessao == k && f in t.faixas)
    || (t.Distribuir? && t.faixa == f && k in t.destinos)
  }

  predicate Inscrita(s: Estado, k: nat, f: nat) {
    && k < |s.sessoes| && f < |s.criadas|
    && s.criadas[f].chave in s.sessoes[k].saidas && s.sessoes[k].saidas[s.criadas[f].chave] == f
  }

  predicate SemRepetir(fs: seq<nat>) { forall i, j | 0 <= i < j < |fs| :: fs[i] != fs[j] }

  /** References are to objects that exist, and the lock-protected maps agree with them. */
  ghost predicate Mapas(s: Estado) {
    && (forall p | p in s.salas ::
          s.salas[p] < |s.sessoes| && s.sessoes[s.salas[p]].sala == p.0 && s.sessoes[s.salas[p]].peer == p.1
          && !s.sessoes[s.salas[p]].fechada)
    && (forall sala | sala in s.faixas ::
          SemRepetir(s.faixas[sala])
          && forall f | f in s.faixas[sala] :: f < |s.criadas| && s.criadas[f].sala == sala)
  }

  /** A goroutine's snapshot is of one room. */
  ghost predicate Referencia(s: Estado, t: Tarefa) {
    && (t.Inscrever? ==>
          && t.sessao < |s.sessoes| && SemRepetir(t.faixas)
          && forall f | f in t.faixas :: f < |s.criadas| && s.criadas[f].sala == s.sessoes[t.sessao].sala)
    && (t.Distribuir? || t.Retirar? ==>
          && t.faixa < |s.criadas|
          && forall k | k in t.destinos :: k < |s.sessoes| && s.sessoes[k].sala == s.criadas[t.faixa].sala)
    && (t.FecharSessao? ==> t.sessao < |s.sessoes| && forall p | p in s.salas :: s.salas[p] != t.sessao)
    && (t.Retirar? ==> forall sala | sala in s.faixas :: t.faixa !in s.faixas[sala])
  }

  ghost predicate Referencias(s: Estado) {
    forall i | 0 <= i < |s.tarefas| :: Referencia(s, s.tarefas[i])
  }

  /** What a session holds under an id is a track of its room with that id. */
  ghost predicate SaidasDaSala(s: Estado, k: nat) {
    k < |s.sessoes| ==>
      forall c | c in s.sessoes[k].saidas ::
        var f := s.sessoes[k].saidas[c];
        f < |s.criadas| && s.criadas[f].chave == c && s.criadas[f].sala == s.sessoes[k].sala
  }

  /** A pair waits in one goroutine at most. */
  ghost predicate UmaEspera(s: Estado) {
    forall i, j, k: nat, f: nat | 0 <= i < |s.tarefas| && 0 <= j < |s.tarefas|
                                  && Pendente(s.tarefas[i], k, f) && Pendente(s.tarefas[j], k, f) :: i == j
  }

  /** A pair that waits is not yet subscribed. */
  ghost predicate EsperaNaoInscrita(s: Estado) {
    forall i, k: nat, f: nat | 0 <= i < |s.tarefas| && Pendente(s.tarefas[i], k, f) :: !Inscrita(s, k, f)
  }

  ghost predicate Base(s: Estado) {
    && Mapas(s) && Referencias(s) && (forall k: nat :: SaidasDaSala(s, k))
    && UmaEspera(s) && EsperaNaoInscrita(s)
  }

  // ----------------------------------------------------------- missing pairs

  predicate NaSala(s: Estado, k: nat) {
    k < |s.sessoes| && var p := (s.sessoes[k].sala, s.sessoes[k].peer); p in s.salas && s.salas[p] == k
  }

  predicate NoAr(s: Estado, f: nat) { f < |s.criadas| && f in DaSala(s, s.criadas[f].sala) }

  /** A session in a room and a live track of another owner there. */
  predicate Par(s: Estado, k: nat, f: nat) {
    NaSala(s, k) && NoAr(s, f) && s.criadas[f].sala == s.sessoes[k].sala && s.criadas[f].dono != s.sessoes[k].peer
  }

  ghost predicate Esperando(s: Estado, k: nat, f: nat) {
    exists i :: 0 <= i < |s.tarefas| && Pendente(s.tarefas[i], k, f)
  }

  ghost predicate Atendido(s: Estado, k: nat, f: nat) {
    Par(s, k, f) ==> Inscrita(s, k, f) || Esperando(s, k, f)
  }

  /** Every such pair is subscribed, or waits in a goroutine. */
  ghost predicate NenhumParPerdido(s: Estado) { forall k: nat, f: nat :: Atendido(s, k, f) }

  /** The track that a step subscribes, or stops sending, and the session. */
  function FaixaDoPasso(s: Estado, a: Acao): nat
    requires Pode(s, a) && (a.InscreverUma? || a.DistribuirUm? || a.RetirarDe?)
  {
    if a.InscreverUma? then s.tarefas[a.i].faixas[0] else s.tarefas[a.i].faixa
  }

  function SessaoDoPasso(s: Estado, a: Acao): nat
    requires Pode(s, a) && (a.InscreverUma? || a.DistribuirUm? || a.RetirarDe?)
  {
    if a.InscreverUma? then s.tarefas[a.i].sessao else a.sessao
  }

  /** assinar finds the id already there. */
  predicate Recusa(s: Estado, a: Acao) {
    Pode(s, a) && (a.InscreverUma? || a.DistribuirUm?) &&
    var k, f := SessaoDoPasso(s, a), FaixaDoPasso(s, a);
    Par(s, k, f) && s.criadas[f].chave in s.sessoes[k].saidas
  }

  /** The delete of removerFaixa takes the entry of another track that has the id. */
  predicate Apaga(s: Estado, a: Acao) {
    Pode(s, a) && a.RetirarDe? &&
    var k, chave := SessaoDoPasso(s, a), s.criadas[FaixaDoPasso(s, a)].chave;
    chave in s.sessoes[k].saidas && Par(s, k, s.sessoes[k].saidas[chave])
  }

  predicate Perde(s: Estado, a: Acao) { Recusa(s, a) || Apaga(s, a) }

  // ------------------------------------------------------------ small sequences

  lemma SemRepetirPrecedida(f: nat, fs: seq<nat>)
    requires SemRepetir(fs) && f !in fs
    ensures SemRepetir([f] + fs)
  {
    var r := [f] + fs;
    forall i, j | 0 <= i < j < |r| ensures r[i] != r[j] {
      assert r[j] == fs[j - 1];
    }
  }

  lemma {:induction false} SemFaixaMais(fs: seq<nat>, g: nat, f: nat)
    ensures SemFaixa(fs + [g], f) == SemFaixa(fs, f) + if g == f then [] else [g]
  {
    if fs == [] {
      assert [] + [g] == [g] && [g][1..] == [];
    } else {
      assert (fs + [g])[1..] == fs[1..] + [g];
      SemFaixaMais(fs[1..], g, f);
    }
  }

  lemma {:induction false} SemFaixaSemRepetir(fs: seq<nat>, f: nat)
    requires SemRepetir(fs)
    ensures SemRepetir(SemFaixa(fs, f))
  {
    if fs != [] {
      SemRepetirResto(fs);
      SemFaixaSemRepetir(fs[1..], f);
      SemRepetirPrecedida(fs[0], SemFaixa(fs[1..], f));
    }
  }

  lemma SemRepetirMais(fs: seq<nat>, f: nat)
    requires SemRepetir(fs) && f !in fs
    ensures SemRepetir(fs + [f]) && forall g :: g in fs + [f] <==> g in fs || g == f
  {
  }

  lemma SemRepetirResto(fs: seq<nat>)
    requires SemRepetir(fs) && fs != []
    ensures SemRepetir(fs[1..]) && forall g :: g in fs[1..] <==> g in fs && g != fs[0]
  {
    forall g | g in fs && g != fs[0] ensures g in fs[1..] {
      var i :| 0 <= i < |fs| && fs[i] == g;
      assert fs[1..][i - 1] == g;
    }
  }

  // -------------------------------------------------- every step keeps the base

  lemma MapasMantidos(s: Estado, a: Acao)
    requires Mapas(s) && Referencias(s) && Pode(s, a)
    ensures Mapas(Passo(s, a))
  {
    hide SemRepetir;
    SemRepetirVazia();
    if a.Publicar? {
      SemRepetirMais(DaSala(s, a.sala), |s.criadas|);
    } else if a.RemoverFaixa? {
      var f := s.tarefas[a.i].faixa;
      SemFaixaSemRepetir(DaSala(s, s.criadas[f].sala), f);
    } else if a.MarcarFechada? {
      assert Referencia(s, s.tarefas[a.i]);
    }
  }

  lemma SemRepetirVazia()
    ensures SemRepetir([])
  {
  }

  /** Objects already created keep their room, owner and id. */
  lemma SoCresce(s: Estado, a: Acao)
    requires Pode(s, a)
    ensures var t := Passo(s, a);
            && |s.sessoes| <= |t.sessoes| && |s.criadas| <= |t.criadas|
            && (forall k | 0 <= k < |s.sessoes| :: t.sessoes[k].sala == s.sessoes[k].sala
                                                   && t.sessoes[k].peer == s.sessoes[k].peer)
            && (forall f | 0 <= f < |s.criadas| :: t.criadas[f] == s.criadas[f])
  {
    hide DaSala, Destinos, SemFaixa;
  }

  /** Rooms only gain sessions that are new, and lists of tracks only tracks that are new. */
  lemma SalasMudam(s: Estado, a: Acao)
    requires Pode(s, a)
    ensures var t := Passo(s, a);
            && (forall p | p in t.salas :: (p in s.salas && t.salas[p] == s.salas[p]) || t.salas[p] == |s.sessoes|)
            && (forall sala, f: nat | sala in t.faixas && f in t.faixas[sala] ::
                  (sala in s.faixas && f in s.faixas[sala]) || f == |s.criadas|)
  {
  }

  lemma ReferenciaMantida(s: Estado, a: Acao, t: Tarefa)
    requires Mapas(s) && Pode(s, a) && Referencia(s, t)
    ensures Referencia(Passo(s, a), t)
  {
    hide SemRepetir, Pode, Passo, Mapas;
    SoCresce(s, a);
    SalasMudam(s, a);
  }

  /** The goroutine that moves, or the one that starts. */
  lemma ReferenciaNova(s: Estado, a: Acao, i: nat)
    requires Mapas(s) && Referencias(s) && Pode(s, a)
    requires i < |Passo(s, a).tarefas| && (i < |s.tarefas| ==> Passo(s, a).tarefas[i] != s.tarefas[i])
    ensures Referencia(Passo(s, a), Passo(s, a).tarefas[i])
  {
    hide SemRepetir;
    SemRepetirVazia();
    if i < |s.tarefas| { assert Referencia(s, s.tarefas[i]); }
    if a.InscreverUma? { SemRepetirResto(s.tarefas[a.i].faixas); }
  }

  lemma ReferenciasMantidas(s: Estado, a: Acao)
    requires Mapas(s) && Referencias(s) && Pode(s, a)
    ensures Referencias(Passo(s, a))
  {
    hide Pode, Passo, Mapas, Referencia;
    var t := Passo(s, a);
    forall i | 0 <= i < |t.tarefas| ensures Referencia(t, t.tarefas[i]) {
      if i < |s.tarefas| && t.tarefas[i] == s.tarefas[i] {
        ReferenciaMantida(s, a, s.tarefas[i]);
      } else {
        ReferenciaNova(s, a, i);
      }
    }
  }

  lemma SaidasMantidas(s: Estado, a: Acao, k: nat)
    requires Referencias(s) && Pode(s, a) && SaidasDaSala(s, k)
    ensures SaidasDaSala(Passo(s, a), k)
  {
    hide DaSala, Destinos, SemFaixa, SemRepetir;
    if a.InscreverUma? || a.DistribuirUm? || a.RetirarDe? || a.MarcarFechada? {
      assert Referencia(s, s.tarefas[a.i]);
    }
  }

  lemma EsperaUnica(s: Estado, a: Acao)
    requires Mapas(s) && Referencias(s) && UmaEspera(s) && Pode(s, a)
    ensures UmaEspera(Passo(s, a))
  {
    hide SemRepetir, SemFaixa;
    if a.InscreverUma? { SemRepetirResto(s.tarefas[a.i].faixas); }
  }

  /** Only the step that handles a pair subscribes it. */
  lemma SoOPassoInscreve(s: Estado, a: Acao, k: nat, f: nat)
    requires Base(s) && Pode(s, a) && Inscrita(Passo(s, a), k, f) && !Inscrita(s, k, f)
    ensures a.InscreverUma? || a.DistribuirUm?
    ensures k == SessaoDoPasso(s, a) && f == FaixaDoPasso(s, a) && f < |s.criadas| && k < |s.sessoes|
    ensures s.criadas[f].chave !in s.sessoes[k].saidas && !s.sessoes[k].fechada
    ensures a.InscreverUma? ==> s.criadas[f].dono != s.sessoes[k].peer
  {
    hide Mapas, UmaEspera, EsperaNaoInscrita, DaSala, Destinos, SemFaixa;
    assert SaidasDaSala(s, k);
    if a.InscreverUma? || a.DistribuirUm? || a.RetirarDe? || a.MarcarFechada? {
      assert Referencia(s, s.tarefas[a.i]);
    }
  }

  /** The step takes this pair out of its goroutine's snapshot. */
  predicate Trata(s: Estado, a: Acao, k: nat, f: nat)
    requires Pode(s, a)
  {
    (a.InscreverUma? || a.DistribuirUm?) && k == SessaoDoPasso(s, a) && f == FaixaDoPasso(s, a)
  }

  /** A pair that waits after a step waited before it in the same goroutine, or is new. */
  lemma PendenteAntes(s: Estado, a: Acao, i: nat, k: nat, f: nat)
    requires Referencias(s) && Pode(s, a) && i < |Passo(s, a).tarefas| && Pendente(Passo(s, a).tarefas[i], k, f)
    ensures if i < |s.tarefas| then Pendente(s.tarefas[i], k, f) && !(Trata(s, a, k, f) && a.i == i)
            else (a.Entrar? && k == |s.sessoes|) || (a.Publicar? && f == |s.criadas|)
  {
    hide DaSala, Destinos, SemFaixa;
    if i < |s.tarefas| { assert Referencia(s, s.tarefas[i]); }
    if a.InscreverUma? && i == a.i { SemRepetirResto(s.tarefas[i].faixas); }
  }

  /** ... and one that waited still waits unless the step handled it. */
  lemma PendenteDepois(s: Estado, a: Acao, i: nat, k: nat, f: nat)
    requires Referencias(s) && Pode(s, a) && i < |s.tarefas| && Pendente(s.tarefas[i], k, f)
    ensures i < |Passo(s, a).tarefas|
    ensures Pendente(Passo(s, a).tarefas[i], k, f) || (Trata(s, a, k, f) && a.i == i)
  {
    hide DaSala, Destinos, SemFaixa;
    assert Referencia(s, s.tarefas[i]);
    if a.InscreverUma? && i == a.i { SemRepetirResto(s.tarefas[i].faixas); }
  }

  lemma TrataPendente(s: Estado, a: Acao, k: nat, f: nat)
    requires Pode(s, a) && Trata(s, a, k, f)
    ensures a.i < |s.tarefas| && Pendente(s.tarefas[a.i], k, f)
  {
  }

  lemma EsperaDepois(s: Estado, a: Acao, i: nat, k: nat, f: nat)
    requires Base(s) && Pode(s, a) && i < |Passo(s, a).tarefas| && Pendente(Passo(s, a).tarefas[i], k, f)
    ensures !Inscrita(Passo(s, a), k, f)
  {
    hide Passo, Pode, Mapas, SaidasDaSala, Inscrita, Pendente;
    PendenteAntes(s, a, i, k, f);
    if Inscrita(Passo(s, a), k, f) {
      if Inscrita(s, k, f) {
        InscritaExiste(s, k, f);
      } else {
        SoOPassoInscreve(s, a, k, f);
        TrataPendente(s, a, k, f);
      }
    }
  }

  lemma InscritaExiste(s: Estado, k: nat, f: nat)
    requires Inscrita(s, k, f)
    ensures k < |s.sessoes| && f < |s.criadas|
  {
  }

  lemma EsperaFora(s: Estado, a: Acao)
    requires Base(s) && Pode(s, a)
    ensures EsperaNaoInscrita(Passo(s, a))
  {
    hide Passo, Pode, Base, Inscrita, Pendente;
    var t := Passo(s, a);
    forall i, k: nat, f: nat | 0 <= i < |t.tarefas| && Pendente(t.tarefas[i], k, f) ensures !Inscrita(t, k, f) {
      EsperaDepois(s, a, i, k, f);
    }
  }

  lemma BaseMantida(s: Estado, a: Acao)
    requires Base(s) && Pode(s, a)
    ensures Base(Passo(s, a))
  {
    hide Passo, Pode, Mapas, Referencias, SaidasDaSala, UmaEspera, EsperaNaoInscrita;
    MapasMantidos(s, a);
    ReferenciasMantidas(s, a);
    forall k: nat ensures SaidasDaSala(Passo(s, a), k) { SaidasMantidas(s, a, k); }
    EsperaUnica(s, a);
    EsperaFora(s, a);
  }

  lemma {:induction false} BaseSempre(acoes: seq<Acao>)
    requires Executa(SFU, INICIAL, acoes)
    ensures Base(Final(SFU, INICIAL, acoes))
  {
    assert Base(INICIAL);
    hide Base, Passo, Pode;
    forall s, a | Base(s) && SFU.pode(s, a) ensures Base(SFU.passo(s, a)) { BaseMantida(s, a); }
    Sempre(SFU, Base, INICIAL, acoes);
  }

  // ------------------------------------------------ exactly which steps lose a pair

  /** A pair of this state was one before the step, or the step made it and it waits. */
  lemma ParAntes(s: Estado, a: Acao, k: nat, f: nat)
    requires Mapas(s) && Pode(s, a) && Par(Passo(s, a), k, f)
    ensures Par(s, k, f) || Esperando(Passo(s, a), k, f)
  {
    var t := Passo(s, a);
    if a.Entrar? || a.Publicar? {
      if !Par(s, k, f) { assert Pendente(t.tarefas[|s.tarefas|], k, f); }
    }
  }

  /** ... and steps on one session and track leave pairs alone. */
  lemma ParFica(s: Estado, a: Acao, k: nat, f: nat)
    requires Pode(s, a) && (a.InscreverUma? || a.DistribuirUm? || a.RetirarDe?)
    ensures Par(Passo(s, a), k, f) == Par(s, k, f)
  {
  }

  lemma InscritaFica(s: Estado, a: Acao, k: nat, f: nat)
    requires Pode(s, a) && Inscrita(s, k, f)
    requires !(a.RetirarDe? && k == SessaoDoPasso(s, a) && s.criadas[f].chave == s.criadas[FaixaDoPasso(s, a)].chave)
    ensures Inscrita(Passo(s, a), k, f)
  {
    hide DaSala, Destinos, SemFaixa;
  }

  lemma AssinaAgora(s: Estado, a: Acao, k: nat, f: nat)
    requires Mapas(s) && Referencias(s) && Pode(s, a) && Trata(s, a, k, f) && Par(s, k, f)
    requires s.criadas[f].chave !in s.sessoes[k].saidas
    ensures Inscrita(Passo(s, a), k, f)
  {
    hide Destinos, SemFaixa, SemRepetir;
    assert Referencia(s, s.tarefas[a.i]);
  }

  /** Without a losing step every pair stays attended to. */
  lemma AtendidoFica(s: Estado, a: Acao, k: nat, f: nat)
    requires Base(s) && Pode(s, a) && Atendido(s, k, f) && !Perde(s, a)
    ensures Atendido(Passo(s, a), k, f)
  {
    hide Passo, Pode, Mapas, Referencias, SaidasDaSala, UmaEspera, EsperaNaoInscrita, Pendente;
    var t := Passo(s, a);
    if Par(t, k, f) {
      ParAntes(s, a, k, f);
      if Par(s, k, f) {
        if Inscrita(s, k, f) {
          ContinuaInscrita(s, a, k, f);
        } else {
          ContinuaEsperando(s, a, k, f);
        }
      }
    }
  }

  lemma ContinuaInscrita(s: Estado, a: Acao, k: nat, f: nat)
    requires Base(s) && Pode(s, a) && Par(s, k, f) && Inscrita(s, k, f) && !Perde(s, a)
    ensures Inscrita(Passo(s, a), k, f)
  {
    hide Passo, Base, Par, NaSala, NoAr, DaSala, Destinos, SemFaixa;
    InscritaFica(s, a, k, f);
  }

  lemma ContinuaEsperando(s: Estado, a: Acao, k: nat, f: nat)
    requires Base(s) && Pode(s, a) && Par(s, k, f) && Esperando(s, k, f) && !Perde(s, a)
    ensures Inscrita(Passo(s, a), k, f) || Esperando(Passo(s, a), k, f)
  {
    hide Passo, Mapas, SaidasDaSala, UmaEspera, EsperaNaoInscrita, Par, Pendente, SemFaixa, Destinos;
    var i :| 0 <= i < |s.tarefas| && Pendente(s.tarefas[i], k, f);
    PendenteDepois(s, a, i, k, f);
    if Trata(s, a, k, f) && a.i == i { AssinaAgora(s, a, k, f); }
  }

  /** A losing step leaves its pair neither subscribed nor waiting. */
  lemma PerdeUmPar(s: Estado, a: Acao) returns (k: nat, f: nat)
    requires Base(s) && Perde(s, a) && Pode(s, a)
    ensures !Atendido(Passo(s, a), k, f)
  {
    hide Passo, Mapas, SaidasDaSala, Par, Pendente, Destinos, SemFaixa, DaSala;
    k := SessaoDoPasso(s, a);
    f := if Recusa(s, a) then FaixaDoPasso(s, a) else s.sessoes[k].saidas[s.criadas[FaixaDoPasso(s, a)].chave];
    ParFica(s, a, k, f);
    if Recusa(s, a) { RecusaPerde(s, a, k, f); } else { ApagaPerde(s, a, k, f); }
  }

  lemma RecusaPerde(s: Estado, a: Acao, k: nat, f: nat)
    requires Base(s) && Pode(s, a) && Recusa(s, a) && k == SessaoDoPasso(s, a) && f == FaixaDoPasso(s, a)
    ensures !Inscrita(Passo(s, a), k, f) && !Esperando(Passo(s, a), k, f)
  {
    hide Passo, Pode, Mapas, SaidasDaSala, Par, Inscrita, Pendente;
    var t := Passo(s, a);
    TrataPendente(s, a, k, f);
    assert !Inscrita(s, k, f);
    if Inscrita(t, k, f) { SoOPassoInscreve(s, a, k, f); }
    forall i | 0 <= i < |t.tarefas| ensures !Pendente(t.tarefas[i], k, f) {
      if Pendente(t.tarefas[i], k, f) { PendenteAntes(s, a, i, k, f); }
    }
  }

  lemma ApagaPerde(s: Estado, a: Acao, k: nat, f: nat)
    requires Base(s) && Pode(s, a) && Apaga(s, a) && k == SessaoDoPasso(s, a)
    requires f == s.sessoes[k].saidas[s.criadas[FaixaDoPasso(s, a)].chave]
    ensures !Inscrita(Passo(s, a), k, f) && !Esperando(Passo(s, a), k, f)
  {
    hide Mapas, UmaEspera, Par, Pendente, DaSala, Destinos, SemFaixa;
    var t := Passo(s, a);
    assert SaidasDaSala(s, k) && Referencia(s, s.tarefas[a.i]);
    assert Inscrita(s, k, f);
    forall i | 0 <= i < |t.tarefas| ensures !Pendente(t.tarefas[i], k, f) {
      if Pendente(t.tarefas[i], k, f) { PendenteAntes(s, a, i, k, f); }
    }
  }

  lemma PerdeExato(s: Estado, a: Acao)
    requires Base(s) && NenhumParPerdido(s) && Pode(s, a)
    ensures NenhumParPerdido(Passo(s, a)) <==> !Perde(s, a)
  {
    hide Passo, Pode, Base, Perde, Atendido;
    if Perde(s, a) {
      var k, f := PerdeUmPar(s, a);
    } else {
      forall k: nat, f: nat ensures Atendido(Passo(s, a), k, f) { AtendidoFica(s, a, k, f); }
    }
  }

  // ------------------------------------------------------------- main results

  /**
   * Whatever ids are announced, in every interleaving: a pair waits in one goroutine
   * at most, and not once it is subscribed.
   */
  lemma {:induction false} NuncaDuasVezes(acoes: seq<Acao>, k: nat, f: nat, i: nat, j: nat)
    requires Executa(SFU, INICIAL, acoes)
    requires var s := Final(SFU, INICIAL, acoes); i < |s.tarefas| && j < |s.tarefas|
    requires var s := Final(SFU, INICIAL, acoes); Pendente(s.tarefas[i], k, f)
    ensures var s := Final(SFU, INICIAL, acoes);
            !Inscrita(s, k, f) && (Pendente(s.tarefas[j], k, f) ==> i == j)
  {
    hide Pendente, Inscrita, Mapas, Referencias, SaidasDaSala;
    BaseSempre(acoes);
  }

  /**
   * No missed subscription, exactly: in every interleaving and whatever ids are
   * announced, each session in a room and each live track of another owner there is
   * at every moment subscribed or waiting in a goroutine, if and only if assinar
   * never finds the id of such a pair taken and removerFaixa never deletes the entry
   * of another such track.
   */
  lemma {:induction false} InscricaoPerdidaSeESoSe(acoes: seq<Acao>)
    requires Executa(SFU, INICIAL, acoes)
    ensures AoLongo(SFU, NenhumParPerdido, INICIAL, acoes) <==> NenhumPasso(SFU, Perde, INICIAL, acoes)
  {
    assert Base(INICIAL) && NenhumParPerdido(INICIAL);
    hide Passo, Pode, Base, Perde, NenhumParPerdido;
    forall s, a | Base(s) && NenhumParPerdido(s) && SFU.pode(s, a)
      ensures NenhumParPerdido(SFU.passo(s, a)) <==> !Perde(s, a)
      ensures Base(SFU.passo(s, a))
    {
      PerdeExato(s, a);
      BaseMantida(s, a);
    }
    AoLongoSeESoSe(SFU, Base, NenhumParPerdido, Perde, INICIAL, acoes);
  }

  /** The guard of assinar, for an open session: the track handled is subscribed exactly when its id is free there. */
  lemma AssinaSeESoSe(s: Estado, i: nat, k: nat)
    requires Base(s) && Pode(s, DistribuirUm(i, k)) && !s.sessoes[k].fechada
    ensures var f := s.tarefas[i].faixa;
            Inscrita(Passo(s, DistribuirUm(i, k)), k, f) <==> s.criadas[f].chave !in s.sessoes[k].saidas
  {
    hide Mapas, Referencias, UmaEspera;
    var f := s.tarefas[i].faixa;
    assert Pendente(s.tarefas[i], k, f);
    assert !Inscrita(s, k, f);
  }

  /** The delete of removerFaixa reaches session k with this id. */
  predicate RetiraId(s: Estado, a: Acao, k: nat, chave: Chave) {
    Pode(s, a) && a.RetirarDe? && k == SessaoDoPasso(s, a) && s.criadas[FaixaDoPasso(s, a)].chave == chave
  }

  lemma RetirarApaga(s: Estado, a: Acao, k: nat, f: nat)
    requires Pode(s, a) && Inscrita(s, k, f) && RetiraId(s, a, k, s.criadas[f].chave)
    ensures !Inscrita(Passo(s, a), k, f)
  {
  }

  lemma InscritaExata(s: Estado, a: Acao, k: nat, f: nat, chave: Chave)
    requires Pode(s, a) && Inscrita(s, k, f) && s.criadas[f].chave == chave
    ensures Inscrita(Passo(s, a), k, f) <==> !RetiraId(s, a, k, chave)
    ensures f < |Passo(s, a).criadas| && Passo(s, a).criadas[f].chave == chave
  {
    hide Passo, Inscrita;
    InscritaExiste(s, k, f);
    SoCresce(s, a);
    if RetiraId(s, a, k, chave) { RetirarApaga(s, a, k, f); } else { InscritaFica(s, a, k, f); }
  }

  /**
   * Once subscribed to a track, a session keeps its entry throughout a run, also after
   * it leaves or the track is off the air, exactly as long as no removal of a track
   * with the same id, this one or another, reaches it.
   */
  lemma {:induction false} InscritaAteRetirar(s: Estado, acoes: seq<Acao>, k: nat, f: nat)
    requires Executa(SFU, s, acoes) && Inscrita(s, k, f)
    ensures var chave := s.criadas[f].chave;
            AoLongo(SFU, t => Inscrita(t, k, f), s, acoes)
            <==> NenhumPasso(SFU, (t, a) => RetiraId(t, a, k, chave), s, acoes)
  {
    InscritaExiste(s, k, f);
    var chave := s.criadas[f].chave;
    hide Passo, Pode, Inscrita, RetiraId;
    var temId := (t: Estado) => f < |t.criadas| && t.criadas[f].chave == chave;
    var inscrita := (t: Estado) => Inscrita(t, k, f);
    var retira := (t: Estado, a: Acao) => RetiraId(t, a, k, chave);
    forall t, a | temId(t) && inscrita(t) && SFU.pode(t, a)
      ensures (inscrita(SFU.passo(t, a)) <==> !retira(t, a)) && temId(SFU.passo(t, a))
    {
      InscritaExata(t, a, k, f, chave);
    }
    AoLongoSeESoSe(SFU, temId, inscrita, retira, s, acoes);
  }

  // --------------------------------------------- a guard on what is announced

  /** Goroutine t will still subscribe, send or remove track f. */
  predicate Carrega(t: Tarefa, f: nat) {
    || (t.Inscrever? && f in t.faixas)
    || (t.Distribuir? && t.faixa == f)
    || (t.Retirar? && t.faixa == f && t.destinos != {})
  }

  predicate MesmoId(s: Estado, f: nat, sala: Sala, chave: Chave) {
    f < |s.criadas| && s.criadas[f].sala == sala && s.criadas[f].chave == chave
  }

  /** No session in the room holds the id, and no goroutine has a track of the room with that id left to handle. */
  ghost predicate ChaveLivre(s: Estado, sala: Sala, chave: Chave) {
    && (forall k: nat :: NaSala(s, k) && s.sessoes[k].sala == sala ==> chave !in s.sessoes[k].saidas)
    && (forall i, f: nat | 0 <= i < |s.tarefas| && Carrega(s.tarefas[i], f) :: !MesmoId(s, f, sala, chave))
  }

  ghost predicate PublicaLivre(s: Estado, a: Acao) {
    Pode(s, a) && (a.Publicar? ==> ChaveLivre(s, a.sala, ChaveDe(a.dono, a.anunciado, a.tipo)))
  }

  ghost const SFU_LIVRE: Sistema<Estado, Acao> := Sistema((s, a) => PublicaLivre(s, a), Passo)

  /** A track that is held by a session in its room, or that a goroutine has left to handle. */
  ghost predicate Ativa(s: Estado, f: nat) {
    || (exists k: nat :: NaSala(s, k) && Inscrita(s, k, f))
    || (exists i :: 0 <= i < |s.tarefas| && Carrega(s.tarefas[i], f))
  }

  /** A live track is in its publisher's packet loop. */
  ghost predicate EmTransmissao(s: Estado, f: nat) {
    NoAr(s, f) ==> exists i :: 0 <= i < |s.tarefas| && s.tarefas[i].Distribuir? && s.tarefas[i].faixa == f
  }

  ghost predicate UmaPorId(s: Estado, f: nat, g: nat) {
    Ativa(s, f) && Ativa(s, g) && f < |s.criadas| && MesmoId(s, g, s.criadas[f].sala, s.criadas[f].chave) ==> f == g
  }

  ghost predicate Livre(s: Estado) {
    Base(s) && (forall f: nat :: EmTransmissao(s, f)) && forall f: nat, g: nat :: UmaPorId(s, f, g)
  }

  lemma TransmissaoMantida(s: Estado, a: Acao, f: nat)
    requires Base(s) && Pode(s, a) && EmTransmissao(s, f)
    ensures EmTransmissao(Passo(s, a), f)
  {
    hide Base, Destinos;
    var t := Passo(s, a);
    if NoAr(t, f) {
      if NoAr(s, f) {
        var i :| 0 <= i < |s.tarefas| && s.tarefas[i].Distribuir? && s.tarefas[i].faixa == f;
        assert t.tarefas[i].Distribuir? && t.tarefas[i].faixa == f;
      } else {
        assert t.tarefas[|s.tarefas|].faixa == f;
      }
    }
  }

  /** Steps make no track active but the one published. */
  lemma AtivaAntes(s: Estado, a: Acao, f: nat)
    requires Base(s) && Pode(s, a) && EmTransmissao(s, f) && Ativa(Passo(s, a), f)
    ensures Ativa(s, f) || (a.Publicar? && f == |s.criadas|)
  {
    hide Passo, Pode, Base, Inscrita, Carrega, NaSala;
    var t := Passo(s, a);
    if k: nat :| NaSala(t, k) && Inscrita(t, k, f) {
      InscritaAntes(s, a, k, f);
    } else if i :| 0 <= i < |t.tarefas| && Carrega(t.tarefas[i], f) {
      CarregaAntes(s, a, i, f);
    }
  }

  lemma InscritaAntes(s: Estado, a: Acao, k: nat, f: nat)
    requires Base(s) && Pode(s, a) && NaSala(Passo(s, a), k) && Inscrita(Passo(s, a), k, f)
    ensures Ativa(s, f)
  {
    hide Passo, Base, DaSala, Destinos, SemFaixa;
    if Inscrita(s, k, f) {
      NaSalaAntes(s, a, k);
    } else {
      SoOPassoInscreve(s, a, k, f);
      TrataPendente(s, a, k, f);
      assert Carrega(s.tarefas[a.i], f);
    }
  }

  lemma NaSalaAntes(s: Estado, a: Acao, k: nat)
    requires Base(s) && Pode(s, a) && NaSala(Passo(s, a), k) && k < |s.sessoes|
    ensures NaSala(s, k)
  {
    hide Base, DaSala, Destinos, SemFaixa;
  }

  lemma CarregaAntes(s: Estado, a: Acao, i: nat, f: nat)
    requires Base(s) && Pode(s, a) && EmTransmissao(s, f)
    requires i < |Passo(s, a).tarefas| && Carrega(Passo(s, a).tarefas[i], f)
    ensures Ativa(s, f) || (a.Publicar? && f == |s.criadas|)
  {
    hide UmaEspera, EsperaNaoInscrita, SaidasDaSala, Destinos, SemFaixa, Inscrita, NaSala;
    if i < |s.tarefas| {
      assert Carrega(s.tarefas[i], f);
    } else if a.Entrar? {
      assert NoAr(s, f);
      var j :| 0 <= j < |s.tarefas| && s.tarefas[j].Distribuir? && s.tarefas[j].faixa == f;
      assert Carrega(s.tarefas[j], f);
    }
  }

  lemma UmaPorIdMantida(s: Estado, a: Acao, f: nat, g: nat)
    requires Livre(s) && PublicaLivre(s, a)
    ensures UmaPorId(Passo(s, a), f, g)
  {
    hide Passo, Base, Ativa, EmTransmissao, ChaveLivre;
    var t := Passo(s, a);
    SoCresce(s, a);
    if Ativa(t, f) && Ativa(t, g) && f < |t.criadas| && MesmoId(t, g, t.criadas[f].sala, t.criadas[f].chave) {
      assert EmTransmissao(s, f) && EmTransmissao(s, g) && UmaPorId(s, f, g);
      AtivaAntes(s, a, f);
      AtivaAntes(s, a, g);
      if Ativa(s, f) { AtivaExiste(s, f); }
      if Ativa(s, g) { AtivaExiste(s, g); }
      if a.Publicar? { NovaTemId(s, a, f, g); }
    }
  }

  lemma AtivaExiste(s: Estado, f: nat)
    requires Base(s) && Ativa(s, f)
    ensures f < |s.criadas|
  {
    hide UmaEspera, EsperaNaoInscrita, SaidasDaSala, Mapas, NaSala;
    if i :| 0 <= i < |s.tarefas| && Carrega(s.tarefas[i], f) { assert Referencia(s, s.tarefas[i]); }
  }

  /** The guard: a track active before the publication has another id, or is in another room. */
  lemma NovaTemId(s: Estado, a: Acao, f: nat, g: nat)
    requires Base(s) && PublicaLivre(s, a) && a.Publicar?
    requires var t := Passo(s, a);
             f < |t.criadas| && g < |t.criadas| && MesmoId(t, g, t.criadas[f].sala, t.criadas[f].chave)
    requires (Ativa(s, f) || f == |s.criadas|) && (Ativa(s, g) || g == |s.criadas|)
    ensures (f == |s.criadas|) == (g == |s.criadas|)
  {
    hide Ativa, Base, ChaveLivre, DaSala, Destinos;
    if f == |s.criadas| && g != f { AtivaOutroId(s, g, a.sala, ChaveDe(a.dono, a.anunciado, a.tipo)); }
    if g == |s.criadas| && f != g { AtivaOutroId(s, f, a.sala, ChaveDe(a.dono, a.anunciado, a.tipo)); }
  }

  lemma AtivaOutroId(s: Estado, f: nat, sala: Sala, chave: Chave)
    requires Base(s) && Ativa(s, f) && ChaveLivre(s, sala, chave)
    ensures !MesmoId(s, f, sala, chave)
  {
    hide Mapas, Referencias, UmaEspera, EsperaNaoInscrita, NaSala, Carrega;
    if k: nat :| NaSala(s, k) && Inscrita(s, k, f) { assert SaidasDaSala(s, k); }
  }

  lemma LivreMantida(s: Estado, a: Acao)
    requires Livre(s) && PublicaLivre(s, a)
    ensures Livre(Passo(s, a))
  {
    hide Passo, Pode, Base, EmTransmissao, UmaPorId, ChaveLivre;
    BaseMantida(s, a);
    forall f: nat ensures EmTransmissao(Passo(s, a), f) { TransmissaoMantida(s, a, f); }
    forall f: nat, g: nat ensures UmaPorId(Passo(s, a), f, g) { UmaPorIdMantida(s, a, f, g); }
  }

  lemma LivreMesmaFaixa(s: Estado, k: nat, g: nat, i: nat, f: nat)
    requires Livre(s) && NaSala(s, k) && Inscrita(s, k, g) && i < |s.tarefas| && Carrega(s.tarefas[i], f)
    requires MesmoId(s, f, s.criadas[g].sala, s.criadas[g].chave)
    ensures f == g
  {
    hide Base, NaSala, Inscrita, Carrega;
    InscritaExiste(s, k, g);
    assert Ativa(s, g) && Ativa(s, f);
    assert UmaPorId(s, g, f);
  }

  lemma LivreNaoPerde(s: Estado, a: Acao)
    requires Livre(s) && Pode(s, a)
    ensures !Perde(s, a)
  {
    hide Livre, Recusa, Apaga;
    RecusadaJaInscrita(s, a);
    ApagadaNoAr(s, a);
  }

  /** A track refused for its id would be the one the session holds under it. */
  lemma RecusadaJaInscrita(s: Estado, a: Acao)
    requires Livre(s) && Pode(s, a)
    ensures !Recusa(s, a)
  {
    hide Mapas, Referencias, UmaEspera, DaSala, Destinos, UmaPorId;
    if Recusa(s, a) {
      var k, f := SessaoDoPasso(s, a), FaixaDoPasso(s, a);
      var g := s.sessoes[k].saidas[s.criadas[f].chave];
      assert SaidasDaSala(s, k);
      TrataPendente(s, a, k, f);
      LivreMesmaFaixa(s, k, g, a.i, f);
    }
  }

  /** An entry deleted would be the removed track's own, which is off the air. */
  lemma ApagadaNoAr(s: Estado, a: Acao)
    requires Livre(s) && Pode(s, a)
    ensures !Apaga(s, a)
  {
    hide Mapas, UmaEspera, EsperaNaoInscrita, Destinos, UmaPorId;
    if Apaga(s, a) {
      var k, g := SessaoDoPasso(s, a), FaixaDoPasso(s, a);
      var f := s.sessoes[k].saidas[s.criadas[g].chave];
      assert SaidasDaSala(s, k) && Referencia(s, s.tarefas[a.i]);
      LivreMesmaFaixa(s, k, f, a.i, g);
    }
  }

  /**
   * When each track is announced under an id that no session of the room holds and
   * no goroutine has left to handle there, no subscription is missed: at every moment
   * each session in a room and each live track of another owner there is subscribed
   * or waits in a goroutine. Ids may come back once they are out of use.
   */
  lemma {:induction false} NenhumaInscricaoPerdida(acoes: seq<Acao>)
    requires Executa(SFU_LIVRE, INICIAL, acoes)
    ensures Executa(SFU, INICIAL, acoes) && Final(SFU, INICIAL, acoes) == Final(SFU_LIVRE, INICIAL, acoes)
    ensures AoLongo(SFU, NenhumParPerdido, INICIAL, acoes)
  {
    assert Livre(INICIAL) by { LivreNoComeco(); }
    hide Passo, Pode, Livre, Perde, PublicaLivre, NenhumParPerdido;
    forall s, a | Livre(s) && SFU_LIVRE.pode(s, a)
      ensures SFU.pode(s, a) && Livre(SFU.passo(s, a)) && !Perde(s, a)
    {
      LivrePode(s, a);
      LivreMantida(s, a);
      LivreNaoPerde(s, a);
    }
    GuardaEvita(SFU, SFU_LIVRE, Livre, Perde, INICIAL, acoes);
    InscricaoPerdidaSeESoSe(acoes);
  }

  lemma LivreNoComeco()
    ensures Livre(INICIAL)
  {
  }

  lemma LivrePode(s: Estado, a: Acao)
    requires PublicaLivre(s, a)
    ensures Pode(s, a)
  {
  }

  /** So once no goroutine has work left, everyone in a room has every track of the others there. */
  lemma {:induction false} SemTrabalhoTodosInscritos(acoes: seq<Acao>, k: nat, f: nat)
    requires Executa(SFU, INICIAL, acoes) && NenhumPasso(SFU, Perde, INICIAL, acoes)
    requires var s := Final(SFU, INICIAL, acoes);
             && Par(s, k, f)
             && forall i | 0 <= i < |s.tarefas| ::
                  (s.tarefas[i].Inscrever? ==> s.tarefas[i].faixas == [])
                  && (s.tarefas[i].Distribuir? ==> s.tarefas[i].destinos == {})
    ensures Inscrita(Final(SFU, INICIAL, acoes), k, f)
  {
    hide Perde, Par, Inscrita, Executa, Final;
    InscricaoPerdidaSeESoSe(acoes);
    AoLongoEm(SFU, NenhumParPerdido, INICIAL, acoes, |acoes|);
    assert acoes[..|acoes|] == acoes;
    assert Atendido(Final(SFU, INICIAL, acoes), k, f);
  }

  // ------------------------------------------------------------ ids announced twice

  const X: Chave := ChaveDe("bia", "x", "video")

  const NA_SALA: map<(Sala, Peer), nat> := map[("sala", "bia") := 0, ("sala", "ana") := 1]

  /** bia, who publishes, entered first; ana holds `saidas`. */
  function SalaDeDuas(faixas: seq<nat>, saidas: map<Chave, nat>, criadas: seq<Faixa>, tarefas: seq<Tarefa>): Estado {
    Estado(NA_SALA, map["sala" := faixas],
           [Sessao("sala", "bia", map[], false), Sessao("sala", "ana", saidas, false)],
           criadas, [Inscrever(0, []), Inscrever(1, [])] + tarefas)
  }

  const F: Faixa := Faixa("sala", "bia", X)

  const AS_DUAS: Estado :=
    Estado(NA_SALA, map[], [Sessao("sala", "bia", map[], false), Sessao("sala", "ana", map[], false)],
           [], [Inscrever(0, []), Inscrever(1, [])])
  const UMA_FAIXA: Estado := SalaDeDuas([0], map[X := 0], [F], [Distribuir(0, {})])
  const DUAS_FAIXAS: Estado := SalaDeDuas([0, 1], map[X := 0], [F, F], [Distribuir(0, {}), Distribuir(1, {})])
  const SEM_FAIXA: Estado := SalaDeDuas([], map[], [F], [Retirar(0, {})])
  const DE_NOVO: Estado := SalaDeDuas([1], map[X := 1], [F, F], [Retirar(0, {}), Distribuir(1, {})])

  ghost predicate Chega(s: Estado, acoes: seq<Acao>, t: Estado) {
    Executa(SFU, s, acoes) && Final(SFU, s, acoes) == t
  }

  /** Only ana is a destination of what bia publishes. */
  lemma SoAna(s: Estado)
    requires s.salas == NA_SALA
    ensures Destinos(s, "sala", "bia") == {1}
  {
    assert s.salas[("sala", "ana")] == 1;
  }

  lemma DuasEntradas()
    ensures Chega(INICIAL, [Entrar("sala", "bia"), Entrar("sala", "ana")], AS_DUAS)
  {
    hide Destinos, SemFaixa;
    var s1 := Passo(INICIAL, Entrar("sala", "bia"));
    assert s1 == Estado(map[("sala", "bia") := 0], map[], [Sessao("sala", "bia", map[], false)], [], [Inscrever(0, [])]);
    assert Passo(s1, Entrar("sala", "ana")) == AS_DUAS;
  }

  lemma PrimeiraPublicacao()
    ensures Chega(AS_DUAS, [Publicar("sala", "bia", "x", "video"), DistribuirUm(2, 1)], UMA_FAIXA)
  {
    SoAna(AS_DUAS);
    var s1 := Passo(AS_DUAS, Publicar("sala", "bia", "x", "video"));
    assert [] + [0] == [0];
    assert s1 == SalaDeDuas([0], map[], [F], [Distribuir(0, {1})]);
    assert {1} - {1} == {};
    assert Passo(s1, DistribuirUm(2, 1)) == UMA_FAIXA;
  }

  lemma SegundaPublicacao()
    ensures Chega(UMA_FAIXA, [Publicar("sala", "bia", "x", "video"), DistribuirUm(3, 1)], DUAS_FAIXAS)
  {
    SoAna(UMA_FAIXA);
    var s1 := Passo(UMA_FAIXA, Publicar("sala", "bia", "x", "video"));
    assert [0] + [1] == [0, 1];
    assert s1 == SalaDeDuas([0, 1], map[X := 0], [F, F], [Distribuir(0, {}), Distribuir(1, {1})]);
    assert {1} - {1} == {};
    assert Passo(s1, DistribuirUm(3, 1)) == DUAS_FAIXAS;
  }

  lemma SegundaPerdida()
    ensures Par(DUAS_FAIXAS, 1, 1) && !Inscrita(DUAS_FAIXAS, 1, 1) && !Esperando(DUAS_FAIXAS, 1, 1)
  {
  }

  /** One owner announces one id for two tracks on the air: the viewer never gets the second. */
  lemma ChaveRepetidaPerde() returns (acoes: seq<Acao>)
    ensures Executa(SFU, INICIAL, acoes)
    ensures var s := Final(SFU, INICIAL, acoes); Par(s, 1, 1) && !Inscrita(s, 1, 1) && !Esperando(s, 1, 1)
  {
    var a0 := [Entrar("sala", "bia"), Entrar("sala", "ana")];
    var a1 := [Publicar("sala", "bia", "x", "video"), DistribuirUm(2, 1)];
    var a2 := [Publicar("sala", "bia", "x", "video"), DistribuirUm(3, 1)];
    DuasEntradas();
    PrimeiraPublicacao();
    SegundaPublicacao();
    SegundaPerdida();
    hide Executa, Final, Passo, Pode, Par, Inscrita, Esperando;
    ExecutaConcat(SFU, INICIAL, a0, a1);
    ExecutaConcat(SFU, INICIAL, a0 + a1, a2);
    acoes := a0 + a1 + a2;
  }

  lemma Remocao()
    ensures Chega(UMA_FAIXA, [RemoverFaixa(2), RetirarDe(2, 1)], SEM_FAIXA)
  {
    SoAna(UMA_FAIXA);
    assert [0][1..] == [];
    var s1 := Passo(UMA_FAIXA, RemoverFaixa(2));
    assert s1 == SalaDeDuas([], map[X := 0], [F], [Retirar(0, {1})]);
    assert {1} - {1} == {};
    assert map[X := 0] - {X} == map[];
    assert Passo(s1, RetirarDe(2, 1)) == SEM_FAIXA;
  }

  lemma Republicacao()
    ensures PublicaLivre(SEM_FAIXA, Publicar("sala", "bia", "x", "video"))
    ensures Chega(SEM_FAIXA, [Publicar("sala", "bia", "x", "video"), DistribuirUm(3, 1)], DE_NOVO)
  {
    SoAna(SEM_FAIXA);
    var s1 := Passo(SEM_FAIXA, Publicar("sala", "bia", "x", "video"));
    assert [] + [1] == [1];
    assert s1 == SalaDeDuas([1], map[], [F, F], [Retirar(0, {}), Distribuir(1, {1})]);
    assert {1} - {1} == {};
    assert Passo(s1, DistribuirUm(3, 1)) == DE_NOVO;
  }

  lemma SegundaInscrita()
    ensures Par(DE_NOVO, 1, 1) && Inscrita(DE_NOVO, 1, 1) && DE_NOVO.criadas[0].chave == DE_NOVO.criadas[1].chave
  {
  }

  /** The same id announced again after the first track is off the air is within the guard, and the viewer gets it. */
  lemma RepublicarInscreve() returns (acoes: seq<Acao>)
    ensures Executa(SFU, INICIAL, acoes)
    ensures var s := Final(SFU, INICIAL, acoes);
            Par(s, 1, 1) && Inscrita(s, 1, 1) && s.criadas[0].chave == s.criadas[1].chave
  {
    var a0 := [Entrar("sala", "bia"), Entrar("sala", "ana")];
    var a1 := [Publicar("sala", "bia", "x", "video"), DistribuirUm(2, 1)];
    var a2 := [RemoverFaixa(2), RetirarDe(2, 1)];
    var a3 := [Publicar("sala", "bia", "x", "video"), DistribuirUm(3, 1)];
    DuasEntradas();
    PrimeiraPublicacao();
    Remocao();
    Republicacao();
    SegundaInscrita();
    hide Executa, Final, Passo, Pode, Par, Inscrita;
    ExecutaConcat(SFU, INICIAL, a0, a1);
    ExecutaConcat(SFU, INICIAL, a0 + a1, a2);
    ExecutaConcat(SFU, INICIAL, a0 + a1 + a2, a3);
    acoes := a0 + a1 + a2 + a3;
  }

  // ------------------------------------------------------------- the code itself

  /** For each id, the first of the tracks with it that peer does not own. */
  function Primeiras(criadas: seq<Faixa>, fs: seq<nat>, peer: Peer): map<Chave, nat> {
    if fs == [] then map[] else
    var antes := Primeiras(criadas, fs[..|fs| - 1], peer);
    var f := fs[|fs| - 1];
    if f >= |criadas| || criadas[f].dono == peer || criadas[f].chave in antes then antes
    else antes[criadas[f].chave := f]
  }

  predicate DeOutro(criadas: seq<Faixa>, fs: seq<nat>, peer: Peer, i: nat, chave: Chave) {
    i < |fs| && fs[i] < |criadas| && criadas[fs[i]].dono != peer && criadas[fs[i]].chave == chave
  }

  lemma {:induction false} PrimeirasNada(criadas: seq<Faixa>, fs: seq<nat>, peer: Peer)
    ensures Primeiras(criadas, fs[..0], peer) == map[]
  {
  }

  lemma {:induction false} PrimeirasMais(criadas: seq<Faixa>, fs: seq<nat>, n: nat, peer: Peer)
    requires n < |fs|
    ensures var antes := Primeiras(criadas, fs[..n], peer);
            var f := fs[n];
            Primeiras(criadas, fs[..n + 1], peer) ==
              if f >= |criadas| || criadas[f].dono == peer || criadas[f].chave in antes then antes
              else antes[criadas[f].chave := f]
  {
    assert fs[..n + 1][..n] == fs[..n];
  }

  /** The newcomer is subscribed to exactly those of the others' tracks that come first under their id. */
  lemma {:induction false} PrimeirasDizem(criadas: seq<Faixa>, fs: seq<nat>, peer: Peer, j: nat, chave: Chave)
    requires SemRepetir(fs) && DeOutro(criadas, fs, peer, j, chave)
    ensures chave in Primeiras(criadas, fs, peer)
    ensures Primeiras(criadas, fs, peer)[chave] == fs[j] <==> forall i | 0 <= i < j :: !DeOutro(criadas, fs, peer, i, chave)
  {
    var n := |fs| - 1;
    var antes := fs[..n];
    assert fs[..n + 1] == fs;
    PrimeirasMais(criadas, fs, n, peer);
    forall i | 0 <= i < n ensures DeOutro(criadas, antes, peer, i, chave) == DeOutro(criadas, fs, peer, i, chave) {
      assert antes[i] == fs[i];
    }
    if j < n {
      assert DeOutro(criadas, antes, peer, j, chave);
      PrimeirasDizem(criadas, antes, peer, j, chave);
    } else {
      PrimeirasVeem(criadas, antes, peer, chave);
    }
  }

  lemma {:induction false} PrimeirasVeem(criadas: seq<Faixa>, fs: seq<nat>, peer: Peer, chave: Chave)
    ensures chave in Primeiras(criadas, fs, peer) <==>
              exists i: nat :: DeOutro(criadas, fs, peer, i, chave)
    ensures chave in Primeiras(criadas, fs, peer) ==> Primeiras(criadas, fs, peer)[chave] in fs
  {
    if fs != [] {
      var n := |fs| - 1;
      var antes := fs[..n];
      assert fs[..n + 1] == fs;
      PrimeirasMais(criadas, fs, n, peer);
      PrimeirasVeem(criadas, antes, peer, chave);
      forall i: nat | i < n ensures DeOutro(criadas, antes, peer, i, chave) == DeOutro(criadas, fs, peer, i, chave) {
        assert antes[i] == fs[i];
      }
      if chave in Primeiras(criadas, antes, peer) {
        var i: nat :| DeOutro(criadas, antes, peer, i, chave);
        assert DeOutro(criadas, fs, peer, i, chave);
      }
      assert DeOutro(criadas, fs, peer, n, chave) ==> chave in Primeiras(criadas, fs, peer);
    }
  }

  /**
   * The SFU's maps and the bodies that use them, run without interruption. `Valid`
   * says that the object is in a state some run reaches; the goroutines of `s`
   * other than the caller's stand wherever that run left them.
   */
  class Retransmissor {
    var salas: map<(Sala, Peer), nat>
    var faixas: map<Sala, seq<nat>>
    var sessoes: seq<Sessao>
    var criadas: seq<Faixa>
    ghost var s: Estado
    ghost var trilha: seq<Acao>

    ghost predicate Valid()
      reads this
    {
      && s.salas == salas && s.faixas == faixas && s.sessoes == sessoes && s.criadas == criadas
      && Executa(SFU, INICIAL, trilha) && Final(SFU, INICIAL, trilha) == s
    }

    constructor ()
      ensures Valid() && s == INICIAL
    {
      salas, faixas, sessoes, criadas := map[], map[], [], [];
      s, trilha := INICIAL, [];
    }

    ghost method Registrar(a: Acao)
      requires Executa(SFU, INICIAL, trilha) && Final(SFU, INICIAL, trilha) == s
      requires Pode(s, a)
      modifies this`s, this`trilha
      ensures Executa(SFU, INICIAL, trilha) && Final(SFU, INICIAL, trilha) == s
      ensures s == Aplicar(old(s), a) && trilha == old(trilha) + [a]
    {
      hide Pode, Aplicar;
      ExecutaConcat(SFU, INICIAL, trilha, [a]);
      s, trilha := Passo(s, a), trilha + [a];
    }

    function FaixasDe(sala: Sala): seq<nat>
      reads this
    {
      if sala in faixas then faixas[sala] else []
    }

    lemma TudoExiste()
      requires Valid()
      ensures Base(s)
    {
      BaseSempre(trilha);
    }

    lemma PodeSeguir(i: nat, k: nat)
      requires Valid() && Tem(s, i)
      ensures s.tarefas[i].Inscrever? && s.tarefas[i].faixas != [] ==> Pode(s, InscreverUma(i))
      ensures s.tarefas[i].Distribuir? && k in s.tarefas[i].destinos ==> Pode(s, DistribuirUm(i, k))
      ensures s.tarefas[i].Retirar? && k in s.tarefas[i].destinos ==> Pode(s, RetirarDe(i, k))
      ensures s.tarefas[i].FecharSessao? ==> Pode(s, MarcarFechada(i))
    {
      TudoExiste();
      assert Referencia(s, s.tarefas[i]);
      if s.tarefas[i].Inscrever? && s.tarefas[i].faixas != [] {
        assert s.tarefas[i].faixas[0] in s.tarefas[i].faixas;
      }
    }

    /** The subscription of session k to track f, unless it is closed or has the id. */
    method AssinarFaixa(k: nat, f: nat)
      requires k < |sessoes| && f < |criadas|
      modifies this`sessoes
      ensures sessoes == old(sessoes)[k := Assinar(old(sessoes)[k], criadas[f].chave, f)]
    {
      var z := sessoes[k];
      if z.fechada { return; }
      if criadas[f].chave in z.saidas { return; }
      sessoes := sessoes[k := z.(saidas := z.saidas[criadas[f].chave := f])];
    }

    /** The newcomer replaces any session of the same peer, and holds the first track of the others under each id. */
    method EntrarNaSala(sala: Sala, peer: Peer) returns (k: nat)
      requires Valid()
      modifies this
      ensures Valid() && k == |old(sessoes)|
      ensures salas == old(salas)[(sala, peer) := k] && faixas == old(faixas) && criadas == old(criadas)
      ensures sessoes == old(sessoes) + [Sessao(sala, peer, Primeiras(criadas, FaixasDe(sala), peer), false)]
    {
      hide Executa, Final, Primeiras;
      k := |sessoes|;
      ghost var i := |s.tarefas|;
      sessoes := sessoes + [Sessao(sala, peer, map[], false)];
      salas := salas[(sala, peer) := k];
      var existentes := FaixasDe(sala);
      Registrar(Entrar(sala, peer));
      var n := 0;
      PrimeirasNada(criadas, existentes, peer);
      while n < |existentes|
        invariant Valid() && 0 <= n <= |existentes| && existentes == FaixasDe(sala)
        invariant salas == old(salas)[(sala, peer) := k] && faixas == old(faixas) && criadas == old(criadas)
        invariant sessoes == old(sessoes) + [Sessao(sala, peer, Primeiras(criadas, existentes[..n], peer), false)]
        invariant Tem(s, i) && s.tarefas[i] == Inscrever(k, existentes[n..])
      {
        PodeSeguir(i, k);
        var f := existentes[n];
        PrimeirasMais(criadas, existentes, n, peer);
        if criadas[f].dono != peer { AssinarFaixa(k, f); }
        Registrar(InscreverUma(i));
        n := n + 1;
      }
      assert existentes[..n] == existentes;
    }

    /** The track is stored, and every other member of the room present then is subscribed to it, where its id is free. */
    method AoReceberFaixa(sala: Sala, dono: Peer, anunciado: string, tipo: string) returns (f: nat)
      requires Valid()
      modifies this
      ensures Valid() && f == |old(criadas)| && salas == old(salas)
      ensures criadas == old(criadas) + [Faixa(sala, dono, ChaveDe(dono, anunciado, tipo))]
      ensures faixas == old(faixas)[sala := old(FaixasDe(sala)) + [f]] && |sessoes| == |old(sessoes)|
      ensures forall k | 0 <= k < |sessoes| ::
                sessoes[k] == if k in Destinos(s, sala, dono) then Assinar(old(sessoes)[k], criadas[f].chave, f)
                              else old(sessoes)[k]
    {
      hide Executa, Final, ChaveDe;
      f := |criadas|;
      ghost var i := |s.tarefas|;
      criadas := criadas + [Faixa(sala, dono, ChaveDe(dono, anunciado, tipo))];
      faixas := faixas[sala := FaixasDe(sala) + [f]];
      var destinos := set p | p in salas && p.0 == sala && p.1 != dono :: salas[p];
      Registrar(Publicar(sala, dono, anunciado, tipo));
      Espalhar(f, destinos, i);
      MesmosDestinos(s, old(s), sala, dono);
    }

    /** Every session of the snapshot, in any order, is given the track where its id is free. */
    method Espalhar(f: nat, alvos: set<nat>, ghost i: nat)
      requires Valid() && Tem(s, i) && s.tarefas[i] == Distribuir(f, alvos) && f < |criadas|
      modifies this
      ensures Valid() && salas == old(salas) && faixas == old(faixas) && criadas == old(criadas)
      ensures |sessoes| == |old(sessoes)|
      ensures forall k | 0 <= k < |sessoes| ::
                sessoes[k] == if k in alvos then Assinar(old(sessoes)[k], criadas[f].chave, f) else old(sessoes)[k]
    {
      hide Executa, Final, Assinar;
      var destinos := alvos;
      while destinos != {}
        invariant Valid() && salas == old(salas) && faixas == old(faixas) && criadas == old(criadas)
        invariant |sessoes| == |old(sessoes)| && destinos <= alvos
        invariant Tem(s, i) && s.tarefas[i] == Distribuir(f, destinos)
        invariant forall k | 0 <= k < |sessoes| ::
                    sessoes[k] == if k in alvos && k !in destinos then Assinar(old(sessoes)[k], criadas[f].chave, f)
                                  else old(sessoes)[k]
        decreases |destinos|
      {
        var k :| k in destinos;
        PodeSeguir(i, k);
        AssinarFaixa(k, f);
        Registrar(DistribuirUm(i, k));
        destinos := destinos - {k};
      }
    }

    /** The slice filtered in its own storage: the first m places are what is left, in order. */
    static method FiltrarNoLugar(a: array<nat>, f: nat) returns (m: nat)
      modifies a
      ensures m <= a.Length && a[..m] == SemFaixa(old(a[..]), f)
    {
      m := 0;
      var n := 0;
      while n < a.Length
        invariant 0 <= m <= n <= a.Length
        invariant a[..m] == SemFaixa(old(a[..])[..n], f)
        invariant a[n..] == old(a[..])[n..]
      {
        var atual := a[n];
        assert atual == a[n..][0] == old(a[..])[n];
        assert old(a[..])[..n + 1] == old(a[..])[..n] + [atual];
        SemFaixaMais(old(a[..])[..n], atual, f);
        if atual != f {
          a[m] := atual;
          m := m + 1;
        }
        n := n + 1;
      }
      assert old(a[..])[..n] == old(a[..]);
    }

    /** The lock section of removerFaixa: the track leaves its room and the others stay, in order. */
    method TirarDoAr(f: nat, ghost i: nat) returns (destinos: set<nat>)
      requires Valid() && Pode(s, RemoverFaixa(i)) && s.tarefas[i].faixa == f
      modifies this
      ensures Valid() && salas == old(salas) && sessoes == old(sessoes) && criadas == old(criadas)
      ensures var sala := criadas[f].sala; faixas == old(faixas)[sala := SemFaixa(old(FaixasDe(sala)), f)]
      ensures destinos == Destinos(s, criadas[f].sala, criadas[f].dono)
      ensures s.tarefas == old(s).tarefas[i := Retirar(f, destinos)]
    {
      hide Executa, Final;
      var sala, dono := criadas[f].sala, criadas[f].dono;
      var lista := FaixasDe(sala);
      var restantes := new nat[|lista|](k requires 0 <= k < |lista| => lista[k]);
      assert restantes[..] == lista;
      var m := FiltrarNoLugar(restantes, f);
      faixas := faixas[sala := restantes[..m]];
      destinos := set p | p in salas && p.0 == sala && p.1 != dono :: salas[p];
      Registrar(RemoverFaixa(i));
    }

    /** The track ends: it leaves the air and the outgoing list of everyone who was in the room. */
    method RemoverDaSala(f: nat, ghost i: nat) returns (ghost avisados: set<nat>)
      requires Valid() && Pode(s, RemoverFaixa(i)) && s.tarefas[i].faixa == f
      modifies this
      ensures Valid() && salas == old(salas) && criadas == old(criadas) && |sessoes| == |old(sessoes)|
      ensures avisados == old(Destinos(s, criadas[f].sala, criadas[f].dono))
      ensures forall k | 0 <= k < |sessoes| ::
                sessoes[k] == if k in avisados then old(sessoes)[k].(saidas := old(sessoes)[k].saidas - {criadas[f].chave})
                              else old(sessoes)[k]
    {
      hide Executa, Final, Destinos;
      var destinos := TirarDoAr(f, i);
      assert Destinos(s, criadas[f].sala, criadas[f].dono) == old(Destinos(s, criadas[f].sala, criadas[f].dono)) by {
        MesmosDestinos(s, old(s), criadas[f].sala, criadas[f].dono);
      }
      avisados := destinos;
      ghost var antes := sessoes;
      while destinos != {}
        invariant Valid() && salas == old(salas) && criadas == old(criadas) && |sessoes| == |antes|
        invariant Tem(s, i) && s.tarefas[i] == Retirar(f, destinos) && destinos <= avisados
        invariant forall k | 0 <= k < |sessoes| ::
                    sessoes[k] == if k in avisados && k !in destinos
                                  then antes[k].(saidas := antes[k].saidas - {criadas[f].chave}) else antes[k]
        decreases |destinos|
      {
        var k :| k in destinos;
        PodeSeguir(i, k);
        var z := sessoes[k];
        sessoes := sessoes[k := z.(saidas := z.saidas - {criadas[f].chave})];
        Registrar(RetirarDe(i, k));
        destinos := destinos - {k};
      }
    }

    lemma MesmosDestinos(a: Estado, b: Estado, sala: Sala, dono: Peer)
      requires a.salas == b.salas
      ensures Destinos(a, sala, dono) == Destinos(b, sala, dono)
    {
    }

    /** The peer's session leaves the room and is closed; an emptied room loses its tracks too. */
    method SairDaSala(sala: Sala, peer: Peer)
      requires Valid()
      modifies this
      ensures Valid() && salas == old(salas) - {(sala, peer)} && criadas == old(criadas)
      ensures faixas == if (exists p :: p in salas && p.0 == sala) then old(faixas) else old(faixas) - {sala}
      ensures (sala, peer) !in old(salas) ==> sessoes == old(sessoes)
      ensures (sala, peer) in old(salas) ==>
                var k := old(salas)[(sala, peer)];
                k < |old(sessoes)| && sessoes == old(sessoes)[k := old(sessoes)[k].(fechada := true)]
    {
      hide Executa, Final;
      ghost var i := |s.tarefas|;
      var chave := (sala, peer);
      var havia := chave in salas;
      var sessao := if havia then salas[chave] else 0;
      salas := salas - {chave};
      if forall p | p in salas :: p.0 != sala { faixas := faixas - {sala}; }
      Registrar(Sair(sala, peer));
      if havia { Encerrar(sessao, i); }
    }

    /** Sair's section under the session's lock. */
    method Encerrar(k: nat, ghost i: nat)
      requires Valid() && Tem(s, i) && s.tarefas[i] == FecharSessao(k)
      modifies this`sessoes, this`s, this`trilha
      ensures Valid() && k < |old(sessoes)| && sessoes == old(sessoes)[k := old(sessoes)[k].(fechada := true)]
    {
      hide Executa, Final;
      PodeSeguir(i, 0);
      sessoes := sessoes[k := sessoes[k].(fechada := true)];
      Registrar(MarcarFechada(i));
    }
  }
}
