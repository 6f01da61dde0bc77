/**
 * Room membership under every interleaving of the connections' goroutines. Each
 * peer has one goroutine, which runs joins and leaves one after another; every
 * section under the peer's lock or the hub's lock is one action.
 */
module RoomSteps {
  import opened Bytes
  import opened Runs

  type Sala = string
  type Id = string

  /** Where a peer's goroutine stands between two locked sections. */
  datatype Fase =
    | Parada
    | Saindo(sala: Sala, depois: Option<Sala>)  // p.sala cleared, still in the room's map
    | Escolhendo(sala: Sala)                    // about to set p.sala
    | Inserindo(sala: Sala)                     // p.sala set, about to enter the map
    | Rejeitada                                 // the room was full, about to clear p.sala

  /** `sala` holds each p.sala, "" when absent. */
  datatype Estado = Estado(limite: nat, salas: map<Sala, set<Id>>, sala: map<Id, Sala>, fase: map<Id, Fase>)

  function Inicial(limite: nat): Estado { Estado(limite, map[], map[], map[]) }

  datatype Acao =
    | Entrar(p: Id, sala: Sala)  // entrar: Sair's section under p.mu
    | Sair(p: Id)
    | Remover(p: Id)             // Sair's section under h.mu
    | Escolher(p: Id)
    | Inserir(p: Id)
    | Desistir(p: Id)

  function SalaDe(s: Estado, p: Id): Sala { if p in s.sala then s.sala[p] else "" }
  function FaseDe(s: Estado, p: Id): Fase { if p in s.fase then s.fase[p] else Parada }
  function Membros(s: Estado, sala: Sala): set<Id> { if sala in s.salas then s.salas[sala] else {} }

  /** A room id is never empty: blank ones are replaced by the default room. */
  predicate Pode(s: Estado, a: Acao) {
    match a
    case Entrar(p, sala) => FaseDe(s, p).Parada? && sala != ""
    case Sair(p) => FaseDe(s, p).Parada?
    case Remover(p) => FaseDe(s, p).Saindo?
    case Escolher(p) => FaseDe(s, p).Escolhendo?
    case Inserir(p) => FaseDe(s, p).Inserindo?
    case Desistir(p) => FaseDe(s, p).Rejeitada?
  }

  function Depois(proxima: Option<Sala>): Fase {
    if proxima.Some? then Escolhendo(proxima.value) else Parada
  }

  function ComecarSaida(s: Estado, p: Id, proxima: Option<Sala>): Estado {
    var sala := SalaDe(s, p);
    s.(sala := s.sala[p := ""],
       fase := s.fase[p := if sala == "" then Depois(proxima) else Saindo(sala, proxima)])
  }

  function Aplicar(s: Estado, a: Acao): Estado
    requires Pode(s, a)
  {
    match a
    case Entrar(p, sala) => ComecarSaida(s, p, Some(sala))
    case Sair(p) => ComecarSaida(s, p, None)
    case Remover(p) =>
      var f := FaseDe(s, p);
      var t := s.(fase := s.fase[p := Depois(f.depois)]);
      if f.sala !in s.salas then t else
      var restantes := s.salas[f.sala] - {p};
      t.(salas := if restantes == {} then s.salas - {f.sala} else s.salas[f.sala := restantes])
    case Escolher(p) =>
      var sala := FaseDe(s, p).sala;
      s.(sala := s.sala[p := sala], fase := s.fase[p := Inserindo(sala)])
    case Inserir(p) =>
      var sala := FaseDe(s, p).sala;
      if |Membros(s, sala)| >= s.limite then s.(fase := s.fase[p := Rejeitada])
      else s.(salas := s.salas[sala := Membros(s, sala) + {p}], fase := s.fase[p := Parada])
    case Desistir(p) => s.(sala := s.sala[p := ""], fase := s.fase[p := Parada])
  }

  function Passo(s: Estado, a: Acao): Estado {
    if Pode(s, a) then Aplicar(s, a) else s
  }

  const SALAS: Sistema<Estado, Acao> := Sistema(Pode, Passo)

  /** The peer's goroutine accounts for its membership in the room. */
  predicate Responde(s: Estado, p: Id, sala: Sala) {
    || (FaseDe(s, p).Parada? && SalaDe(s, p) == sala)
    || (FaseDe(s, p).Saindo? && FaseDe(s, p).sala == sala)
  }

  /** What a peer's goroutine knows between its sections. */
  predicate FaseCoerente(s: Estado, p: Id) {
    var f := FaseDe(s, p);
    && (f.Saindo? || f.Escolhendo? || f.Inserindo? ==> f.sala != "")
    && (f.Saindo? && f.depois.Some? ==> f.depois.value != "")
    && (f.Saindo? || f.Escolhendo? ==> SalaDe(s, p) == "")
    && (f.Inserindo? ==> SalaDe(s, p) == f.sala)
  }

  predicate MembroCoerente(s: Estado, p: Id, sala: Sala) {
    p in Membros(s, sala) <==> sala != "" && Responde(s, p, sala)
  }

  ghost predicate SalasBoas(s: Estado) {
    && s.limite >= 1
    && forall sala | sala in s.salas :: s.salas[sala] != {} && |s.salas[sala]| <= s.limite
  }

  ghost predicate Inv(s: Estado) {
    && SalasBoas(s)
    && (forall p :: FaseCoerente(s, p))
    && (forall p, sala :: MembroCoerente(s, p, sala))
  }

  lemma TirarUm(m: set<Id>, p: Id)
    ensures |m - {p}| <= |m|
  {
    if p in m { assert |m - {p}| == |m| - 1; } else { assert m - {p} == m; }
  }

  lemma SalasMantidas(s: Estado, a: Acao)
    requires SalasBoas(s) && Pode(s, a)
    ensures SalasBoas(Passo(s, a))
  {
    if a.Remover? { TirarUm(Membros(s, FaseDe(s, a.p).sala), a.p); }
  }

  lemma FaseMantida(s: Estado, a: Acao, p: Id)
    requires FaseCoerente(s, p) && Pode(s, a)
    ensures FaseCoerente(Passo(s, a), p)
  {
    if a.p != p { OutrosIguais(s, a, p); }
  }

  /** A step moves its own peer and nobody else. */
  lemma OutrosIguais(s: Estado, a: Acao, p: Id)
    requires Pode(s, a) && a.p != p
    ensures FaseDe(Passo(s, a), p) == FaseDe(s, p) && SalaDe(Passo(s, a), p) == SalaDe(s, p)
  {
  }

  lemma OutrosFicam(s: Estado, a: Acao, p: Id, sala: Sala)
    requires Pode(s, a) && a.p != p
    ensures p in Membros(Passo(s, a), sala) <==> p in Membros(s, sala)
  {
  }

  lemma MembroProprio(s: Estado, a: Acao, sala: Sala)
    requires FaseCoerente(s, a.p) && MembroCoerente(s, a.p, sala) && Pode(s, a)
    requires FaseDe(s, a.p).Saindo? ==> MembroCoerente(s, a.p, FaseDe(s, a.p).sala)
    ensures MembroCoerente(Passo(s, a), a.p, sala)
  {
    if a.Remover? { MembroRemovido(s, a.p, sala); } else if a.Inserir? { MembroInserido(s, a.p, sala); }
  }

  lemma MembroRemovido(s: Estado, p: Id, sala: Sala)
    requires FaseCoerente(s, p) && MembroCoerente(s, p, sala) && Pode(s, Remover(p))
    requires MembroCoerente(s, p, FaseDe(s, p).sala)
    ensures MembroCoerente(Passo(s, Remover(p)), p, sala)
  {
  }

  lemma MembroInserido(s: Estado, p: Id, sala: Sala)
    requires FaseCoerente(s, p) && MembroCoerente(s, p, sala) && Pode(s, Inserir(p))
    ensures MembroCoerente(Passo(s, Inserir(p)), p, sala)
  {
  }

  lemma MembroMantido(s: Estado, a: Acao, p: Id, sala: Sala)
    requires FaseCoerente(s, p) && MembroCoerente(s, p, sala) && Pode(s, a)
    requires FaseDe(s, a.p).Saindo? ==> MembroCoerente(s, a.p, FaseDe(s, a.p).sala)
    ensures MembroCoerente(Passo(s, a), p, sala)
  {
    hide Passo, Pode, FaseDe, SalaDe, Membros, FaseCoerente;
    if a.p == p {
      MembroProprio(s, a, sala);
    } else {
      OutrosIguais(s, a, p);
      OutrosFicam(s, a, p, sala);
    }
  }

  lemma InvPasso(s: Estado, a: Acao)
    requires Inv(s) && Pode(s, a)
    ensures Inv(Passo(s, a))
  {
    var t := Passo(s, a);
    hide Passo, Pode, FaseCoerente, MembroCoerente, SalasBoas;
    SalasMantidas(s, a);
    forall p ensures FaseCoerente(t, p) { FaseMantida(s, a, p); }
    forall p, sala ensures MembroCoerente(t, p, sala) {
      if FaseDe(s, a.p).Saindo? { assert MembroCoerente(s, a.p, FaseDe(s, a.p).sala); }
      MembroMantido(s, a, p, sala);
    }
  }

  lemma {:induction false} InvSempre(limite: nat, acoes: seq<Acao>)
    requires limite >= 1 && Executa(SALAS, Inicial(limite), acoes)
    ensures Inv(Final(SALAS, Inicial(limite), acoes))
  {
    assert Inv(Inicial(limite));
    hide Inv, Passo, Pode;
    forall s, a | Inv(s) && SALAS.pode(s, a) ensures Inv(SALAS.passo(s, a)) { InvPasso(s, a); }
    Sempre(SALAS, Inv, Inicial(limite), acoes);
  }

  lemma {:induction false} LimiteConstante(s: Estado, acoes: seq<Acao>)
    requires Executa(SALAS, s, acoes)
    ensures Final(SALAS, s, acoes).limite == s.limite
  {
    var inv := (u: Estado) => u.limite == s.limite;
    Sempre(SALAS, inv, s, acoes);
  }

  /**
   * Membership in every interleaving: a peer is in at most one room's map; it is
   * in one exactly when its p.sala names the room and it is not mid-join, or it is
   * between the two sections of leaving that room; no room is empty outside the
   * lock and none passes the limit.
   */
  lemma {:induction false} MembrosSempre(limite: nat, acoes: seq<Acao>, p: Id, a: Sala, b: Sala)
    requires limite >= 1 && Executa(SALAS, Inicial(limite), acoes)
    ensures var s := Final(SALAS, Inicial(limite), acoes);
            && (p in Membros(s, a) && p in Membros(s, b) ==> a == b)
            && (p in Membros(s, a) <==> a != "" && Responde(s, p, a))
            && (p in Membros(s, a) ==> SalaDe(s, p) == a || FaseDe(s, p).Saindo?)
            && (a in s.salas ==> s.salas[a] != {} && |s.salas[a]| <= limite)
  {
    InvSempre(limite, acoes);
    LimiteConstante(Inicial(limite), acoes);
    var s := Final(SALAS, Inicial(limite), acoes);
    assert MembroCoerente(s, p, a) && MembroCoerente(s, p, b) && FaseCoerente(s, p);
  }

  /** When Sair takes the hub's lock, the room is there and the peer is in it. */
  lemma {:induction false} SaidaEncontraASala(limite: nat, acoes: seq<Acao>, p: Id)
    requires limite >= 1 && Executa(SALAS, Inicial(limite), acoes)
    requires FaseDe(Final(SALAS, Inicial(limite), acoes), p).Saindo?
    ensures var s := Final(SALAS, Inicial(limite), acoes);
            var sala := FaseDe(s, p).sala;
            sala in s.salas && p in s.salas[sala]
  {
    InvSempre(limite, acoes);
    var s := Final(SALAS, Inicial(limite), acoes);
    assert FaseCoerente(s, p) && MembroCoerente(s, p, FaseDe(s, p).sala);
  }

  /**
   * A place is taken exactly when the room has one at the moment the goroutine takes
   * the hub's lock, whatever ran before; otherwise the peer is about to clear p.sala.
   */
  lemma {:induction false} EntraSeHaLugar(limite: nat, acoes: seq<Acao>, p: Id)
    requires limite >= 1 && Executa(SALAS, Inicial(limite), acoes)
    requires Pode(Final(SALAS, Inicial(limite), acoes), Inserir(p))
    ensures var s := Final(SALAS, Inicial(limite), acoes);
            var t := Passo(s, Inserir(p));
            var sala := SalaDe(s, p);
            && sala != "" && p !in Membros(s, sala)
            && (|Membros(s, sala)| < limite ==>
                  Membros(t, sala) == Membros(s, sala) + {p} && SalaDe(t, p) == sala && FaseDe(t, p) == Parada)
            && (|Membros(s, sala)| >= limite ==>
                  t.salas == s.salas && Pode(t, Desistir(p)) && SalaDe(Passo(t, Desistir(p)), p) == ""
                  && FaseDe(Passo(t, Desistir(p)), p) == Parada)
  {
    InvSempre(limite, acoes);
    LimiteConstante(Inicial(limite), acoes);
    var s := Final(SALAS, Inicial(limite), acoes);
    assert FaseCoerente(s, p) && MembroCoerente(s, p, SalaDe(s, p));
  }

  function Resta(f: Fase): nat {
    if f.Saindo? then (if f.depois.Some? then 4 else 1)
    else if f.Escolhendo? then 3
    else if f.Inserindo? then 2
    else if f.Rejeitada? then 1 else 0
  }

  /** A peer's goroutine that moves on without being handed another message. */
  predicate Segue(a: Acao, p: Id) { !a.Entrar? && !a.Sair? && a.p == p }

  function Seguiu(p: Id): (Estado, Acao) -> int { (s: Estado, a: Acao) => if Segue(a, p) then 1 else 0 }

  lemma RestaPasso(s: Estado, a: Acao, p: Id)
    requires Pode(s, a)
    ensures Segue(a, p) ==> Resta(FaseDe(Passo(s, a), p)) < Resta(FaseDe(s, p))
    ensures a.p != p ==> Resta(FaseDe(Passo(s, a), p)) == Resta(FaseDe(s, p))
    ensures a.p == p && a.Entrar? ==> Resta(FaseDe(Passo(s, a), p)) >= 3
  {
    if a.p != p { OutrosIguais(s, a, p); }
  }

  /**
   * Nobody is stuck: whatever the others do, a goroutine in the middle of a join or a
   * leave has at most four sections to go, and a step to take while it has any.
   */
  lemma {:induction false} TodosSeguem(s: Estado, acoes: seq<Acao>, p: Id)
    requires Executa(SALAS, s, acoes) && forall k | 0 <= k < |acoes| :: acoes[k].p == p ==> Segue(acoes[k], p)
    ensures Quanto(SALAS, Seguiu(p), s, acoes) + Resta(FaseDe(Final(SALAS, s, acoes), p)) <= Resta(FaseDe(s, p)) <= 4
    ensures FaseDe(s, p) != Parada ==> exists a :: Segue(a, p) && Pode(s, a)
    decreases |acoes|
  {
    UmPassoHa(s, p);
    if acoes != [] {
      RestaPasso(s, acoes[0], p);
      hide Passo, Pode, Resta;
      TodosSeguem(Passo(s, acoes[0]), acoes[1..], p);
    }
  }

  lemma UmPassoHa(s: Estado, p: Id)
    ensures FaseDe(s, p) != Parada ==> exists a :: Segue(a, p) && Pode(s, a)
  {
    var f := FaseDe(s, p);
    var a := if f.Saindo? then Remover(p) else if f.Escolhendo? then Escolher(p)
             else if f.Inserindo? then Inserir(p) else Desistir(p);
    assert f != Parada ==> Segue(a, p) && Pode(s, a);
  }
}
