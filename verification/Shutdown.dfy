/**
 * The server's slots, its registry of connections and its shutdown, under every
 * interleaving of any number of WebSocket handlers, their writers, and calls of
 * Fechar. A connection is named by the handler that accepted it.
 */
module Shutdown {
  import opened Runs
  import opened Sums

  /** Where a handler stands: what it does next. */
  datatype Passagem =
    | Chegou                   // the select on the slots
    | Apertando                // the handshake
    | Aceita                   // the section that checks `encerrando`
    | FechandoTarde            // refused by it: conexao.Fechar
    | FechandoSocket           // ... then the socket
    | Registrada               // start the writer
    | Atendendo                // the read loop
    | Saindo                   // deferred conexao.Fechar, after the hub's Sair
    | Removendo                // deferred delete from the registry
    | Liberando(aceita: bool)  // deferred release of the slot
    | Fim(aceita: bool)
    | Recusado                 // no slot was free

  /** `fechada`: Conn.Fechar was called; `socket`: the socket was closed; `escritor`: its writer runs. */
  datatype Handler = Handler(em: Passagem, fechada: bool, socket: bool, escritor: bool)

  /** A call of Servidor.Fechar. */
  datatype Fechador =
    | Comecando
    | Fechando(lista: set<nat>)
    | FechandoRede(c: nat, lista: set<nat>)
    | Terminou

  datatype Estado = Estado(
    capacidade: nat,
    vagas: int,
    conexoes: set<nat>,
    encerrando: bool,
    handlers: seq<Handler>,
    fechadores: seq<Fechador>)

  function Inicial(capacidade: nat): Estado { Estado(capacidade, 0, {}, false, [], []) }

  datatype Acao =
    | Chegar
    | Avancar(i: nat, certo: bool)  // `certo`: the handshake succeeds
    | CairPorFora(i: nat)           // Conn.Fechar from elsewhere, as when its queue is full
    | EscritorSai(i: nat)           // the writer stops and closes the socket
    | Encerrar                      // Fechar is called
    | Listar(j: nat)                // Fechar's section under the lock
    | FecharUm(j: nat, c: nat)
    | FecharRede(j: nat)
    | Terminar(j: nat)

  function Novo(): Handler { Handler(Chegou, false, false, false) }

  predicate Terminal(p: Passagem) { p.Fim? || p.Recusado? }

  predicate Pode(s: Estado, a: Acao) {
    match a
    case Chegar => true
    case Avancar(i, _) => i < |s.handlers| && !Terminal(s.handlers[i].em)
    case CairPorFora(i) => i < |s.handlers| && s.handlers[i].escritor
    case EscritorSai(i) => i < |s.handlers| && s.handlers[i].escritor && s.handlers[i].fechada
    case Encerrar => true
    case Listar(j) => j < |s.fechadores| && s.fechadores[j].Comecando?
    case FecharUm(j, c) => j < |s.fechadores| && s.fechadores[j].Fechando? && c in s.fechadores[j].lista
    case FecharRede(j) => j < |s.fechadores| && s.fechadores[j].FechandoRede?
    case Terminar(j) => j < |s.fechadores| && s.fechadores[j] == Fechando({})
  }

  /** Conn.Fechar, or the closing of the socket, on the connection of handler c. */
  function Fechou(hs: seq<Handler>, c: nat): seq<Handler> {
    if c < |hs| then hs[c := hs[c].(fechada := true)] else hs
  }

  function FechouSocket(hs: seq<Handler>, c: nat): seq<Handler> {
    if c < |hs| then hs[c := hs[c].(socket := true)] else hs
  }

  /** The handler after its next step. */
  function Avancou(h: Handler, haVaga: bool, encerrando: bool, certo: bool): Handler {
    match h.em
    case Chegou => h.(em := if haVaga then Apertando else Recusado)
    case Apertando => h.(em := if certo then Aceita else Liberando(false))
    case Aceita => h.(em := if encerrando then FechandoTarde else Registrada)
    case FechandoTarde => h.(em := FechandoSocket, fechada := true)
    case FechandoSocket => h.(em := Liberando(true), socket := true)
    case Registrada => h.(em := Atendendo, escritor := true)
    case Atendendo => h.(em := Saindo)
    case Saindo => h.(em := Removendo, fechada := true)
    case Removendo => h.(em := Liberando(true))
    case Liberando(aceita) => h.(em := Fim(aceita))
    case Fim(_) => h
    case Recusado => h
  }

  /** ... and what it does to the slots and the registry. */
  function AplicarAvanco(s: Estado, i: nat, certo: bool): Estado
    requires i < |s.handlers|
  {
    var h := s.handlers[i];
    var t := s.(handlers := s.handlers[i := Avancou(h, s.vagas < s.capacidade, s.encerrando, certo)]);
    match h.em
    case Chegou => t.(vagas := if s.vagas < s.capacidade then s.vagas + 1 else s.vagas)
    case Aceita => t.(conexoes := if s.encerrando then s.conexoes else s.conexoes + {i})
    case Removendo => t.(conexoes := s.conexoes - {i})
    case Liberando(_) => t.(vagas := s.vagas - 1)
    case _ => t
  }

  function Trocar(s: Estado, i: nat, h: Handler): Estado
    requires i < |s.handlers|
  {
    s.(handlers := s.handlers[i := h])
  }

  function Estagio(s: Estado, j: nat, f: Fechador): Estado
    requires j < |s.fechadores|
  {
    s.(fechadores := s.fechadores[j := f])
  }

  function Passo(s: Estado, a: Acao): Estado {
    if !Pode(s, a) then s else
    match a
    case Chegar => s.(handlers := s.handlers + [Novo()])
    case Avancar(i, certo) => AplicarAvanco(s, i, certo)
    case CairPorFora(i) => Trocar(s, i, s.handlers[i].(fechada := true))
    case EscritorSai(i) => Trocar(s, i, s.handlers[i].(escritor := false, socket := true))
    case Encerrar => s.(fechadores := s.fechadores + [Comecando])
    case Listar(j) => Estagio(s.(encerrando := true), j, Fechando(s.conexoes))
    case FecharUm(j, c) =>
      Estagio(s.(handlers := Fechou(s.handlers, c)), j, FechandoRede(c, s.fechadores[j].lista - {c}))
    case FecharRede(j) =>
      Estagio(s.(handlers := FechouSocket(s.handlers, s.fechadores[j].c)), j, Fechando(s.fechadores[j].lista))
    case Terminar(j) => Estagio(s, j, Terminou)
  }

  const SERVIDOR: Sistema<Estado, Acao> := Sistema(Pode, Passo)

  // ------------------------------------------------------------ what is kept

  function Ocupa(h: Handler): nat { if h.em.Chegou? || Terminal(h.em) then 0 else 1 }

  predicate NoRegistro(h: Handler) { h.em.Registrada? || h.em.Atendendo? || h.em.Saindo? || h.em.Removendo? }

  predicate FoiAceita(h: Handler) {
    || h.em.Aceita? || h.em.FechandoTarde? || h.em.FechandoSocket? || NoRegistro(h)
    || h.em == Liberando(true) || h.em == Fim(true)
  }

  /** The connection of a handler that is past its own closing is closed, and its socket is or will be. */
  predicate HandlerCoerente(h: Handler) {
    && (JaFechou(h.em) ==> h.fechada)
    && (TeveEscritor(h.em) ==> h.socket || h.escritor)
    && (!JaFechou(h.em) && !TeveEscritor(h.em) ==> !h.escritor)
  }

  predicate JaFechou(p: Passagem) { p.FechandoSocket? || p.Removendo? || p == Liberando(true) || p == Fim(true) }

  predicate TeveEscritor(p: Passagem) {
    p.Atendendo? || p.Saindo? || p.Removendo? || p == Liberando(true) || p == Fim(true)
  }

  predicate RegistroCoerente(s: Estado, i: nat) {
    i in s.conexoes <==> i < |s.handlers| && NoRegistro(s.handlers[i])
  }

  /** What a closer has still to close. */
  function Faltam(f: Fechador): set<nat> {
    if f.Fechando? then f.lista else if f.FechandoRede? then f.lista + {f.c} else {}
  }

  predicate Fechada(h: Handler) { h.fechada && h.socket }

  predicate FechadorCoerente(s: Estado, f: Fechador, i: nat) {
    && (i in Faltam(f) ==> i < |s.handlers|)
    && (f.FechandoRede? && i == f.c && i < |s.handlers| ==> s.handlers[i].fechada)
    && (!f.Comecando? && i < |s.handlers| && NoRegistro(s.handlers[i]) ==>
          i in Faltam(f) || Fechada(s.handlers[i]))
  }

  ghost predicate Vagas(s: Estado) {
    s.vagas == Soma(s.handlers, Ocupa) && s.vagas <= s.capacidade
  }

  ghost predicate Inv(s: Estado) {
    && Vagas(s)
    && (forall i | 0 <= i < |s.handlers| :: HandlerCoerente(s.handlers[i]))
    && (forall i: nat :: RegistroCoerente(s, i))
    && (forall j | 0 <= j < |s.fechadores| :: !s.fechadores[j].Comecando? ==> s.encerrando)
    && (forall j, i: nat | 0 <= j < |s.fechadores| :: FechadorCoerente(s, s.fechadores[j], i))
  }

  lemma InvVagas(s: Estado, a: Acao)
    requires Vagas(s) && Pode(s, a)
    ensures Vagas(Passo(s, a)) && Passo(s, a).capacidade == s.capacidade
  {
    hide Soma;
    var t := Passo(s, a);
    if a.Chegar? {
      SomaMais(s.handlers, Novo(), Ocupa);
    } else if a.Avancar? || a.CairPorFora? || a.EscritorSai? {
      SomaTroca(s.handlers, a.i, t.handlers[a.i], Ocupa);
    } else if a.FecharUm? && a.c < |s.handlers| {
      SomaTroca(s.handlers, a.c, t.handlers[a.c], Ocupa);
    } else if a.FecharRede? && s.fechadores[a.j].c < |s.handlers| {
      SomaTroca(s.handlers, s.fechadores[a.j].c, t.handlers[s.fechadores[a.j].c], Ocupa);
    }
  }

  lemma HandlerAvanca(h: Handler, haVaga: bool, encerrando: bool, certo: bool)
    requires HandlerCoerente(h)
    ensures HandlerCoerente(Avancou(h, haVaga, encerrando, certo))
  {
  }

  lemma HandlerMarcado(h: Handler)
    requires HandlerCoerente(h)
    ensures HandlerCoerente(h.(fechada := true)) && HandlerCoerente(h.(socket := true))
    ensures HandlerCoerente(h.(escritor := false, socket := true))
  {
  }

  lemma InvHandler(s: Estado, a: Acao, i: nat)
    requires Pode(s, a) && i < |Passo(s, a).handlers|
    requires i < |s.handlers| ==> HandlerCoerente(s.handlers[i])
    ensures HandlerCoerente(Passo(s, a).handlers[i])
  {
    hide HandlerCoerente, Avancou;
    if i < |s.handlers| {
      HandlerMarcado(s.handlers[i]);
      if a.Avancar? { HandlerAvanca(s.handlers[i], s.vagas < s.capacidade, s.encerrando, a.certo); }
    } else {
      NovoCoerente();
    }
  }

  lemma NovoCoerente()
    ensures HandlerCoerente(Novo())
  {
  }

  lemma RegistroAvanca(s: Estado, i: nat, certo: bool)
    requires i < |s.handlers| && RegistroCoerente(s, i)
    ensures RegistroCoerente(AplicarAvanco(s, i, certo), i)
  {
  }

  lemma InvRegistro(s: Estado, a: Acao, i: nat)
    requires Pode(s, a) && RegistroCoerente(s, i)
    ensures RegistroCoerente(Passo(s, a), i)
  {
    hide Avancou;
    if a.Avancar? && a.i == i {
      RegistroAvanca(s, i, a.certo);
    } else {
      assert i < |s.handlers| ==> Passo(s, a).handlers[i].em == s.handlers[i].em;
    }
  }

  lemma InvFechador(s: Estado, a: Acao, j: nat, i: nat)
    requires Pode(s, a) && j < |Passo(s, a).fechadores|
    requires RegistroCoerente(s, i) && (i < |s.handlers| ==> HandlerCoerente(s.handlers[i]))
    requires j < |s.fechadores| ==> FechadorCoerente(s, s.fechadores[j], i)
    requires j < |s.fechadores| && !s.fechadores[j].Comecando? ==> s.encerrando
    ensures FechadorCoerente(Passo(s, a), Passo(s, a).fechadores[j], i)
  {
  }

  lemma InvEncerrando(s: Estado, a: Acao, j: nat)
    requires Pode(s, a) && j < |Passo(s, a).fechadores|
    requires j < |s.fechadores| && !s.fechadores[j].Comecando? ==> s.encerrando
    ensures !Passo(s, a).fechadores[j].Comecando? ==> Passo(s, a).encerrando
  {
  }

  lemma InvPasso(s: Estado, a: Acao)
    requires Inv(s) && Pode(s, a)
    ensures Inv(Passo(s, a))
  {
    hide Passo, Pode, Vagas, HandlerCoerente, RegistroCoerente, FechadorCoerente;
    var t := Passo(s, a);
    InvVagas(s, a);
    forall i | 0 <= i < |t.handlers| ensures HandlerCoerente(t.handlers[i]) { InvHandler(s, a, i); }
    forall i: nat ensures RegistroCoerente(t, i) { InvRegistro(s, a, i); }
    forall j, i: nat | 0 <= j < |t.fechadores|
      ensures FechadorCoerente(t, t.fechadores[j], i)
    {
      InvFechador(s, a, j, i);
    }
    forall j | 0 <= j < |t.fechadores| ensures !t.fechadores[j].Comecando? ==> t.encerrando { InvEncerrando(s, a, j); }
  }

  lemma {:induction false} InvSempre(capacidade: nat, acoes: seq<Acao>)
    requires Executa(SERVIDOR, Inicial(capacidade), acoes)
    ensures Inv(Final(SERVIDOR, Inicial(capacidade), acoes))
    ensures Final(SERVIDOR, Inicial(capacidade), acoes).capacidade == capacidade
  {
    var inv := (s: Estado) => Inv(s) && s.capacidade == capacidade;
    assert inv(Inicial(capacidade));
    hide Inv, Passo, Pode;
    forall s, a | inv(s) && SERVIDOR.pode(s, a) ensures inv(SERVIDOR.passo(s, a)) {
      InvPasso(s, a);
      CapacidadeFica(s, a);
    }
    Sempre(SERVIDOR, inv, Inicial(capacidade), acoes);
  }

  lemma CapacidadeFica(s: Estado, a: Acao)
    ensures Passo(s, a).capacidade == s.capacidade
  {
  }

  // ------------------------------------------------------------- main results

  /** Occupied slots are the handlers that hold one, never more than there are. */
  lemma {:induction false} VagasExatas(capacidade: nat, acoes: seq<Acao>)
    requires Executa(SERVIDOR, Inicial(capacidade), acoes)
    ensures var s := Final(SERVIDOR, Inicial(capacidade), acoes);
            0 <= s.vagas <= capacidade && s.vagas == Soma(s.handlers, Ocupa)
  {
    InvSempre(capacidade, acoes);
  }

  /**
   * Once a call of Fechar has been through its list, every connection ever
   * accepted is closed, with its socket closed or about to be by its writer; or its
   * handler has yet to look at `encerrando`, or looked and is closing it.
   */
  lemma {:induction false} NinguemEscapa(capacidade: nat, acoes: seq<Acao>, j: nat, i: nat)
    requires Executa(SERVIDOR, Inicial(capacidade), acoes)
    requires var s := Final(SERVIDOR, Inicial(capacidade), acoes);
             && j < |s.fechadores| && s.fechadores[j].Terminou?
             && i < |s.handlers| && FoiAceita(s.handlers[i])
    ensures var s := Final(SERVIDOR, Inicial(capacidade), acoes);
            var h := s.handlers[i];
            || (h.fechada && (h.socket || h.escritor))
            || (s.encerrando && (h.em.Aceita? || h.em.FechandoTarde? || h.em.FechandoSocket?))
  {
    InvSempre(capacidade, acoes);
    var s := Final(SERVIDOR, Inicial(capacidade), acoes);
    assert FechadorCoerente(s, s.fechadores[j], i) && HandlerCoerente(s.handlers[i]);
  }

  /** When no handler is left running, nothing is held: no slot, no entry, and no connection still open. */
  lemma {:induction false} FimSemSobras(capacidade: nat, acoes: seq<Acao>)
    requires Executa(SERVIDOR, Inicial(capacidade), acoes)
    requires var s := Final(SERVIDOR, Inicial(capacidade), acoes);
             forall i | 0 <= i < |s.handlers| :: Terminal(s.handlers[i].em)
    ensures var s := Final(SERVIDOR, Inicial(capacidade), acoes);
            && s.vagas == 0 && s.conexoes == {}
            && forall i | 0 <= i < |s.handlers| && FoiAceita(s.handlers[i]) ::
                 s.handlers[i].fechada && (s.handlers[i].socket || s.handlers[i].escritor)
  {
    InvSempre(capacidade, acoes);
    var s := Final(SERVIDOR, Inicial(capacidade), acoes);
    SomaZero(s.handlers, Ocupa);
    forall i: nat ensures i !in s.conexoes { assert RegistroCoerente(s, i); }
    forall i | 0 <= i < |s.handlers| && FoiAceita(s.handlers[i])
      ensures s.handlers[i].fechada && (s.handlers[i].socket || s.handlers[i].escritor)
    {
      assert HandlerCoerente(s.handlers[i]);
    }
  }

  /** Nothing enters the registry once Fechar has taken its list. */
  lemma {:induction false} EncerrandoNaoRegistra(s: Estado, acoes: seq<Acao>)
    requires s.encerrando && Executa(SERVIDOR, s, acoes)
    ensures Final(SERVIDOR, s, acoes).encerrando && Final(SERVIDOR, s, acoes).conexoes <= s.conexoes
  {
    var inv := (u: Estado) => u.encerrando && u.conexoes <= s.conexoes;
    hide Passo, Pode;
    forall u, a | inv(u) && SERVIDOR.pode(u, a) ensures inv(SERVIDOR.passo(u, a)) { SoDiminui(u, a); }
    Sempre(SERVIDOR, inv, s, acoes);
  }

  lemma SoDiminui(u: Estado, a: Acao)
    requires u.encerrando && Pode(u, a)
    ensures Passo(u, a).encerrando && Passo(u, a).conexoes <= u.conexoes
  {
  }

  // ------------------------------------------------------------- the code itself

  datatype Resposta = ServidorCheio | HandshakeInvalido | Encerrado | Atendido

  /**
   * The server's fields; `fechadas` and `semSocket` are the connections whose
   * Fechar was called and whose socket was closed. `Valid` says that the object is
   * in a state some interleaving reaches.
   */
  class Servidor {
    const capacidade: nat
    var vagas: int
    var conexoes: set<nat>
    var encerrando: bool
    var fechadas: set<nat>
    var semSocket: set<nat>
    var chegadas: nat  // handlers so far; the next one's number names its connection
    ghost var s: Estado
    ghost var trilha: seq<Acao>

    ghost predicate Espelha(e: Estado)
      reads this
    {
      && vagas == e.vagas && conexoes == e.conexoes && encerrando == e.encerrando && capacidade == e.capacidade
      && chegadas == |e.handlers|
      && (forall i: nat :: i in fechadas <==> i < |e.handlers| && e.handlers[i].fechada)
      && (forall i: nat :: i in semSocket <==> i < |e.handlers| && e.handlers[i].socket)
    }

    ghost predicate Trilhado()
      reads this`s, this`trilha
    {
      Executa(SERVIDOR, Inicial(capacidade), trilha) && Final(SERVIDOR, Inicial(capacidade), trilha) == s
    }

    ghost predicate Valid()
      reads this
    {
      Espelha(s) && Trilhado()
    }

    constructor (capacidade: nat)
      ensures Valid() && s == Inicial(capacidade) && this.capacidade == capacidade
    {
      this.capacidade := capacidade;
      vagas, conexoes, encerrando, fechadas, semSocket, chegadas := 0, {}, false, {}, {}, 0;
      s, trilha := Inicial(capacidade), [];
    }

    ghost method Registrar(a: Acao)
      requires Trilhado() && Pode(s, a)
      modifies this`s, this`trilha
      ensures Trilhado() && s == Passo(old(s), a)
    {
      hide Pode, Passo;
      ExecutaConcat(SERVIDOR, Inicial(capacidade), trilha, [a]);
      s, trilha := Passo(s, a), trilha + [a];
    }

    lemma Invariante()
      requires Trilhado()
      ensures Inv(s)
    {
      InvSempre(capacidade, trilha);
    }

    /** Conn.Fechar and the socket's Close, for one connection of the list. */
    method FecharConexao(c: nat, ghost j: nat, ghost lista: set<nat>)
      requires Valid() && j < |s.fechadores| && s.fechadores[j] == Fechando(lista) && c in lista
      modifies this`fechadas, this`semSocket, this`s, this`trilha
      ensures Valid() && |s.fechadores| == |old(s).fechadores| && s.fechadores[j] == Fechando(lista - {c})
      ensures fechadas == old(fechadas) + {c} && semSocket == old(semSocket) + {c}
    {
      hide Executa, Final;
      Invariante();
      assert FechadorCoerente(s, s.fechadores[j], c);
      Registrar(FecharUm(j, c));
      fechadas := fechadas + {c};
      Registrar(FecharRede(j));
      semSocket := semSocket + {c};
    }

    /** Fechar's section under the lock. */
    method Encerrar() returns (lista: set<nat>, ghost j: nat)
      requires Valid()
      modifies this`encerrando, this`s, this`trilha
      ensures Valid() && encerrando && lista == conexoes
      ensures j == |old(s).fechadores| && |s.fechadores| == j + 1 && s.fechadores[j] == Fechando(lista)
    {
      hide Trilhado, Inv;
      j := |s.fechadores|;
      Registrar(Acao.Encerrar);
      Registrar(Listar(j));
      encerrando := true;
      lista := conexoes;
    }

    /** Closes what is registered, and nothing else. */
    method Fechar()
      requires Valid()
      modifies this
      ensures Valid() && encerrando && conexoes == old(conexoes) && vagas == old(vagas)
      ensures fechadas == old(fechadas + conexoes) && semSocket == old(semSocket + conexoes)
      ensures |s.fechadores| == |old(s).fechadores| + 1 && s.fechadores[|old(s).fechadores|].Terminou?
    {
      hide Espelha, Trilhado, Inv;
      var lista, j := Encerrar();
      while lista != {}
        invariant Valid() && lista <= conexoes && encerrando && conexoes == old(conexoes) && vagas == old(vagas)
        invariant |s.fechadores| == j + 1 && s.fechadores[j] == Fechando(lista)
        invariant fechadas == old(fechadas) + (conexoes - lista) && semSocket == old(semSocket) + (conexoes - lista)
      {
        var c :| c in lista;
        FecharConexao(c, j, lista);
        lista := lista - {c};
      }
      AcabarFechamento(j);
    }

    ghost method AcabarFechamento(j: nat)
      requires Valid() && j < |s.fechadores| && s.fechadores[j] == Fechando({})
      modifies this`s, this`trilha
      ensures Valid() && |s.fechadores| == |old(s).fechadores| && s.fechadores[j].Terminou?
    {
      hide Trilhado, Inv;
      Registrar(Terminar(j));
    }

    ghost method Avancar(i: nat, certo: bool)
      requires Trilhado() && i < |s.handlers| && !Terminal(s.handlers[i].em)
      modifies this`s, this`trilha
      ensures Trilhado() && s == AplicarAvanco(old(s), i, certo)
    {
      hide Executa, Final, AplicarAvanco;
      Registrar(Acao.Avancar(i, certo));
    }

    /** The branch taken when the server is shutting down. */
    method FecharTarde(i: nat)
      requires Valid() && encerrando && i < |s.handlers| && s.handlers[i].em.Aceita?
      modifies this`fechadas, this`semSocket, this`s, this`trilha
      ensures Valid() && |s.handlers| == |old(s).handlers| && s.handlers[i].em == Liberando(true)
      ensures fechadas == old(fechadas) + {i} && semSocket == old(semSocket) + {i}
    {
      hide Trilhado, Inv;
      Avancar(i, true);
      fechadas := fechadas + {i};
      Avancar(i, true);
      semSocket := semSocket + {i};
      Avancar(i, true);
    }

    /** The other branch: register, start the writer, and read until the connection ends. */
    method Servir(i: nat)
      requires Valid() && !encerrando && i < |s.handlers| && s.handlers[i].em.Aceita?
      modifies this`conexoes, this`s, this`trilha
      ensures Valid() && |s.handlers| == |old(s).handlers| && s.handlers[i].em.Saindo?
      ensures conexoes == old(conexoes) + {i}
    {
      hide Trilhado, Inv;
      conexoes := conexoes + {i};
      Avancar(i, true);
      Avancar(i, true);
      Avancar(i, true);
    }

    /** The deferred calls but the last. */
    method Despedir(i: nat)
      requires Valid() && i < |s.handlers| && s.handlers[i].em.Saindo?
      modifies this`fechadas, this`conexoes, this`s, this`trilha
      ensures Valid() && |s.handlers| == |old(s).handlers| && s.handlers[i].em == Liberando(true)
      ensures fechadas == old(fechadas) + {i} && conexoes == old(conexoes) - {i}
    {
      hide Trilhado, Inv;
      fechadas := fechadas + {i};
      Avancar(i, true);
      conexoes := conexoes - {i};
      Avancar(i, true);
    }

    /** A handler arrives and takes a slot if there is one. */
    method TomarVaga() returns (i: nat, ok: bool)
      requires Valid()
      modifies this`chegadas, this`vagas, this`s, this`trilha
      ensures Valid() && i == |old(s).handlers| && |s.handlers| == i + 1 && i !in conexoes
      ensures ok == (old(vagas) < capacidade) && vagas == old(vagas) + if ok then 1 else 0
      ensures s.handlers[i].em == if ok then Apertando else Recusado
    {
      hide Trilhado, Inv;
      i := chegadas;
      NomeNovo();
      chegadas := chegadas + 1;
      Registrar(Chegar);
      Avancar(i, true);
      ok := vagas < capacidade;
      if ok { vagas := vagas + 1; }
    }

    lemma NomeNovo()
      requires Valid()
      ensures |s.handlers| !in conexoes
    {
      Invariante();
      assert RegistroCoerente(s, |s.handlers|);
    }

    method SoltarVaga(i: nat)
      requires Valid() && i < |s.handlers| && s.handlers[i].em.Liberando?
      modifies this`vagas, this`s, this`trilha
      ensures Valid() && |s.handlers| == |old(s).handlers| && vagas == old(vagas) - 1
      ensures s.handlers[i].em == Fim(old(s).handlers[i].em.aceita)
    {
      hide Trilhado, Inv;
      vagas := vagas - 1;
      Avancar(i, true);
    }

    method Apertar(i: nat, handshake: bool)
      requires Valid() && i < |s.handlers| && s.handlers[i].em.Apertando?
      modifies this`s, this`trilha
      ensures Valid() && |s.handlers| == |old(s).handlers|
      ensures s.handlers[i].em == if handshake then Aceita else Liberando(false)
    {
      hide Trilhado, Inv;
      Avancar(i, handshake);
    }

    /** A handler from the select to its last deferred call, run without interruption. */
    method AtenderWebSocket(handshake: bool) returns (r: Resposta)
      requires Valid()
      modifies this
      ensures Valid() && vagas == old(vagas) && conexoes == old(conexoes) && encerrando == old(encerrando)
      ensures r == if old(vagas) >= capacidade then ServidorCheio
                   else if !handshake then HandshakeInvalido
                   else if encerrando then Encerrado
                   else Atendido
      ensures var i := |old(s).handlers|;
              && fechadas == old(fechadas) + (if r.Encerrado? || r.Atendido? then {i} else {})
              && semSocket == old(semSocket) + (if r.Encerrado? then {i} else {})
              && |s.handlers| == i + 1 && Terminal(s.handlers[i].em)
              && (FoiAceita(s.handlers[i]) <==> r.Encerrado? || r.Atendido?)
    {
      hide Valid, Inv;
      var i, ok := TomarVaga();
      if !ok { return ServidorCheio; }
      Apertar(i, handshake);
      if !handshake {
        SoltarVaga(i);
        return HandshakeInvalido;
      }
      if encerrando {
        FecharTarde(i);
        r := Encerrado;
      } else {
        Servir(i);
        Despedir(i);
        r := Atendido;
      }
      SoltarVaga(i);
    }
  }
}