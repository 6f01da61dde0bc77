/**
 * Trickle ICE on the server's side of one SFU session: the candidates and
 * descriptions that the peer's reading goroutine hands over one after another,
 * with the session taken down by another goroutine at any moment. Each locked
 * section and each call on the peer connection is one action.
 */
module Trickle {
  import opened Bytes
  import opened Runs

  const PENDENTES_MAXIMOS: nat := 256

  datatype Init = Init(candidato: string, mid: string)

  datatype Recado = Candidato(init: Init) | Descricao(tipo: string, aceita: bool)

  /** Where the reading goroutine stands. `aceita` is what SetRemoteDescription will answer. */
  datatype Leitor =
    | Livre
    | Avaliando(init: Init)
    | Aplicando(aceita: bool)
    | Colhendo
    | Adicionando(resto: seq<Init>)

  /** `recebidos` is history; `adicionados` is what AddICECandidate was given. */
  datatype Estado = Estado(
    retirada: bool,
    fechada: bool,
    remota: bool,
    pendentes: seq<Init>,
    leitor: Leitor,
    adicionados: seq<Init>,
    recebidos: seq<Recado>)

  const INICIAL: Estado := Estado(false, false, false, [], Livre, [], [])

  datatype Acao =
    | Receber(r: Recado)  // the call starts and looks the session up
    | Avancar
    | Retirar             // Sair's section under the SFU's lock
    | Fechar              // Sair's section under the session's lock

  predicate TipoConhecido(tipo: string) { tipo == "answer" || tipo == "offer" }

  predicate Pode(s: Estado, a: Acao) {
    match a
    case Receber(_) => s.leitor.Livre?
    case Avancar => !s.leitor.Livre?
    case Retirar => true
    case Fechar => s.retirada
  }

  function Atender(s: Estado, r: Recado): Leitor {
    if s.retirada then Livre
    else if r.Candidato? then (if r.init.candidato == "" then Livre else Avaliando(r.init))
    else if TipoConhecido(r.tipo) then Aplicando(r.aceita)
    else Livre
  }

  function Adicionar(resto: seq<Init>): Leitor { if resto == [] then Livre else Adicionando(resto) }

  function AplicarAvanco(s: Estado): Estado {
    match s.leitor
    case Livre => s
    case Avaliando(init) =>
      if s.fechada then s.(leitor := Livre)
      else if s.remota then s.(leitor := Adicionar([init]))
      else if |s.pendentes| < PENDENTES_MAXIMOS then s.(leitor := Livre, pendentes := s.pendentes + [init])
      else s.(leitor := Livre)
    case Aplicando(aceita) => if aceita then s.(leitor := Colhendo, remota := true) else s.(leitor := Livre)
    case Colhendo => s.(leitor := Adicionar(s.pendentes), pendentes := [])
    case Adicionando(resto) =>
      if resto == [] then s.(leitor := Livre)
      else s.(leitor := Adicionar(resto[1..]), adicionados := s.adicionados + [resto[0]])
  }

  function Passo(s: Estado, a: Acao): Estado {
    match a
    case Receber(r) => s.(leitor := Atender(s, r), recebidos := s.recebidos + [r])
    case Avancar => AplicarAvanco(s)
    case Retirar => s.(retirada := true)
    case Fechar => s.(fechada := true)
  }

  const SESSAO: Sistema<Estado, Acao> := Sistema(Pode, Passo)

  // ------------------------------------------------ what should have been added

  /** An answer or an offer that SetRemoteDescription accepts. */
  predicate Aceita(r: Recado) { r.Descricao? && (r.tipo == "answer" || r.tipo == "offer") && r.aceita }

  /** A candidate the code does not ignore. */
  function Util(r: Recado): seq<Init> { if r.Candidato? && r.init.candidato != "" then [r.init] else [] }

  predicate Descrita(rs: seq<Recado>) { exists i :: 0 <= i < |rs| && Aceita(rs[i]) }

  /** The candidates received before the first accepted description. */
  ghost function Cedo(rs: seq<Recado>): seq<Init> {
    if rs == [] then [] else
    Cedo(rs[..|rs| - 1]) + if Descrita(rs[..|rs| - 1]) then [] else Util(rs[|rs| - 1])
  }

  /** The candidates received after it. */
  ghost function Tarde(rs: seq<Recado>): seq<Init> {
    if rs == [] then [] else
    Tarde(rs[..|rs| - 1]) + if Descrita(rs[..|rs| - 1]) then Util(rs[|rs| - 1]) else []
  }

  function Primeiros(cs: seq<Init>): seq<Init> { if |cs| <= 256 then cs else cs[..256] }

  ghost function Esperados(rs: seq<Recado>): seq<Init> {
    if Descrita(rs) then Primeiros(Cedo(rs)) + Tarde(rs) else []
  }

  lemma DescritaMais(rs: seq<Recado>, r: Recado)
    ensures Descrita(rs + [r]) <==> Descrita(rs) || Aceita(r)
  {
    var mais := rs + [r];
    if Descrita(rs) {
      var i :| 0 <= i < |rs| && Aceita(rs[i]);
      assert Aceita(mais[i]);
    }
    if Aceita(r) { assert Aceita(mais[|rs|]); }
  }

  lemma {:induction false} RecebidoMais(rs: seq<Recado>, r: Recado)
    ensures Cedo(rs + [r]) == Cedo(rs) + if Descrita(rs) then [] else Util(r)
    ensures Tarde(rs + [r]) == Tarde(rs) + if Descrita(rs) then Util(r) else []
  {
    assert (rs + [r])[..|rs|] == rs;
  }

  function Antes(rs: seq<Recado>): seq<Recado> { if rs == [] then [] else rs[..|rs| - 1] }

  /** What the call in progress still has to do with what it was given. */
  ghost predicate EmCurso(s: Estado) {
    var l := s.leitor;
    match l
    case Livre =>
      Assentado(s, s.recebidos) || (s.retirada && s.adicionados <= Esperados(s.recebidos))
    case Avaliando(init) =>
      && s.recebidos != [] && s.recebidos[|s.recebidos| - 1] == Candidato(init) && init.candidato != ""
      && Assentado(s, Antes(s.recebidos))
    case Aplicando(aceita) =>
      && s.recebidos != [] && Assentado(s, Antes(s.recebidos))
      && var r := s.recebidos[|s.recebidos| - 1]; r.Descricao? && r.tipo in {"answer", "offer"} && r.aceita == aceita
    case Colhendo => s.remota && Descrita(s.recebidos) && s.adicionados + s.pendentes == Esperados(s.recebidos)
    case Adicionando(resto) =>
      s.remota && Descrita(s.recebidos) && s.pendentes == [] && s.adicionados + resto == Esperados(s.recebidos)
  }

  /** All that was received is where it should be. */
  ghost predicate Assentado(s: Estado, rs: seq<Recado>) {
    && s.remota == Descrita(rs)
    && (s.remota ==> s.pendentes == [] && s.adicionados == Esperados(rs))
    && (!s.remota ==> s.pendentes == Primeiros(Cedo(rs)) && Tarde(rs) == [] && s.adicionados == [])
  }

  ghost predicate Inv(s: Estado) {
    && (s.fechada ==> s.retirada)
    && (s.leitor.Livre? && !s.retirada ==> Assentado(s, s.recebidos))
    && |s.pendentes| <= PENDENTES_MAXIMOS
    && (s.remota && !s.leitor.Colhendo? ==> s.pendentes == [])
    && EmCurso(s)
  }

  lemma SemMais(a: seq<Init>)
    ensures a + [] == a
  {
  }

  lemma Prefixo(a: seq<Init>, b: seq<Init>, c: seq<Init>)
    ensures a + b <= a + (b + c)
  {
    assert a + (b + c) == a + b + c;
  }

  lemma EsperadosCresce(rs: seq<Recado>, r: Recado)
    ensures Esperados(rs) <= Esperados(rs + [r])
  {
    hide Cedo, Tarde, Descrita, Primeiros, Util;
    DescritaMais(rs, r);
    RecebidoMais(rs, r);
    if Descrita(rs) {
      SemMais(Cedo(rs));
      Prefixo(Primeiros(Cedo(rs)), Tarde(rs), Util(r));
    }
  }

  /** A message that is ignored changes nothing that was expected. */
  lemma Ignorado(s: Estado, r: Recado)
    requires Assentado(s, s.recebidos) && Util(r) == [] && !Aceita(r)
    ensures Assentado(s.(recebidos := s.recebidos + [r]), s.recebidos + [r])
  {
    hide Cedo, Tarde, Descrita;
    DescritaMais(s.recebidos, r);
    RecebidoMais(s.recebidos, r);
  }

  lemma InvRecebe(s: Estado, r: Recado)
    requires Inv(s) && s.leitor.Livre?
    ensures Inv(Passo(s, Receber(r)))
  {
    hide Cedo, Tarde, Descrita, Primeiros;
    assert Antes(s.recebidos + [r]) == s.recebidos;
    EsperadosCresce(s.recebidos, r);
    if !s.retirada && Atender(s, r).Livre? { Ignorado(s, r); }
  }

  lemma InvAvalia(s: Estado)
    requires Inv(s) && s.leitor.Avaliando?
    ensures Inv(Passo(s, Avancar))
  {
    hide Cedo, Tarde, Descrita;
    var antes := Antes(s.recebidos);
    var r := Candidato(s.leitor.init);
    assert s.recebidos == antes + [r];
    DescritaMais(antes, r);
    RecebidoMais(antes, r);
    EsperadosCresce(antes, r);
  }

  lemma InvAplica(s: Estado)
    requires Inv(s) && s.leitor.Aplicando?
    ensures Inv(Passo(s, Avancar))
  {
    hide Cedo, Tarde, Descrita;
    var antes := Antes(s.recebidos);
    var r := s.recebidos[|antes|];
    assert s.recebidos == antes + [r];
    DescritaMais(antes, r);
    RecebidoMais(antes, r);
  }

  lemma InvAdiciona(s: Estado)
    requires Inv(s) && (s.leitor.Colhendo? || s.leitor.Adicionando?)
    ensures Inv(Passo(s, Avancar))
  {
    hide Cedo, Tarde, Descrita, Primeiros, Esperados;
    if s.leitor.Adicionando? && s.leitor.resto != [] {
      var resto := s.leitor.resto;
      assert s.adicionados + resto == s.adicionados + [resto[0]] + resto[1..];
    }
    hide Assentado;
    var t := Passo(s, Avancar);
    if t.leitor.Livre? { TudoAdicionado(t); }
  }

  lemma TudoAdicionado(s: Estado)
    requires Descrita(s.recebidos) && s.remota && s.pendentes == [] && s.adicionados == Esperados(s.recebidos)
    ensures Assentado(s, s.recebidos)
  {
  }

  lemma InvPasso(s: Estado, a: Acao)
    requires Inv(s) && Pode(s, a)
    ensures Inv(Passo(s, a))
  {
    match a
    case Receber(r) => InvRecebe(s, r);
    case Avancar =>
      if s.leitor.Avaliando? { InvAvalia(s); } else if s.leitor.Aplicando? { InvAplica(s); } else { InvAdiciona(s); }
    case Retirar =>
    case Fechar =>
  }

  lemma {:induction false} InvSempre(acoes: seq<Acao>)
    requires Executa(SESSAO, INICIAL, acoes)
    ensures Inv(Final(SESSAO, INICIAL, acoes))
  {
    assert Inv(INICIAL);
    hide Inv, Passo, Pode;
    forall s, a | Inv(s) && SESSAO.pode(s, a) ensures Inv(SESSAO.passo(s, a)) { InvPasso(s, a); }
    Sempre(SESSAO, Inv, INICIAL, acoes);
  }

  // ------------------------------------------------------------- main results

  ghost function Uteis(rs: seq<Recado>): seq<Init> {
    if rs == [] then [] else Uteis(rs[..|rs| - 1]) + Util(rs[|rs| - 1])
  }

  lemma {:induction false} AntesDeDescrever(rs: seq<Recado>)
    requires !Descrita(rs)
    ensures Cedo(rs) == Uteis(rs) && Tarde(rs) == []
  {
    if rs != [] {
      var n := |rs| - 1;
      assert rs == rs[..n] + [rs[n]];
      DescritaMais(rs[..n], rs[n]);
      AntesDeDescrever(rs[..n]);
    }
  }

  lemma {:induction false} DepoisDeDescrever(antes: seq<Recado>, d: Recado, depois: seq<Recado>)
    requires !Descrita(antes) && Aceita(d)
    ensures var rs := antes + [d] + depois;
            Descrita(rs) && Cedo(rs) == Uteis(antes) && Tarde(rs) == Uteis(depois)
  {
    var rs := antes + [d] + depois;
    if depois == [] {
      assert rs == antes + [d];
      AntesDeDescrever(antes);
      DescritaMais(antes, d);
      RecebidoMais(antes, d);
    } else {
      var n := |depois| - 1;
      assert rs == (antes + [d] + depois[..n]) + [depois[n]];
      DepoisDeDescrever(antes, d, depois[..n]);
      DescritaMais(antes + [d] + depois[..n], depois[n]);
      RecebidoMais(antes + [d] + depois[..n], depois[n]);
    }
  }

  /**
   * While the session is up, with `d` the first description accepted: the peer
   * connection has been given the first 256 candidates that came before it, then
   * every one that came after, in the order of arrival.
   */
  lemma {:induction false} CandidatosEmOrdem(acoes: seq<Acao>, antes: seq<Recado>, d: Recado, depois: seq<Recado>)
    requires Executa(SESSAO, INICIAL, acoes)
    requires var s := Final(SESSAO, INICIAL, acoes);
             !s.retirada && s.leitor.Livre? && s.recebidos == antes + [d] + depois
    requires !Descrita(antes) && Aceita(d)
    ensures Final(SESSAO, INICIAL, acoes).adicionados == Primeiros(Uteis(antes)) + Uteis(depois)
  {
    hide Primeiros;
    InvSempre(acoes);
    DepoisDeDescrever(antes, d, depois);
  }

  /** Until then nothing has been given to it, and the first 256 are held. */
  lemma {:induction false} CandidatosGuardados(acoes: seq<Acao>)
    requires Executa(SESSAO, INICIAL, acoes)
    requires var s := Final(SESSAO, INICIAL, acoes); !s.retirada && s.leitor.Livre? && !Descrita(s.recebidos)
    ensures var s := Final(SESSAO, INICIAL, acoes);
            s.adicionados == [] && s.pendentes == Primeiros(Uteis(s.recebidos)) && !s.remota
  {
    InvSempre(acoes);
    AntesDeDescrever(Final(SESSAO, INICIAL, acoes).recebidos);
  }

  /**
   * At every moment, also in the middle of a call and while the session is taken
   * down: never out of order, never twice, never more than 256 held, and none held
   * once a description is set and its candidates were collected.
   */
  lemma {:induction false} NuncaForaDeOrdem(acoes: seq<Acao>)
    requires Executa(SESSAO, INICIAL, acoes)
    ensures var s := Final(SESSAO, INICIAL, acoes);
            && s.adicionados <= Esperados(s.recebidos)
            && |s.pendentes| <= 256
            && (s.remota && !s.leitor.Colhendo? ==> s.pendentes == [])
  {
    InvSempre(acoes);
    EmOrdem(Final(SESSAO, INICIAL, acoes));
  }

  lemma EmOrdem(s: Estado)
    requires EmCurso(s)
    ensures s.adicionados <= Esperados(s.recebidos)
  {
    hide Esperados, Descrita, Primeiros, Cedo, Tarde;
    var l := s.leitor;
    if l.Avaliando? || l.Aplicando? {
      var antes := Antes(s.recebidos);
      assert s.recebidos == antes + [s.recebidos[|antes|]];
      EsperadosCresce(antes, s.recebidos[|antes|]);
    }
  }

  // ------------------------------------------------------------- the code itself

  /**
   * The session's fields, with the peer connection reduced to whether it has a
   * remote description and which candidates it was given. `Valid` says that the
   * object is in a state some interleaving reaches.
   */
  class Sessao {
    var candidatosPendentes: seq<Init>
    var fechada: bool
    var presente: bool  // the SFU's rooms still hold it
    var remota: bool
    var adicionados: seq<Init>
    ghost var s: Estado
    ghost var trilha: seq<Acao>

    ghost predicate Valid()
      reads this
    {
      && candidatosPendentes == s.pendentes && fechada == s.fechada && presente == !s.retirada
      && remota == s.remota && adicionados == s.adicionados
      && Executa(SESSAO, INICIAL, trilha) && Final(SESSAO, INICIAL, trilha) == s
    }

    constructor ()
      ensures Valid() && s == INICIAL
    {
      candidatosPendentes, fechada, presente, remota, adicionados := [], false, true, false, [];
      s, trilha := INICIAL, [];
    }

    ghost method Registrar(a: Acao)
      requires Executa(SESSAO, INICIAL, trilha) && Final(SESSAO, INICIAL, trilha) == s && Pode(s, a)
      modifies this`s, this`trilha
      ensures Executa(SESSAO, INICIAL, trilha) && Final(SESSAO, INICIAL, trilha) == s
      ensures s == Passo(old(s), a) && trilha == old(trilha) + [a]
    {
      hide Pode, Passo;
      ExecutaConcat(SESSAO, INICIAL, trilha, [a]);
      s, trilha := Passo(s, a), trilha + [a];
    }

    method Candidato(init: Init)
      requires Valid() && s.leitor.Livre?
      modifies this
      ensures Valid() && s.leitor.Livre? && s.recebidos == old(s).recebidos + [Recado.Candidato(init)]
      ensures remota == old(remota) && presente == old(presente) && fechada == old(fechada)
      ensures var conta := old(presente) && !old(fechada) && init.candidato != "";
              && adicionados == old(adicionados) + (if conta && remota then [init] else [])
              && candidatosPendentes == old(candidatosPendentes) +
                   if conta && !remota && |old(candidatosPendentes)| < 256 then [init] else []
    {
      hide Executa, Final;
      Registrar(Receber(Recado.Candidato(init)));
      if !presente || init.candidato == "" { return; }
      if fechada {
        Registrar(Avancar);
        return;
      }
      if !remota {
        if |candidatosPendentes| < PENDENTES_MAXIMOS {
          candidatosPendentes := candidatosPendentes + [init];
        }
        Registrar(Avancar);
        return;
      }
      Registrar(Avancar);
      adicionados := adicionados + [init];
      Registrar(Avancar);
    }

    /** Descricao up to the candidates it releases; `aceita` is what SetRemoteDescription answered. */
    method Descricao(tipo: string, aceita: bool)
      requires Valid() && s.leitor.Livre?
      modifies this
      ensures Valid() && s.leitor.Livre? && s.recebidos == old(s).recebidos + [Recado.Descricao(tipo, aceita)]
      ensures presente == old(presente) && fechada == old(fechada)
      ensures var conta := presente && (tipo == "answer" || tipo == "offer") && aceita;
              && remota == (old(remota) || conta)
              && adicionados == old(adicionados) + (if conta then old(candidatosPendentes) else [])
              && candidatosPendentes == if conta then [] else old(candidatosPendentes)
    {
      hide Executa, Final;
      Registrar(Receber(Recado.Descricao(tipo, aceita)));
      if !presente || (tipo != "answer" && tipo != "offer") { return; }
      Registrar(Avancar);
      if !aceita { return; }
      remota := true;
      var candidatos := candidatosPendentes;
      candidatosPendentes := [];
      Registrar(Avancar);
      AdicionarTodos(candidatos);
    }

    method AdicionarTodos(candidatos: seq<Init>)
      requires Valid() && s.leitor == Adicionar(candidatos)
      modifies this`adicionados, this`s, this`trilha
      ensures Valid() && s.leitor.Livre? && s.recebidos == old(s).recebidos
      ensures adicionados == old(adicionados) + candidatos
    {
      hide Executa, Final;
      var n := 0;
      while n < |candidatos|
        invariant 0 <= n <= |candidatos| && Valid()
        invariant s.leitor == Adicionar(candidatos[n..]) && s.recebidos == old(s).recebidos
        invariant adicionados == old(adicionados) + candidatos[..n]
      {
        adicionados := adicionados + [candidatos[n]];
        Registrar(Avancar);
        n := n + 1;
      }
    }

    method Sair()
      requires Valid()
      modifies this
      ensures Valid() && !presente && (old(presente) ==> fechada)
      ensures candidatosPendentes == old(candidatosPendentes) && adicionados == old(adicionados)
    {
      hide Executa, Final;
      if !presente { return; }
      presente := false;
      Registrar(Retirar);
      fechada := true;
      Registrar(Fechar);
    }
  }
}
