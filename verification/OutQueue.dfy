/**
 * The outbound queue of one connection under every interleaving of any number
 * of enqueuing goroutines, the writer, and whoever closes the connection. Each
 * action is one atomic operation of the code: an atomic add, a channel
 * operation, a close, or a frame write.
 */
module OutQueue {
  import opened Bytes
  import opened Runs
  import opened Sums

  const LUGARES: nat := 256
  const BYTES_MAXIMOS: nat := 0x20_0000

  datatype QuadroSaida = QuadroSaida(opcode: byte, dados: seq<byte>)

  datatype Resultado = Aceito | ErrConexaoFechada | ErrFilaCheia

  /** Where a call of enfileirar stands: the operation it does next. */
  datatype Chamada =
    | Verificar(q: QuadroSaida)
    | Reservar(q: QuadroSaida)
    | Escolher(q: QuadroSaida)
    | DesfazerCheia(q: QuadroSaida)
    | DesfazerFechada(q: QuadroSaida)
    | DesfazerSemLugar(q: QuadroSaida)
    | FecharPorCheia
    | Retornou(r: Resultado)

  /** An accepted frame and the call that enqueued it. */
  datatype Item = Item(chamada: nat, q: QuadroSaida)

  datatype Escritor =
    | Laco
    | Drenando
    | Descontar(item: Item, drenando: bool)
    | Escrever(item: Item, drenando: bool)
    | FecharEParar(item: Item)
    | Parou(perdido: Option<Item>)

  /** `pedidos`, `aceitos` and `escritos` are history: calls made, frames accepted, frames written. */
  datatype Estado = Estado(
    bytesNaFila: int,
    saida: seq<Item>,
    fechado: bool,
    chamadas: seq<Chamada>,
    escritor: Escritor,
    pedidos: seq<QuadroSaida>,
    aceitos: seq<Item>,
    escritos: seq<Item>)

  const INICIAL: Estado := Estado(0, [], false, [], Laco, [], [], [])

  datatype Acao =
    | Chamar(q: QuadroSaida)
    | Avancar(i: nat)      // the next operation when it has one outcome
    | Enviar(i: nat)       // the select of line 194: the channel had room
    | VerFechado(i: nat)   // ... or the connection was closed
    | SemLugar(i: nat)     // ... or neither was ready
    | Fechar
    | Pegar
    | EscritorVeFechado
    | FimDaDrenagem
    | DescontarBytes
    | EscreverQuadro(ok: bool)

  function Tamanho(q: QuadroSaida): nat { |q.dados| }

  predicate Pode(s: Estado, a: Acao) {
    match a
    case Chamar(_) => true
    case Avancar(i) =>
      i < |s.chamadas| && !s.chamadas[i].Escolher? && !s.chamadas[i].Retornou?
    case Enviar(i) => i < |s.chamadas| && s.chamadas[i].Escolher? && |s.saida| < LUGARES
    case VerFechado(i) => i < |s.chamadas| && s.chamadas[i].Escolher? && s.fechado
    case SemLugar(i) =>
      i < |s.chamadas| && s.chamadas[i].Escolher? && |s.saida| >= LUGARES && !s.fechado
    case Fechar => true
    case Pegar => (s.escritor.Laco? || s.escritor.Drenando?) && s.saida != []
    case EscritorVeFechado => s.escritor.Laco? && s.fechado
    case FimDaDrenagem => s.escritor.Drenando? && s.saida == []
    case DescontarBytes => s.escritor.Descontar?
    case EscreverQuadro(_) => s.escritor.Escrever? || s.escritor.FecharEParar?
  }

  function Ir(s: Estado, i: nat, c: Chamada): Estado
    requires i < |s.chamadas|
  {
    s.(chamadas := s.chamadas[i := c])
  }

  /** The operations of enfileirar other than its second select. */
  function AplicarAvanco(s: Estado, i: nat): Estado
    requires Pode(s, Avancar(i))
  {
    match s.chamadas[i]
    case Verificar(q) => Ir(s, i, if s.fechado then Retornou(ErrConexaoFechada) else Reservar(q))
    case Reservar(q) =>
      var soma := s.bytesNaFila + Tamanho(q);
      Ir(s.(bytesNaFila := soma), i, if soma > BYTES_MAXIMOS then DesfazerCheia(q) else Escolher(q))
    case DesfazerCheia(q) => Ir(s.(bytesNaFila := s.bytesNaFila - Tamanho(q)), i, FecharPorCheia)
    case DesfazerSemLugar(q) => Ir(s.(bytesNaFila := s.bytesNaFila - Tamanho(q)), i, FecharPorCheia)
    case DesfazerFechada(q) =>
      Ir(s.(bytesNaFila := s.bytesNaFila - Tamanho(q)), i, Retornou(ErrConexaoFechada))
    case FecharPorCheia => Ir(s.(fechado := true), i, Retornou(ErrFilaCheia))
  }

  function AplicarEscritor(s: Estado, a: Acao): Estado
    requires Pode(s, a)
    requires a.Pegar? || a.EscritorVeFechado? || a.FimDaDrenagem? || a.DescontarBytes? || a.EscreverQuadro?
  {
    match a
    case Pegar => s.(saida := s.saida[1..], escritor := Descontar(s.saida[0], s.escritor.Drenando?))
    case EscritorVeFechado => s.(escritor := Drenando)
    case FimDaDrenagem => s.(escritor := Parou(None))
    case DescontarBytes =>
      s.(bytesNaFila := s.bytesNaFila - Tamanho(s.escritor.item.q),
         escritor := Escrever(s.escritor.item, s.escritor.drenando))
    case EscreverQuadro(ok) =>
      if s.escritor.FecharEParar? then s.(fechado := true, escritor := Parou(Some(s.escritor.item)))
      else if ok then
        s.(escritos := s.escritos + [s.escritor.item],
           escritor := if s.escritor.drenando then Drenando else Laco)
      else if s.escritor.drenando then s.(escritor := Parou(Some(s.escritor.item)))
      else s.(escritor := FecharEParar(s.escritor.item))
  }

  function Aplicar(s: Estado, a: Acao): Estado
    requires Pode(s, a)
  {
    match a
    case Chamar(q) => s.(chamadas := s.chamadas + [Verificar(q)], pedidos := s.pedidos + [q])
    case Avancar(i) => AplicarAvanco(s, i)
    case Enviar(i) =>
      var item := Item(i, s.chamadas[i].q);
      Ir(s.(saida := s.saida + [item], aceitos := s.aceitos + [item]), i, Retornou(Aceito))
    case VerFechado(i) => Ir(s, i, DesfazerFechada(s.chamadas[i].q))
    case SemLugar(i) => Ir(s, i, DesfazerSemLugar(s.chamadas[i].q))
    case Fechar => s.(fechado := true)
    case Pegar => AplicarEscritor(s, a)
    case EscritorVeFechado => AplicarEscritor(s, a)
    case FimDaDrenagem => AplicarEscritor(s, a)
    case DescontarBytes => AplicarEscritor(s, a)
    case EscreverQuadro(_) => AplicarEscritor(s, a)
  }

  function Passo(s: Estado, a: Acao): Estado {
    if Pode(s, a) then Aplicar(s, a) else s
  }

  const FILA: Sistema<Estado, Acao> := Sistema(Pode, Passo)

  // --------------------------------------------------------------- accounting

  function Reserva(c: Chamada): nat {
    if c.Escolher? || c.DesfazerCheia? || c.DesfazerFechada? || c.DesfazerSemLugar? then Tamanho(c.q) else 0
  }

  /** A reservation that passed the byte limit and is not yet sent or undone. */
  function Admitida(c: Chamada): nat {
    if c.DesfazerCheia? then 0 else Reserva(c)
  }

  function Peso(item: Item): nat { Tamanho(item.q) }

  /** The frame the writer took and has not yet subtracted. */
  function NaMaoSemDesconto(w: Escritor): nat {
    if w.Descontar? then Peso(w.item) else 0
  }

  /** The frame the writer took and has not written. */
  function NaMao(w: Escritor): seq<Item> {
    if w.Descontar? || w.Escrever? || w.FecharEParar? then [w.item]
    else if w.Parou? && w.perdido.Some? then [w.perdido.value] else []
  }

  function Chamadores(itens: seq<Item>): multiset<nat> {
    if itens == [] then multiset{} else Chamadores(itens[..|itens| - 1]) + multiset{itens[|itens| - 1].chamada}
  }

  ghost predicate Contabilidade(s: Estado) {
    s.bytesNaFila == Soma(s.saida, Peso) + Soma(s.chamadas, Reserva) + NaMaoSemDesconto(s.escritor)
  }

  ghost predicate DentroDoLimite(s: Estado) {
    && Soma(s.saida, Peso) + Soma(s.chamadas, Admitida) + NaMaoSemDesconto(s.escritor) <= BYTES_MAXIMOS
    && |s.saida| <= LUGARES
  }

  ghost predicate EmOrdem(s: Estado) {
    s.aceitos == s.escritos + NaMao(s.escritor) + s.saida
  }

  ghost predicate ResultadosFieis(s: Estado) {
    && |s.pedidos| == |s.chamadas|
    && (forall i | 0 <= i < |s.chamadas| ::
          Chamadores(s.aceitos)[i] == if s.chamadas[i] == Retornou(Aceito) then 1 else 0)
    && (forall k | 0 <= k < |s.aceitos| ::
          s.aceitos[k].chamada < |s.pedidos| && s.aceitos[k].q == s.pedidos[s.aceitos[k].chamada])
    && (forall i | 0 <= i < |s.chamadas| ::
          s.chamadas[i].FecharPorCheia? || s.chamadas[i].Retornou? || s.chamadas[i].q == s.pedidos[i])
  }

  ghost predicate Encerramento(s: Estado) {
    && (s.escritor.Drenando? || s.escritor.Parou? ==> s.fechado)
    && ((s.escritor.Descontar? || s.escritor.Escrever?) && s.escritor.drenando ==> s.fechado)
    && (forall i | 0 <= i < |s.chamadas| ::
          s.chamadas[i].Retornou? && s.chamadas[i].r != Aceito ==> s.fechado)
    && (forall i | 0 <= i < |s.chamadas| :: s.chamadas[i].DesfazerFechada? ==> s.fechado)
  }

  ghost predicate Inv(s: Estado) {
    Contabilidade(s) && DentroDoLimite(s) && EmOrdem(s) && ResultadosFieis(s) && Encerramento(s)
  }

  lemma {:induction false} SomaDomina(s: seq<Chamada>)
    ensures Soma(s, Admitida) <= Soma(s, Reserva)
  {
    if s != [] { SomaDomina(s[..|s| - 1]); }
  }

  // -------------------------------------------------- every step keeps it all

  lemma InvContas(s: Estado, a: Acao)
    requires Pode(s, a) && Contabilidade(s) && DentroDoLimite(s)
    ensures Contabilidade(Aplicar(s, a)) && DentroDoLimite(Aplicar(s, a))
  {
    hide Soma;
    var t := Aplicar(s, a);
    SomaDomina(s.chamadas);
    if a.Chamar? {
      SomaMais(s.chamadas, Verificar(a.q), Reserva);
      SomaMais(s.chamadas, Verificar(a.q), Admitida);
    } else if a.Avancar? || a.Enviar? || a.VerFechado? || a.SemLugar? {
      SomaTroca(s.chamadas, a.i, t.chamadas[a.i], Reserva);
      SomaTroca(s.chamadas, a.i, t.chamadas[a.i], Admitida);
      if a.Enviar? { SomaMais(s.saida, Item(a.i, s.chamadas[a.i].q), Peso); }
    } else if a.Pegar? {
      SomaSemPrimeiro(s.saida, Peso);
    }
  }

  lemma AvancoForaDaFila(s: Estado, i: nat)
    requires Pode(s, Avancar(i))
    ensures var t := AplicarAvanco(s, i);
            t.saida == s.saida && t.aceitos == s.aceitos && t.escritos == s.escritos && t.escritor == s.escritor
  {
  }

  lemma InvOrdem(s: Estado, a: Acao)
    requires Pode(s, a) && EmOrdem(s)
    ensures EmOrdem(Aplicar(s, a))
  {
    var t := Aplicar(s, a);
    hide AplicarAvanco;
    if a.Avancar? {
      AvancoForaDaFila(s, a.i);
    } else if a.Enviar? {
      var item := Item(a.i, s.chamadas[a.i].q);
      assert t.aceitos == s.escritos + NaMao(s.escritor) + (s.saida + [item]);
    } else if a.Pegar? {
      assert s.saida == [s.saida[0]] + s.saida[1..];
      assert s.escritos + [] + s.saida == s.escritos + [s.saida[0]] + s.saida[1..];
    } else if a.EscreverQuadro? {
      assert t.escritos + NaMao(t.escritor) == s.escritos + NaMao(s.escritor);
    }
  }

  lemma {:induction false} ChamadoresMais(itens: seq<Item>, x: Item)
    ensures Chamadores(itens + [x]) == Chamadores(itens) + multiset{x.chamada}
  {
    assert (itens + [x])[..|itens|] == itens;
  }

  lemma {:induction false} ChamadoresDentro(itens: seq<Item>, n: nat)
    requires forall k | 0 <= k < |itens| :: itens[k].chamada < n
    ensures Chamadores(itens)[n] == 0
  {
    if itens != [] {
      ChamadoresDentro(itens[..|itens| - 1], n);
      assert itens[|itens| - 1].chamada < n;
    }
  }

  lemma InvResultados(s: Estado, a: Acao)
    requires Pode(s, a) && ResultadosFieis(s)
    ensures ResultadosFieis(Aplicar(s, a))
  {
    hide Chamadores;
    if a.Chamar? {
      ChamadoresDentro(s.aceitos, |s.chamadas|);
    } else if a.Enviar? {
      ChamadoresMais(s.aceitos, Item(a.i, s.chamadas[a.i].q));
    }
  }

  lemma InvEncerramento(s: Estado, a: Acao)
    requires Pode(s, a) && Encerramento(s)
    requires forall i | 0 <= i < |s.chamadas| :: s.chamadas[i].DesfazerFechada? ==> s.fechado
    ensures Encerramento(Aplicar(s, a))
    ensures s.fechado ==> Aplicar(s, a).fechado
  {
  }

  lemma InvPasso(s: Estado, a: Acao)
    requires Inv(s) && Pode(s, a)
    ensures Inv(Aplicar(s, a))
  {
    hide Aplicar, Contabilidade, DentroDoLimite, EmOrdem, ResultadosFieis;
    InvContas(s, a);
    InvOrdem(s, a);
    InvResultados(s, a);
    InvEncerramento(s, a);
  }

  // ------------------------------------------------------------- main results

  lemma {:induction false} InvSempre(s: Estado, acoes: seq<Acao>)
    requires Inv(s) && Executa(FILA, s, acoes)
    ensures Inv(Final(FILA, s, acoes))
  {
    hide Inv, Aplicar, Pode;
    forall s, a | Inv(s) && FILA.pode(s, a) ensures Inv(FILA.passo(s, a)) { InvPasso(s, a); }
    Sempre(FILA, Inv, s, acoes);
  }

  lemma InvInicial()
    ensures Inv(INICIAL)
  {
  }

  /**
   * Accounting, in every interleaving: the counter is the payload bytes in the
   * channel, plus reservations neither sent nor undone, plus the frame the writer
   * took and has not subtracted. It is never negative; what has been admitted
   * never passes 2 MiB nor the channel 256 frames, although the counter itself may
   * overshoot while a refused reservation is undone.
   */
  lemma {:induction false} ContabilidadeSempre(acoes: seq<Acao>)
    requires Executa(FILA, INICIAL, acoes)
    ensures var s := Final(FILA, INICIAL, acoes);
            && s.bytesNaFila == Soma(s.saida, Peso) + Soma(s.chamadas, Reserva) + NaMaoSemDesconto(s.escritor)
            && 0 <= s.bytesNaFila
            && Soma(s.saida, Peso) + Soma(s.chamadas, Admitida) + NaMaoSemDesconto(s.escritor) <= 0x20_0000
            && |s.saida| <= 256
  {
    InvInicial();
    InvSempre(INICIAL, acoes);
  }

  /**
   * FIFO delivery, in every interleaving: what was accepted is what was written,
   * then the frame in the writer's hand or lost with a failed write, then the
   * channel. So the socket carries a prefix of the accepted frames, each accepted
   * exactly once and by the one call that returned nil for it.
   */
  lemma {:induction false} EntregaEmOrdem(acoes: seq<Acao>)
    requires Executa(FILA, INICIAL, acoes)
    ensures var s := Final(FILA, INICIAL, acoes);
            && s.aceitos == s.escritos + NaMao(s.escritor) + s.saida
            && s.escritos <= s.aceitos
            && ResultadosFieis(s)
  {
    InvInicial();
    InvSempre(INICIAL, acoes);
  }

  /** The drain leaves nothing behind: when it ends, every frame accepted so far was written. */
  lemma {:induction false} DrenagemCompleta(acoes: seq<Acao>)
    requires Executa(FILA, INICIAL, acoes)
    requires Pode(Final(FILA, INICIAL, acoes), FimDaDrenagem)
    ensures var s := Passo(Final(FILA, INICIAL, acoes), FimDaDrenagem);
            s.fechado && s.escritos == s.aceitos
  {
    InvInicial();
    InvSempre(INICIAL, acoes);
    var s := Final(FILA, INICIAL, acoes);
    assert s.escritos + [] + [] == s.escritos;
  }

  /** A call refused for any reason leaves the connection closed. */
  lemma {:induction false} RecusaFecha(acoes: seq<Acao>, i: nat)
    requires Executa(FILA, INICIAL, acoes)
    requires var s := Final(FILA, INICIAL, acoes);
             i < |s.chamadas| && s.chamadas[i].Retornou? && s.chamadas[i].r != Aceito
    ensures Final(FILA, INICIAL, acoes).fechado
  {
    InvInicial();
    InvSempre(INICIAL, acoes);
  }

  ghost predicate JaRecusada(s: Estado, i: nat) {
    && s.fechado && i < |s.chamadas|
    && (s.chamadas[i].Verificar? || s.chamadas[i] == Retornou(ErrConexaoFechada))
  }

  /** A call that starts after the close is never accepted, whatever runs in between. */
  lemma {:induction false} DepoisDeFecharNadaEntra(s: Estado, i: nat, acoes: seq<Acao>)
    requires JaRecusada(s, i) && Executa(FILA, s, acoes)
    ensures JaRecusada(Final(FILA, s, acoes), i)
  {
    var inv := (u: Estado) => JaRecusada(u, i);
    forall u, a | inv(u) && FILA.pode(u, a) ensures inv(FILA.passo(u, a)) { RecusaPersiste(u, a, i); }
    Sempre(FILA, inv, s, acoes);
  }

  lemma RecusaPersiste(u: Estado, a: Acao, i: nat)
    requires JaRecusada(u, i) && Pode(u, a)
    ensures JaRecusada(Passo(u, a), i)
  {
  }

  /** The call is still undoing its reservation, or has returned r. */
  predicate Voltando(s: Estado, i: nat, r: Resultado) {
    i < |s.chamadas| &&
    var c := s.chamadas[i];
    || c == Retornou(r)
    || (r == ErrConexaoFechada && c.DesfazerFechada?)
    || (r == ErrFilaCheia && (c.DesfazerCheia? || c.DesfazerSemLugar? || c.FecharPorCheia?))
  }

  lemma VoltandoFica(s: Estado, a: Acao, i: nat, r: Resultado)
    requires Voltando(s, i, r) && Pode(s, a)
    ensures Voltando(Passo(s, a), i, r)
  {
  }

  lemma {:induction false} VoltandoAteOFim(s: Estado, acoes: seq<Acao>, i: nat, r: Resultado)
    requires Voltando(s, i, r) && Executa(FILA, s, acoes)
    ensures Voltando(Final(FILA, s, acoes), i, r)
  {
    var inv := (u: Estado) => Voltando(u, i, r);
    hide Voltando, Pode, Passo;
    forall u, a | inv(u) && FILA.pode(u, a) ensures inv(FILA.passo(u, a)) { VoltandoFica(u, a, i, r); }
    Sempre(FILA, inv, s, acoes);
  }

  /**
   * Each call returns what its own select or limit decided, whatever runs in between:
   * nil when the channel took its frame, a closed connection when it lost the race
   * with the close or found it closed, and a full queue when the reservation took the
   * counter past 2 MiB or the channel had no room.
   */
  lemma {:induction false} CadaUmOSeuResultado(s: Estado, a: Acao, acoes: seq<Acao>, i: nat)
    requires Pode(s, a) && Executa(FILA, Passo(s, a), acoes)
    requires var t := Final(FILA, Passo(s, a), acoes); i < |t.chamadas| && t.chamadas[i].Retornou?
    ensures var r := Final(FILA, Passo(s, a), acoes).chamadas[i].r;
            && (a == Enviar(i) ==> r == Aceito)
            && (a == VerFechado(i) ==> r == ErrConexaoFechada)
            && (a == Avancar(i) && s.chamadas[i].Verificar? && s.fechado ==> r == ErrConexaoFechada)
            && (a == SemLugar(i) ==> r == ErrFilaCheia)
            && (a == Avancar(i) && s.chamadas[i].Reservar? && s.bytesNaFila + |s.chamadas[i].q.dados| > 0x20_0000 ==>
                  r == ErrFilaCheia)
  {
    hide Executa, Final;
    var t := Passo(s, a);
    if a == Enviar(i) {
      VoltandoAteOFim(t, acoes, i, Aceito);
    } else if a == VerFechado(i) || (a == Avancar(i) && s.chamadas[i].Verificar? && s.fechado) {
      VoltandoAteOFim(t, acoes, i, ErrConexaoFechada);
    } else if a == SemLugar(i) || (a == Avancar(i) && s.chamadas[i].Reservar?
                                   && s.bytesNaFila + |s.chamadas[i].q.dados| > 0x20_0000) {
      VoltandoAteOFim(t, acoes, i, ErrFilaCheia);
    }
  }

  // ------------------------------------------------------------- the code itself

  function Quadros(itens: seq<Item>): (qs: seq<QuadroSaida>)
    ensures |qs| == |itens|
  {
    seq(|itens|, k requires 0 <= k < |itens| => itens[k].q)
  }

  /**
   * The connection's queue fields and the bodies that use them. `Valid` says that
   * the object is in a state some run reaches, so everything above holds of it;
   * each operation of a body is recorded as the action it performs.
   */
  class Conn {
    var bytesNaFila: int
    var saida: seq<QuadroSaida>
    var fechado: bool
    ghost var s: Estado
    ghost var trilha: seq<Acao>

    ghost predicate Valid()
      reads this
    {
      && s.bytesNaFila == bytesNaFila && Quadros(s.saida) == saida && s.fechado == fechado
      && Executa(FILA, INICIAL, trilha) && Final(FILA, INICIAL, trilha) == s
    }

    constructor ()
      ensures Valid() && s == INICIAL
    {
      bytesNaFila, saida, fechado := 0, [], false;
      s, trilha := INICIAL, [];
    }

    ghost method Registrar(a: Acao)
      requires Executa(FILA, INICIAL, trilha) && Final(FILA, INICIAL, trilha) == s && Pode(s, a)
      modifies this`s, this`trilha
      ensures Executa(FILA, INICIAL, trilha) && Final(FILA, INICIAL, trilha) == s
      ensures s == Passo(old(s), a) && trilha == old(trilha) + [a]
    {
      hide Pode, Aplicar;
      ExecutaConcat(FILA, INICIAL, trilha, [a]);
      s, trilha := Passo(s, a), trilha + [a];
    }

    method FecharConexao()
      requires Valid()
      modifies this
      ensures Valid() && fechado && saida == old(saida) && bytesNaFila == old(bytesNaFila)
    {
      Registrar(Fechar);
      fechado := true;
    }

    /** Undo the reservation, close, report a full queue. */
    method RecusarPorCheia(ghost i: nat, bytes: nat) returns (r: Resultado)
      requires Valid() && i < |s.chamadas|
      requires s.chamadas[i].DesfazerCheia? || s.chamadas[i].DesfazerSemLugar?
      requires bytes == Tamanho(s.chamadas[i].q)
      modifies this
      ensures Valid() && r == ErrFilaCheia && fechado
      ensures bytesNaFila == old(bytesNaFila) - bytes && saida == old(saida)
      ensures s.chamadas == old(s).chamadas[i := Retornou(ErrFilaCheia)]
    {
      hide Executa, Final;
      bytesNaFila := bytesNaFila - bytes;
      Registrar(Avancar(i));
      fechado := true;
      Registrar(Avancar(i));
      r := ErrFilaCheia;
    }

    /**
     * Run without interruption, a call enqueues the frame when the connection is
     * open and neither cap is passed, and otherwise leaves the queue and the
     * counter as they were, closing the connection when a cap was the reason.
     */
    method Enfileirar(q: QuadroSaida) returns (r: Resultado)
      requires Valid()
      modifies this
      ensures Valid()
      ensures r == if old(fechado) then ErrConexaoFechada
                   else if old(bytesNaFila) + |q.dados| > 0x20_0000 || |old(saida)| >= 256 then ErrFilaCheia
                   else Aceito
      ensures fechado == (old(fechado) || r == ErrFilaCheia)
      ensures bytesNaFila == old(bytesNaFila) + if r == Aceito then Tamanho(q) else 0
      ensures saida == old(saida) + if r == Aceito then [q] else []
      ensures |s.chamadas| == |old(s).chamadas| + 1 && s.chamadas[|old(s).chamadas|] == Retornou(r)
    {
      hide Executa, Final;
      ghost var i := |s.chamadas|;
      Registrar(Chamar(q));
      Registrar(Avancar(i));
      if fechado { return ErrConexaoFechada; }
      var bytes := |q.dados|;
      bytesNaFila := bytesNaFila + bytes;
      Registrar(Avancar(i));
      if bytesNaFila > BYTES_MAXIMOS {
        r := RecusarPorCheia(i, bytes);
        return;
      }
      if |saida| < LUGARES {
        saida := saida + [q];
        Registrar(Enviar(i));
        return Aceito;
      } else {
        Registrar(SemLugar(i));
        r := RecusarPorCheia(i, bytes);
      }
    }

    /** Take the first frame, subtract its bytes and write it. */
    method Despachar(ok: bool)
      requires Valid() && (s.escritor.Laco? || s.escritor.Drenando?) && saida != []
      modifies this
      ensures Valid() && saida == old(saida)[1..] && fechado == old(fechado)
      ensures bytesNaFila == old(bytesNaFila) - Tamanho(old(saida)[0])
      ensures s.aceitos == old(s).aceitos && s.chamadas == old(s).chamadas
      ensures s.escritos == old(s).escritos + if ok then [old(s).saida[0]] else []
      ensures s.escritor == if ok then old(s).escritor
                            else if old(s).escritor.Laco? then FecharEParar(old(s).saida[0])
                            else Parou(Some(old(s).saida[0]))
    {
      hide Executa, Final;
      var q := saida[0];
      saida := saida[1..];
      Registrar(Pegar);
      bytesNaFila := bytesNaFila - |q.dados|;
      Registrar(DescontarBytes);
      Registrar(EscreverQuadro(ok));
    }

    /**
     * The writer run until it returns or would wait, with `escreve` giving the
     * outcome of each write: unless a write fails it stops only with the queue
     * empty and everything accepted written.
     */
    method Escritor(escreve: nat -> bool) returns (parou: bool)
      requires Valid() && s.escritor.Laco?
      modifies this
      ensures Valid() && s.aceitos == old(s).aceitos
      ensures parou <==> s.escritor.Parou?
      ensures !parou ==> s.escritor.Laco? && !fechado && saida == [] && s.escritos == s.aceitos
      ensures parou && s.escritor.perdido.None? ==> fechado && saida == [] && s.escritos == s.aceitos
      ensures (forall n: nat :: escreve(n)) ==> s.escritor.Laco? || s.escritor == Parou(None)
    {
      hide Executa, Final;
      var drenando, k := false, 0;
      while true
        invariant Valid() && s.aceitos == old(s).aceitos
        invariant k >= 0 && s.escritor == if drenando then Drenando else Laco
        decreases |saida|, !drenando
      {
        EncerramentoDaqui();
        if !drenando && saida == [] && !fechado { return false; }
        if {
          case saida != [] =>
            var ok := escreve(k);
            k := k + 1;
            Despachar(ok);
            if !ok {
              if !drenando {
                fechado := true;
                Registrar(EscreverQuadro(false));
              }
              return true;
            }
          case !drenando && fechado =>
            Registrar(EscritorVeFechado);
            drenando := true;
          case drenando && saida == [] =>
            Registrar(FimDaDrenagem);
            return true;
        }
      }
    }

    /** What the main results say of this object's present state. */
    lemma EncerramentoDaqui()
      requires Valid()
      ensures s.aceitos == s.escritos + NaMao(s.escritor) + s.saida
      ensures s.escritor.Drenando? ==> s.fechado
    {
      InvInicial();
      InvSempre(INICIAL, trilha);
    }
  }
}
