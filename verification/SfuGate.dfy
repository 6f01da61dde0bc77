/**
 * The gate that one join puts between its SFU session and the peer's queue, under
 * every interleaving of the join with the callbacks of the peer connection. Each
 * section under the gate's lock and each enqueuing is one action.
 */
module SfuGate {
  import opened Bytes
  import opened Runs
  import JsonSplice

  /** Where one call of the callback stands. */
  datatype Chamada =
    | Travar(bruto: seq<byte>)    // about to take the gate's lock
    | AEnviar(bruto: seq<byte>)   // the gate was open: about to enqueue
    | Feita(bruto: seq<byte>)

  /** What the join enqueues for the peer: `joined`, or what a call of the callback was given, stamped. */
  datatype Enviado = Joined | DoSfu(chamada: nat, pacote: seq<byte>)

  datatype Fase =
    | Abrindo                          // inside the SFU's Entrar
    | Aberta(ativo: bool)              // it returned; `joined` comes next
    | Anunciada                        // `joined` enqueued; about to open the gate
    | Esvaziando(resto: seq<Enviado>)  // the gate is open; still to enqueue
    | Pronta(ativo: bool)

  datatype Estado = Estado(
    liberado: bool,
    pendentes: seq<Enviado>,
    chamadas: seq<Chamada>,
    fase: Fase,
    enviados: seq<Enviado>)

  const INICIAL: Estado := Estado(false, [], [], Abrindo, [])

  datatype Acao =
    | Chamar(bruto: seq<byte>)
    | Guardar(i: nat)     // the call's section under the lock
    | Enviar(i: nat)
    | Voltar(ok: bool)    // the SFU's Entrar returns
    | Anunciar
    | Liberar
    | Esvaziar

  function Pacote(bruto: seq<byte>): seq<byte> { JsonSplice.ComCampoFrom(bruto, ID_DO_SFU) }

  /** The text "sfu". */
  const ID_DO_SFU: seq<byte> := [0x73, 0x66, 0x75]

  function Item(i: nat, bruto: seq<byte>): Enviado { DoSfu(i, Pacote(bruto)) }

  predicate Pode(s: Estado, a: Acao) {
    match a
    case Chamar(_) => true
    case Guardar(i) => i < |s.chamadas| && s.chamadas[i].Travar?
    case Enviar(i) => i < |s.chamadas| && s.chamadas[i].AEnviar?
    case Voltar(_) => s.fase.Abrindo?
    case Anunciar => s.fase.Aberta?
    case Liberar => s.fase.Anunciada?
    case Esvaziar => s.fase.Esvaziando?
  }

  function Aplicar(s: Estado, a: Acao): Estado
    requires Pode(s, a)
  {
    match a
    case Chamar(bruto) => s.(chamadas := s.chamadas + [Travar(bruto)])
    case Guardar(i) =>
      var c := s.chamadas[i];
      if s.liberado then s.(chamadas := s.chamadas[i := AEnviar(c.bruto)])
      else s.(chamadas := s.chamadas[i := Feita(c.bruto)], pendentes := s.pendentes + [Item(i, c.bruto)])
    case Enviar(i) =>
      var c := s.chamadas[i];
      s.(chamadas := s.chamadas[i := Feita(c.bruto)], enviados := s.enviados + [Item(i, c.bruto)])
    case Voltar(ok) => s.(fase := Aberta(ok))
    case Anunciar =>
      s.(enviados := s.enviados + [Joined], fase := if s.fase.ativo then Anunciada else Pronta(false))
    case Liberar => s.(liberado := true, pendentes := [], fase := Esvaziando(s.pendentes))
    case Esvaziar =>
      if s.fase.resto == [] then s.(fase := Pronta(true))
      else s.(enviados := s.enviados + [s.fase.resto[0]], fase := Esvaziando(s.fase.resto[1..]))
  }

  function Passo(s: Estado, a: Acao): Estado { if Pode(s, a) then Aplicar(s, a) else s }

  const PORTAO: Sistema<Estado, Acao> := Sistema(Pode, Passo)

  function Resto(f: Fase): seq<Enviado> { if f.Esvaziando? then f.resto else [] }

  /** Where the message of call i is: held, being flushed, or enqueued. */
  function Vezes(s: Estado, i: nat): nat
    requires i < |s.chamadas|
  {
    var item := Item(i, s.chamadas[i].bruto);
    Conta(s.pendentes, item) + Conta(Resto(s.fase), item) + Conta(s.enviados, item)
  }

  function Conta(es: seq<Enviado>, e: Enviado): nat { multiset(es)[e] }

  predicate Conservada(s: Estado, i: nat)
    requires i < |s.chamadas|
  {
    Vezes(s, i) == if s.chamadas[i].Feita? then 1 else 0
  }

  /** Only what some call was given, and `joined`, is ever held or enqueued. */
  predicate DeAlguem(s: Estado, e: Enviado) {
    e.DoSfu? && e.chamada < |s.chamadas| && e == Item(e.chamada, s.chamadas[e.chamada].bruto)
  }

  ghost predicate Todas(s: Estado, es: seq<Enviado>) { forall k | 0 <= k < |es| :: DeAlguem(s, es[k]) }

  ghost predicate Legitima(s: Estado) {
    && Todas(s, s.pendentes) && Todas(s, Resto(s.fase))
    && (s.enviados != [] ==> s.enviados[0] == Joined && Todas(s, s.enviados[1..]))
  }

  /** How far the join has come decides what the gate lets through. */
  predicate Fechado(s: Estado) {
    && (s.liberado <==> s.fase.Esvaziando? || (s.fase.Pronta? && s.fase.ativo))
    && (s.liberado ==> s.pendentes == [])
    && (s.fase.Abrindo? || s.fase.Aberta? ==> s.enviados == [])
    && (s.fase.Anunciada? || s.fase.Pronta? || s.liberado ==> s.enviados != [])
    && (s.fase.Anunciada? || s.fase == Pronta(false) ==> s.enviados == [Joined])
  }

  predicate SemApressados(s: Estado) {
    forall i | 0 <= i < |s.chamadas| :: s.chamadas[i].AEnviar? ==> s.liberado
  }

  ghost predicate Inv(s: Estado) {
    && Fechado(s) && SemApressados(s) && Legitima(s)
    && forall i | 0 <= i < |s.chamadas| :: Conservada(s, i)
  }

  lemma InvFechado(s: Estado, a: Acao)
    requires Fechado(s) && SemApressados(s) && Pode(s, a)
    ensures Fechado(Passo(s, a)) && SemApressados(Passo(s, a))
  {
    hide Item;
  }

  lemma DeAlguemFica(s: Estado, a: Acao, es: seq<Enviado>)
    requires Todas(s, es) && Pode(s, a)
    ensures Todas(Passo(s, a), es)
  {
    hide Item;
    var t := Passo(s, a);
    forall k | 0 <= k < |es| ensures DeAlguem(t, es[k]) { assert DeAlguem(s, es[k]); }
  }

  lemma InvLegitima(s: Estado, a: Acao)
    requires Fechado(s) && SemApressados(s) && Legitima(s) && Pode(s, a)
    ensures Legitima(Passo(s, a))
  {
    hide Pacote;
    var t := Passo(s, a);
    DeAlguemFica(s, a, s.pendentes);
    DeAlguemFica(s, a, Resto(s.fase));
    if s.enviados != [] {
      DeAlguemFica(s, a, s.enviados[1..]);
      assert forall e :: (s.enviados + [e])[1..] == s.enviados[1..] + [e];
    }
  }

  lemma ContaMais(es: seq<Enviado>, x: Enviado, e: Enviado)
    ensures Conta(es + [x], e) == Conta(es, e) + if x == e then 1 else 0
  {
    assert multiset(es + [x]) == multiset(es) + multiset{x};
  }

  lemma ContaPrimeiro(es: seq<Enviado>, e: Enviado)
    requires es != []
    ensures Conta(es, e) == Conta(es[1..], e) + if es[0] == e then 1 else 0
  {
    assert es == [es[0]] + es[1..];
    assert multiset(es) == multiset{es[0]} + multiset(es[1..]);
  }

  lemma ContaNova(s: Estado, es: seq<Enviado>, i: nat, bruto: seq<byte>)
    requires Todas(s, es) && i == |s.chamadas|
    ensures Conta(es, Item(i, bruto)) == 0
  {
    hide Pacote;
    forall k | 0 <= k < |es| ensures es[k] != Item(i, bruto) { assert DeAlguem(s, es[k]); }
  }

  lemma InvConservada(s: Estado, a: Acao, i: nat)
    requires Fechado(s) && Legitima(s) && Pode(s, a)
    requires i < |Passo(s, a).chamadas| && (i < |s.chamadas| ==> Conservada(s, i))
    ensures Conservada(Passo(s, a), i)
  {
    hide Pacote, Conta, Fechado, Legitima;
    var t := Passo(s, a);
    var e := Item(i, t.chamadas[i].bruto);
    match a
    case Chamar(bruto) => if i == |s.chamadas| { NovaNaoConta(s, bruto); }
    case Guardar(j) => ContaMais(s.pendentes, Item(j, s.chamadas[j].bruto), e);
    case Enviar(j) => ContaMais(s.enviados, Item(j, s.chamadas[j].bruto), e);
    case Voltar(_) =>
    case Anunciar => ContaMais(s.enviados, Joined, e);
    case Liberar => ContaVazia(e);
    case Esvaziar =>
      ContaVazia(e);
      if s.fase.resto != [] {
        ContaPrimeiro(s.fase.resto, e);
        ContaMais(s.enviados, s.fase.resto[0], e);
      }
  }

  lemma ContaVazia(e: Enviado)
    ensures Conta([], e) == 0
  {
  }

  lemma NovaNaoConta(s: Estado, bruto: seq<byte>)
    requires Legitima(s)
    ensures var e := Item(|s.chamadas|, bruto);
            Conta(s.pendentes, e) == 0 && Conta(Resto(s.fase), e) == 0 && Conta(s.enviados, e) == 0
  {
    hide Conta, Pacote;
    var i := |s.chamadas|;
    ContaNova(s, s.pendentes, i, bruto);
    ContaNova(s, Resto(s.fase), i, bruto);
    ContaVazia(Item(i, bruto));
    if s.enviados != [] {
      ContaNova(s, s.enviados[1..], i, bruto);
      ContaPrimeiro(s.enviados, Item(i, bruto));
    }
  }

  lemma InvPasso(s: Estado, a: Acao)
    requires Inv(s) && Pode(s, a)
    ensures Inv(Passo(s, a))
  {
    hide Passo, Pode, Fechado, Legitima, SemApressados, Conservada;
    InvFechado(s, a);
    InvLegitima(s, a);
    forall i | 0 <= i < |Passo(s, a).chamadas| ensures Conservada(Passo(s, a), i) { InvConservada(s, a, i); }
  }

  lemma {:induction false} InvSempre(acoes: seq<Acao>)
    requires Executa(PORTAO, INICIAL, acoes)
    ensures Inv(Final(PORTAO, INICIAL, acoes))
  {
    assert Inv(INICIAL);
    hide Inv, Passo, Pode;
    forall s, a | Inv(s) && PORTAO.pode(s, a) ensures Inv(PORTAO.passo(s, a)) { InvPasso(s, a); }
    Sempre(PORTAO, Inv, INICIAL, acoes);
  }

  // ------------------------------------------------------------- main results

  /**
   * Nothing of the SFU session reaches the peer's queue before `joined`, in any
   * interleaving, and nothing ever does when the SFU's Entrar failed.
   */
  lemma {:induction false} NadaAntesDoJoined(acoes: seq<Acao>, k: nat)
    requires Executa(PORTAO, INICIAL, acoes)
    requires k < |Final(PORTAO, INICIAL, acoes).enviados|
    ensures var s := Final(PORTAO, INICIAL, acoes);
            && (s.enviados[k] == Joined <==> k == 0)
            && (k > 0 ==> s.liberado && s.fase != Pronta(false))
  {
    InvSempre(acoes);
    var s := Final(PORTAO, INICIAL, acoes);
    hide Item;
    if k > 0 { assert DeAlguem(s, s.enviados[1..][k - 1]); }
  }

  /**
   * Nothing is lost or repeated: once the flush is over, each message given to the
   * callback whose call finished has been enqueued exactly once, and every message
   * enqueued after `joined` is one of those, stamped as the SFU's.
   */
  lemma {:induction false} CadaMensagemUmaVez(acoes: seq<Acao>)
    requires Executa(PORTAO, INICIAL, acoes)
    requires Final(PORTAO, INICIAL, acoes).fase == Pronta(true)
    ensures var s := Final(PORTAO, INICIAL, acoes);
            && (forall i | 0 <= i < |s.chamadas| ::
                  multiset(s.enviados)[Item(i, s.chamadas[i].bruto)] == if s.chamadas[i].Feita? then 1 else 0)
            && (forall k | 0 < k < |s.enviados| ::
                  DeAlguem(s, s.enviados[k]) && s.chamadas[s.enviados[k].chamada].Feita?)
  {
    InvSempre(acoes);
    var s := Final(PORTAO, INICIAL, acoes);
    hide Item;
    forall i | 0 <= i < |s.chamadas|
      ensures multiset(s.enviados)[Item(i, s.chamadas[i].bruto)] == if s.chamadas[i].Feita? then 1 else 0
    {
      assert Conservada(s, i);
    }
    forall k | 0 < k < |s.enviados|
      ensures DeAlguem(s, s.enviados[k]) && s.chamadas[s.enviados[k].chamada].Feita?
    {
      assert s.enviados[k] == s.enviados[1..][k - 1];
      assert DeAlguem(s, s.enviados[k]);
      assert s.enviados[k] in multiset(s.enviados);
    }
  }

  // ------------------------------------------------------------- the code itself

  datatype Mensagem = TextoJoined | TextoSfu(pacote: seq<byte>)

  function Texto(e: Enviado): Mensagem { if e.Joined? then TextoJoined else TextoSfu(e.pacote) }

  function Textos(es: seq<Enviado>): (ts: seq<Mensagem>)
    ensures |ts| == |es|
  {
    seq(|es|, k requires 0 <= k < |es| => Texto(es[k]))
  }

  lemma TextosMais(es: seq<Enviado>, e: Enviado)
    ensures Textos(es + [e]) == Textos(es) + [Texto(e)]
  {
  }

  /**
   * The join's local variables and the peer's queue. `Valid` says that they are in
   * a state some interleaving reaches, so everything above holds of them.
   */
  class Portao {
    var sfuLiberado: bool
    var mensagensSFU: seq<Mensagem>
    var fila: seq<Mensagem>
    ghost var s: Estado
    ghost var trilha: seq<Acao>

    ghost predicate Valid()
      reads this
    {
      && sfuLiberado == s.liberado && mensagensSFU == Textos(s.pendentes) && fila == Textos(s.enviados)
      && Executa(PORTAO, INICIAL, trilha) && Final(PORTAO, INICIAL, trilha) == s
    }

    constructor ()
      ensures Valid() && s == INICIAL
    {
      sfuLiberado, mensagensSFU, fila := false, [], [];
      s, trilha := INICIAL, [];
    }

    ghost method Registrar(a: Acao)
      requires Executa(PORTAO, INICIAL, trilha) && Final(PORTAO, INICIAL, trilha) == s && Pode(s, a)
      modifies this`s, this`trilha
      ensures Executa(PORTAO, INICIAL, trilha) && Final(PORTAO, INICIAL, trilha) == s
      ensures s == Passo(old(s), a) && trilha == old(trilha) + [a]
    {
      hide Pode, Aplicar;
      ExecutaConcat(PORTAO, INICIAL, trilha, [a]);
      s, trilha := Passo(s, a), trilha + [a];
    }

    /** enviarDoSFU, run without interruption. */
    method EnviarDoSfu(bruto: seq<byte>)
      requires Valid()
      modifies this
      ensures Valid() && sfuLiberado == old(sfuLiberado) && s.fase == old(s).fase
      ensures var m := [TextoSfu(JsonSplice.ComCampoFrom(bruto, [0x73, 0x66, 0x75]))];
              if sfuLiberado then fila == old(fila) + m && mensagensSFU == old(mensagensSFU)
              else fila == old(fila) && mensagensSFU == old(mensagensSFU) + m
    {
      hide Executa, Final, Textos;
      var pacote := JsonSplice.ComCampoFrom(bruto, ID_DO_SFU);
      ghost var i := |s.chamadas|;
      Registrar(Chamar(bruto));
      TextosMais(s.pendentes, Item(i, bruto));
      TextosMais(s.enviados, Item(i, bruto));
      Registrar(Guardar(i));
      if !sfuLiberado {
        mensagensSFU := mensagensSFU + [TextoSfu(pacote)];
        return;
      }
      Registrar(Enviar(i));
      fila := fila + [TextoSfu(pacote)];
    }

    /** The join from the return of the SFU's Entrar, run without interruption. */
    method Concluir(sfuAtivo: bool)
      requires Valid() && s.fase.Abrindo?
      modifies this
      ensures Valid() && s.fase == Pronta(sfuAtivo) && sfuLiberado == sfuAtivo
      ensures fila == [TextoJoined] + if sfuAtivo then old(mensagensSFU) else []
      ensures mensagensSFU == if sfuAtivo then [] else old(mensagensSFU)
    {
      hide Executa, Final, Textos;
      NadaEnviado();
      Registrar(Voltar(sfuAtivo));
      TextosMais(s.enviados, Joined);
      Registrar(Anunciar);
      fila := fila + [TextoJoined];
      if sfuAtivo {
        Registrar(Liberar);
        sfuLiberado := true;
        var pendentes := mensagensSFU;
        mensagensSFU := [];
        ghost var itens := s.fase.resto;
        var n := 0;
        TextosVazio();
        while n < |pendentes|
          invariant 0 <= n <= |pendentes| && Valid() && sfuLiberado && mensagensSFU == []
          invariant s.fase == Esvaziando(itens[n..]) && pendentes == Textos(itens)
          invariant fila == [TextoJoined] + pendentes[..n]
        {
          TextosMais(s.enviados, itens[n]);
          TextoEm(itens, n);
          Registrar(Esvaziar);
          fila := fila + [pendentes[n]];
          n := n + 1;
        }
        Registrar(Esvaziar);
      }
    }

    lemma NadaEnviado()
      requires Valid() && s.fase.Abrindo?
      ensures fila == [] && s.enviados == [] && !sfuLiberado
    {
      InvSempre(trilha);
    }
  }

  lemma TextosVazio()
    ensures Textos([]) == []
  {
  }

  lemma TextoEm(es: seq<Enviado>, n: nat)
    requires n < |es|
    ensures Textos(es)[n] == Texto(es[n])
  {
  }
}
