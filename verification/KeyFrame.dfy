/**
 * Key-frame requests for one forwarded track: the limiter that lets one through
 * per interval, and the goroutine that repeats a request, with any number of
 * viewers asking. Times are nanoseconds of one clock; a request reads the clock
 * before it takes the track's lock, so the lock can see times out of order.
 */
module KeyFrame {
  import opened Bytes
  import opened Runs
  import opened Sums

  const MILISSEGUNDO: int := 1_000_000
  const INTERVALO: int := 500 * MILISSEGUNDO

  // ------------------------------------------------------------------ the limiter

  predicate Permitida(ultima: Option<int>, agora: int) {
    ultima.None? || agora - ultima.value >= INTERVALO
  }

  /** The requests let through, of all that were asked for, in the order they took the lock. */
  function Aceitos(ts: seq<int>): seq<int> {
    if ts == [] then [] else
    var antes := Aceitos(ts[..|ts| - 1]);
    if Permitida(Ultimo(antes), ts[|ts| - 1]) then antes + [ts[|ts| - 1]] else antes
  }

  function Ultimo(s: seq<int>): Option<int> { if s == [] then None else Some(s[|s| - 1]) }

  lemma {:induction false} AceitosMais(ts: seq<int>, t: int)
    ensures Aceitos(ts + [t]) == Aceitos(ts) + if Permitida(Ultimo(Aceitos(ts)), t) then [t] else []
  {
    assert (ts + [t])[..|ts|] == ts;
  }

  /** Requests let through are an interval apart for each place between them. */
  lemma {:induction false} AceitosEspacados(ts: seq<int>, i: nat, j: nat)
    requires i <= j < |Aceitos(ts)|
    ensures Aceitos(ts)[j] - Aceitos(ts)[i] >= (j - i) * INTERVALO
  {
    var antes := Aceitos(ts[..|ts| - 1]);
    if j < |antes| {
      AceitosEspacados(ts[..|ts| - 1], i, j);
    } else if i < j {
      AceitosEspacados(ts[..|ts| - 1], i, j - 1);
    }
  }

  /** How many of the times fall within [de, ate]. */
  function NaJanela(s: seq<int>, de: int, ate: int): nat {
    if s == [] then 0 else NaJanela(s[..|s| - 1], de, ate) + if de <= s[|s| - 1] <= ate then 1 else 0
  }

  ghost predicate Espacados(s: seq<int>) {
    forall i, j | 0 <= i <= j < |s| :: s[j] - s[i] >= (j - i) * INTERVALO
  }

  /** The first of the times in the window, and how far the last can be from it. */
  lemma {:induction false} JanelaCabe(s: seq<int>, de: int, ate: int) returns (i: nat, j: nat)
    requires Espacados(s) && NaJanela(s, de, ate) > 0
    ensures i <= j < |s| && de <= s[i] && s[j] <= ate && NaJanela(s, de, ate) <= j - i + 1
  {
    var n := |s| - 1;
    var antes := s[..n];
    assert Espacados(antes);
    if NaJanela(antes, de, ate) == 0 {
      i, j := n, n;
    } else {
      i, j := JanelaCabe(antes, de, ate);
      if de <= s[n] <= ate { j := n; }
    }
  }

  /** Any window of length W holds at most W / 500 ms + 1 requests let through. */
  lemma JanelaLimitada(ts: seq<int>, de: int, largura: nat)
    ensures NaJanela(Aceitos(ts), de, de + largura) <= largura / INTERVALO + 1
  {
    var s := Aceitos(ts);
    forall i, j | 0 <= i <= j < |s| ensures s[j] - s[i] >= (j - i) * INTERVALO { AceitosEspacados(ts, i, j); }
    if NaJanela(s, de, de + largura) > 0 {
      var i, j := JanelaCabe(s, de, de + largura);
      CabeNoQuociente(j - i, largura);
    }
  }

  lemma CabeNoQuociente(n: nat, largura: nat)
    requires n * INTERVALO <= largura
    ensures n <= largura / INTERVALO
  {
  }

  /**
   * The limiter holds back no more than that: when calls come in order of time,
   * each finds a request let through less than an interval before it, or is let
   * through itself.
   */
  lemma {:induction false} NinguemEsperaMais(ts: seq<int>, n: nat) returns (k: nat)
    requires n < |ts| && forall i, j | 0 <= i <= j < |ts| :: ts[i] <= ts[j]
    ensures k < |Aceitos(ts[..n + 1])| && ts[n] - INTERVALO < Aceitos(ts[..n + 1])[k] <= ts[n]
  {
    var antes := Aceitos(ts[..n]);
    assert ts[..n + 1] == ts[..n] + [ts[n]];
    AceitosMais(ts[..n], ts[n]);
    k := |Aceitos(ts[..n + 1])| - 1;
    if !Permitida(Ultimo(antes), ts[n]) { AceitoVeioDeUmaChamada(ts[..n], |antes| - 1); }
  }

  lemma {:induction false} AceitoVeioDeUmaChamada(ts: seq<int>, k: nat)
    requires k < |Aceitos(ts)|
    ensures Aceitos(ts)[k] in ts
  {
    var n := |ts| - 1;
    if k < |Aceitos(ts[..n])| {
      AceitoVeioDeUmaChamada(ts[..n], k);
      assert Aceitos(ts)[k] in ts[..n];
    }
  }

  // -------------------------------------------------- the goroutine that repeats

  const ESPERAS: seq<int> := [0, 500 * MILISSEGUNDO, 1500 * MILISSEGUNDO]

  /** Where a goroutine that asks for key frames stands. */
  datatype Fase =
    | Dormindo(k: nat, ate: int)
    | Verificando(k: nat)          // about to see whether the track is still on the air
    | Pedindo(k: nat)              // about to call pedirChave
    | NoPedido(k: nat, t: int)     // read the clock; about to take the track's lock
    | Avulso(t: int)               // the same, for a viewer's own request
    | Limpando                     // about to clear repetindoChave
    | Fim

  /** `insiste` marks insistirNaChave's goroutines; `momentos` is when each called pedirChave. */
  datatype Linha = Linha(insiste: bool, fase: Fase, momentos: seq<int>)

  /** `consultas` and `pedidos` are history: times brought to the limiter and times it let through. */
  datatype Estado = Estado(
    agora: int,
    noAr: bool,
    publica: bool,
    repetindoChave: bool,
    ultimaChave: Option<int>,
    linhas: seq<Linha>,
    consultas: seq<int>,
    pedidos: seq<int>)

  function Inicial(agora: int): Estado { Estado(agora, true, true, false, None, [], [], []) }

  datatype Acao =
    | Passar(tempo: nat)
    | SairDoAr
    | Publicar(sim: bool)   // whether the owner's session is found and the track is video
    | Insistir
    | PedirAvulso
    | Avancar(i: nat)

  predicate Pode(s: Estado, a: Acao) {
    match a
    case Passar(_) => true
    case SairDoAr => true
    case Publicar(_) => true
    case Insistir => true
    case PedirAvulso => true
    case Avancar(i) =>
      i < |s.linhas| && !s.linhas[i].fase.Fim?
      && (s.linhas[i].fase.Dormindo? ==> s.linhas[i].fase.ate <= s.agora)
  }

  function Seguinte(k: nat, agora: int): Fase {
    if k + 1 < |ESPERAS| then Dormindo(k + 1, agora + ESPERAS[k + 1]) else Limpando
  }

  function Ir(s: Estado, i: nat, f: Fase): Estado
    requires i < |s.linhas|
  {
    s.(linhas := s.linhas[i := s.linhas[i].(fase := f)])
  }

  /** permitirChave. */
  function Consultar(s: Estado, t: int): Estado {
    if Permitida(s.ultimaChave, t)
    then s.(ultimaChave := Some(t), consultas := s.consultas + [t], pedidos := s.pedidos + [t])
    else s.(consultas := s.consultas + [t])
  }

  function AplicarAvanco(s: Estado, i: nat): Estado
    requires Pode(s, Avancar(i))
  {
    var l := s.linhas[i];
    match l.fase
    case Dormindo(k, _) => Ir(s, i, Verificando(k))
    case Verificando(k) => Ir(s, i, if s.noAr then Pedindo(k) else Limpando)
    case Pedindo(k) =>
      var f := if s.publica then NoPedido(k, s.agora) else Seguinte(k, s.agora);
      s.(linhas := s.linhas[i := l.(fase := f, momentos := l.momentos + [s.agora])])
    case NoPedido(k, t) => Ir(Consultar(s, t), i, Seguinte(k, s.agora))
    case Avulso(t) => Ir(Consultar(s, t), i, Fim)
    case Limpando => Ir(s.(repetindoChave := false), i, Fim)
  }

  function Passo(s: Estado, a: Acao): Estado {
    match a
    case Passar(tempo) => s.(agora := s.agora + tempo)
    case SairDoAr => s.(noAr := false)
    case Publicar(sim) => s.(publica := sim)
    case Insistir =>
      if s.repetindoChave then s
      else s.(repetindoChave := true, linhas := s.linhas + [Linha(true, Dormindo(0, s.agora), [])])
    case PedirAvulso =>
      if s.publica then s.(linhas := s.linhas + [Linha(false, Avulso(s.agora), [s.agora])]) else s
    case Avancar(i) => if Pode(s, a) then AplicarAvanco(s, i) else s
  }

  const CHAVES: Sistema<Estado, Acao> := Sistema(Pode, Passo)

  function Viva(l: Linha): nat { if l.insiste && !l.fase.Fim? then 1 else 0 }

  function Espera(j: nat): int { if j < |ESPERAS| then ESPERAS[j] else 0 }

  predicate Espacada(m: seq<int>) { forall j | 0 < j < |m| :: m[j] - m[j - 1] >= Espera(j) }

  /** The requests made agree with how far the goroutine is, each after its wait. */
  predicate LinhaCoerente(l: Linha, agora: int) {
    var f := l.fase;
    var n := |l.momentos|;
    && Espacada(l.momentos)
    && (n > 0 ==> l.momentos[n - 1] <= agora)
    && n <= |ESPERAS|
    && (f.Dormindo? || f.Verificando? || f.Pedindo? ==> f.k == n && n < |ESPERAS| && l.insiste)
    && (f.NoPedido? ==> f.k + 1 == n && l.insiste)
    && (f.Limpando? ==> l.insiste)
    && (f.Avulso? ==> !l.insiste)
    && (f.Dormindo? && n > 0 ==> f.ate >= l.momentos[n - 1] + Espera(n))
    && ((f.Verificando? || f.Pedindo?) && n > 0 ==> agora >= l.momentos[n - 1] + Espera(n))
  }


  ghost predicate Limitador(s: Estado) {
    s.pedidos == Aceitos(s.consultas) && s.ultimaChave == Ultimo(s.pedidos)
  }

  ghost predicate Inv(s: Estado) {
    && Limitador(s)
    && Soma(s.linhas, Viva) == (if s.repetindoChave then 1 else 0)
    && forall i | 0 <= i < |s.linhas| :: LinhaCoerente(s.linhas[i], s.agora)
  }

  lemma InvLimitador(s: Estado, a: Acao)
    requires Limitador(s) && Pode(s, a)
    ensures Limitador(Passo(s, a))
  {
    hide Aceitos;
    if a.Avancar? {
      var f := s.linhas[a.i].fase;
      if f.NoPedido? { AceitosMais(s.consultas, f.t); }
      if f.Avulso? { AceitosMais(s.consultas, f.t); }
    }
  }

  lemma InvVivas(s: Estado, a: Acao)
    requires Pode(s, a) && Soma(s.linhas, Viva) == (if s.repetindoChave then 1 else 0)
    requires a.Avancar? ==> LinhaCoerente(s.linhas[a.i], s.agora)
    ensures Soma(Passo(s, a).linhas, Viva) == if Passo(s, a).repetindoChave then 1 else 0
  {
    hide Soma, Aceitos;
    var t := Passo(s, a);
    if a.Avancar? {
      SomaTroca(s.linhas, a.i, t.linhas[a.i], Viva);
      SomaInclui(s.linhas, a.i, Viva);
    } else if |t.linhas| > |s.linhas| {
      SomaMais(s.linhas, t.linhas[|s.linhas|], Viva);
    }
  }

  lemma EspacadaMais(m: seq<int>, t: int)
    requires Espacada(m) && (m != [] ==> t - m[|m| - 1] >= Espera(|m|))
    ensures Espacada(m + [t])
  {
  }

  lemma LinhaPede(s: Estado, i: nat)
    requires Pode(s, Avancar(i)) && s.linhas[i].fase.Pedindo? && LinhaCoerente(s.linhas[i], s.agora)
    ensures LinhaCoerente(AplicarAvanco(s, i).linhas[i], s.agora)
  {
    hide Espacada;
    EspacadaMais(s.linhas[i].momentos, s.agora);
  }

  lemma LinhaAvanca(s: Estado, i: nat)
    requires Pode(s, Avancar(i)) && LinhaCoerente(s.linhas[i], s.agora)
    ensures LinhaCoerente(AplicarAvanco(s, i).linhas[i], s.agora)
  {
    hide Consultar, Espacada;
    var l := s.linhas[i];
    if l.fase.Pedindo? {
      LinhaPede(s, i);
    } else {
      ConsultarSoConsulta(s, if l.fase.NoPedido? || l.fase.Avulso? then l.fase.t else 0);
    }
  }

  lemma ConsultarSoConsulta(s: Estado, t: int)
    ensures Consultar(s, t).linhas == s.linhas && Consultar(s, t).agora == s.agora
  {
  }

  lemma OutrasLinhas(s: Estado, i: nat, j: nat)
    requires Pode(s, Avancar(i)) && j != i && j < |s.linhas|
    ensures AplicarAvanco(s, i).linhas[j] == s.linhas[j]
  {
  }

  lemma AvancoNoInstante(s: Estado, i: nat)
    requires Pode(s, Avancar(i))
    ensures AplicarAvanco(s, i).agora == s.agora && |AplicarAvanco(s, i).linhas| == |s.linhas|
  {
  }

  lemma InvLinha(s: Estado, a: Acao, i: nat)
    requires Pode(s, a) && i < |Passo(s, a).linhas|
    requires i < |s.linhas| ==> LinhaCoerente(s.linhas[i], s.agora)
    ensures LinhaCoerente(Passo(s, a).linhas[i], Passo(s, a).agora)
  {
    hide AplicarAvanco, Pode, Espacada;
    if a.Avancar? {
      AvancoNoInstante(s, a.i);
      if i == a.i { LinhaAvanca(s, i); } else { OutrasLinhas(s, a.i, i); }
    } else if i == |s.linhas| {
      LinhaNova(s.agora);
    }
  }

  lemma LinhaNova(agora: int)
    ensures LinhaCoerente(Linha(true, Dormindo(0, agora), []), agora)
    ensures LinhaCoerente(Linha(false, Avulso(agora), [agora]), agora)
  {
  }

  lemma InvPasso(s: Estado, a: Acao)
    requires Inv(s) && Pode(s, a)
    ensures Inv(Passo(s, a))
  {
    hide Passo, Pode, Soma, Limitador, LinhaCoerente;
    InvLimitador(s, a);
    if a.Avancar? { IndiceValido(s, a); }
    InvVivas(s, a);
    forall i | 0 <= i < |Passo(s, a).linhas|
      ensures LinhaCoerente(Passo(s, a).linhas[i], Passo(s, a).agora)
    {
      InvLinha(s, a, i);
    }
  }

  lemma IndiceValido(s: Estado, a: Acao)
    requires a.Avancar? && Pode(s, a)
    ensures a.i < |s.linhas|
  {
  }

  lemma {:induction false} InvSempre(agora: int, acoes: seq<Acao>)
    requires Executa(CHAVES, Inicial(agora), acoes)
    ensures Inv(Final(CHAVES, Inicial(agora), acoes))
  {
    assert Inv(Inicial(agora));
    hide Inv, Passo, Pode;
    forall s, a | Inv(s) && CHAVES.pode(s, a) ensures Inv(CHAVES.passo(s, a)) { InvPasso(s, a); }
    Sempre(CHAVES, Inv, Inicial(agora), acoes);
  }

  /**
   * Whatever the viewers ask for and whatever repeats, the key frames requested of
   * the publisher are at least 500 ms apart, and any window of length W holds at
   * most W / 500 ms + 1 of them.
   */
  lemma PedidosEspacados(agora: int, acoes: seq<Acao>, i: nat, j: nat, de: int, largura: nat)
    requires Executa(CHAVES, Inicial(agora), acoes)
    requires i < j < |Final(CHAVES, Inicial(agora), acoes).pedidos|
    ensures var p := Final(CHAVES, Inicial(agora), acoes).pedidos;
            && p[j] - p[i] >= (j - i) * 500_000_000
            && NaJanela(p, de, de + largura) <= largura / 500_000_000 + 1
  {
    InvSempre(agora, acoes);
    var s := Final(CHAVES, Inicial(agora), acoes);
    AceitosEspacados(s.consultas, i, j);
    JanelaLimitada(s.consultas, de, largura);
  }

  /** At most one repeating goroutine is live, and one exactly while the flag says so. */
  lemma {:induction false} UmaRepeticao(agora: int, acoes: seq<Acao>, i: nat, j: nat)
    requires Executa(CHAVES, Inicial(agora), acoes)
    ensures var s := Final(CHAVES, Inicial(agora), acoes);
            && Soma(s.linhas, Viva) == (if s.repetindoChave then 1 else 0)
            && (i < |s.linhas| && j < |s.linhas| && Viva(s.linhas[i]) == 1 && Viva(s.linhas[j]) == 1 ==> i == j)
  {
    InvSempre(agora, acoes);
    var s := Final(CHAVES, Inicial(agora), acoes);
    if i < j < |s.linhas| { SomaIncluiDois(s.linhas, i, j, Viva); }
    if j < i < |s.linhas| { SomaIncluiDois(s.linhas, j, i, Viva); }
  }

  /** A repeating goroutine asks at most three times, waiting 500 ms and then 1.5 s in between. */
  lemma {:induction false} TresPedidos(agora: int, acoes: seq<Acao>, i: nat)
    requires Executa(CHAVES, Inicial(agora), acoes)
    requires var s := Final(CHAVES, Inicial(agora), acoes); i < |s.linhas| && s.linhas[i].insiste
    ensures var m := Final(CHAVES, Inicial(agora), acoes).linhas[i].momentos;
            && |m| <= 3
            && (|m| > 1 ==> m[1] - m[0] >= 500 * MILISSEGUNDO)
            && (|m| > 2 ==> m[2] - m[1] >= 1500 * MILISSEGUNDO)
  {
    InvSempre(agora, acoes);
    assert LinhaCoerente(Final(CHAVES, Inicial(agora), acoes).linhas[i], Final(CHAVES, Inicial(agora), acoes).agora);
  }

  // ------------------------------------------- how many requests a goroutine makes

  /** One that is done while the track is on the air has asked three times. */
  predicate FezTres(l: Linha) { l.insiste && (l.fase.Limpando? || l.fase.Fim?) ==> |l.momentos| == 3 }

  ghost predicate NoArInv(s: Estado) {
    s.noAr && forall i | 0 <= i < |s.linhas| :: LinhaCoerente(s.linhas[i], s.agora) && FezTres(s.linhas[i])
  }

  lemma FezTresAvanca(s: Estado, i: nat)
    requires Pode(s, Avancar(i)) && s.noAr && LinhaCoerente(s.linhas[i], s.agora) && FezTres(s.linhas[i])
    ensures FezTres(AplicarAvanco(s, i).linhas[i])
  {
    hide Espacada, Consultar;
    var l := s.linhas[i];
    ConsultarSoConsulta(s, if l.fase.NoPedido? || l.fase.Avulso? then l.fase.t else 0);
  }

  lemma NoArPasso(s: Estado, a: Acao)
    requires NoArInv(s) && Pode(s, a) && !a.SairDoAr?
    ensures NoArInv(Passo(s, a))
  {
    hide LinhaCoerente, AplicarAvanco, FezTres, Pode;
    var t := Passo(s, a);
    if a.Avancar? {
      AvancoNoInstante(s, a.i);
      AvancoForaDoAr(s, a.i);
      IndiceValido(s, a);
    }
    forall i | 0 <= i < |t.linhas| ensures LinhaCoerente(t.linhas[i], t.agora) && FezTres(t.linhas[i]) {
      InvLinha(s, a, i);
      if a.Avancar? {
        if i == a.i { FezTresAvanca(s, i); } else { OutrasLinhas(s, a.i, i); }
      } else if i == |s.linhas| {
        FezTresNova(s.agora);
      }
    }
  }

  lemma FezTresNova(agora: int)
    ensures FezTres(Linha(true, Dormindo(0, agora), [])) && FezTres(Linha(false, Avulso(agora), [agora]))
  {
  }

  lemma AvancoForaDoAr(s: Estado, i: nat)
    requires Pode(s, Avancar(i))
    ensures AplicarAvanco(s, i).noAr == s.noAr
  {
  }

  /**
   * While the track stays on the air every repeating goroutine that ends has asked
   * exactly three times, in every interleaving: one that ended with fewer ended after
   * the track went off the air.
   */
  lemma {:induction false} NoArPedeTres(agora: int, acoes: seq<Acao>, i: nat)
    requires Executa(CHAVES, Inicial(agora), acoes) && forall k | 0 <= k < |acoes| :: !acoes[k].SairDoAr?
    requires var s := Final(CHAVES, Inicial(agora), acoes);
             i < |s.linhas| && s.linhas[i].insiste && s.linhas[i].fase.Fim?
    ensures |Final(CHAVES, Inicial(agora), acoes).linhas[i].momentos| == 3
  {
    assert NoArInv(Inicial(agora));
    NoArAteOFim(Inicial(agora), acoes);
    assert FezTres(Final(CHAVES, Inicial(agora), acoes).linhas[i]);
  }

  lemma {:induction false} NoArAteOFim(s: Estado, acoes: seq<Acao>)
    requires NoArInv(s) && Executa(CHAVES, s, acoes) && forall k | 0 <= k < |acoes| :: !acoes[k].SairDoAr?
    ensures NoArInv(Final(CHAVES, s, acoes))
    decreases |acoes|
  {
    hide NoArInv, Passo, Pode;
    if acoes != [] {
      NoArPasso(s, acoes[0]);
      NoArAteOFim(Passo(s, acoes[0]), acoes[1..]);
    }
  }

  /** The track is off the air, and line i, present or to come, makes at most n requests in all. */
  predicate NoMaximo(s: Estado, i: nat, n: nat) {
    && !s.noAr
    && (i < |s.linhas| ==> s.linhas[i].insiste ==>
          |s.linhas[i].momentos| + (if s.linhas[i].fase.Pedindo? then 1 else 0) <= n)
  }

  lemma NoMaximoPasso(s: Estado, a: Acao, i: nat, n: nat)
    requires NoMaximo(s, i, n) && Pode(s, a) && (i >= |s.linhas| ==> n == 0)
    ensures NoMaximo(Passo(s, a), i, n)
    ensures i < |s.linhas| ==> i < |Passo(s, a).linhas|
  {
    hide Consultar;
    if a.Avancar? {
      var f := s.linhas[a.i].fase;
      ConsultarSoConsulta(s, if f.NoPedido? || f.Avulso? then f.t else 0);
      AvancoForaDoAr(s, a.i);
    }
  }

  /**
   * Off the air nothing more is asked for: after SairDoAr a goroutine makes at most
   * the one request it was already about to make, and one that starts later none.
   */
  lemma {:induction false} ForaDoArNadaMais(s: Estado, acoes: seq<Acao>, i: nat)
    requires Executa(CHAVES, Passo(s, SairDoAr), acoes)
    requires var t := Final(CHAVES, Passo(s, SairDoAr), acoes); i < |t.linhas| && t.linhas[i].insiste
    requires i < |s.linhas| ==> s.linhas[i].insiste
    ensures var m := Final(CHAVES, Passo(s, SairDoAr), acoes).linhas[i].momentos;
            |m| <= if i >= |s.linhas| then 0
                   else |s.linhas[i].momentos| + if s.linhas[i].fase.Pedindo? then 1 else 0
  {
    var n := if i >= |s.linhas| then 0
             else |s.linhas[i].momentos| + if s.linhas[i].fase.Pedindo? then 1 else 0;
    NoMaximoAteOFim(Passo(s, SairDoAr), acoes, i, n);
  }

  lemma {:induction false} NoMaximoAteOFim(s: Estado, acoes: seq<Acao>, i: nat, n: nat)
    requires NoMaximo(s, i, n) && (i >= |s.linhas| ==> n == 0) && Executa(CHAVES, s, acoes)
    ensures NoMaximo(Final(CHAVES, s, acoes), i, n)
    decreases |acoes|
  {
    hide NoMaximo, Passo, Pode;
    if acoes != [] {
      NoMaximoPasso(s, acoes[0], i, n);
      NoMaximoAteOFim(Passo(s, acoes[0]), acoes[1..], i, n);
    }
  }

  // -------------------------------------------------- every call is brought to the limiter

  /** The line read the clock and is about to take the track's lock. */
  function NoLimitador(l: Linha): nat { if l.fase.NoPedido? || l.fase.Avulso? then 1 else 0 }

  /** A call of pedirChave that finds a video track and its owner present. */
  function Chama(s: Estado, a: Acao): int {
    if s.publica && (a.PedirAvulso? || (a.Avancar? && a.i < |s.linhas| && s.linhas[a.i].fase.Pedindo?)) then 1 else 0
  }

  ghost function Levados(s: Estado): int { |s.consultas| + Soma(s.linhas, NoLimitador) }

  lemma ConsultarConta(s: Estado, t: int)
    ensures |Consultar(s, t).consultas| == |s.consultas| + 1 && Consultar(s, t).linhas == s.linhas
  {
  }

  lemma AvancoLeva(s: Estado, i: nat)
    requires Pode(s, Avancar(i))
    ensures var t := AplicarAvanco(s, i);
            && |t.linhas| == |s.linhas| && t.linhas == s.linhas[i := t.linhas[i]]
            && |t.consultas| == |s.consultas| + NoLimitador(s.linhas[i])
            && NoLimitador(t.linhas[i]) == Chama(s, Avancar(i))
  {
    hide Consultar;
    var f := s.linhas[i].fase;
    ConsultarConta(s, if f.NoPedido? || f.Avulso? then f.t else 0);
  }

  lemma LevadosPasso(s: Estado, a: Acao)
    requires Pode(s, a)
    ensures Levados(Passo(s, a)) == Levados(s) + Chama(s, a)
  {
    hide Soma, AplicarAvanco;
    var t := Passo(s, a);
    if a.Avancar? {
      AvancoLeva(s, a.i);
      SomaTroca(s.linhas, a.i, t.linhas[a.i], NoLimitador);
    } else if |t.linhas| > |s.linhas| {
      SomaMais(s.linhas, t.linhas[|s.linhas|], NoLimitador);
    }
  }

  /**
   * Conservation: over any run the requests brought to the limiter, and those about
   * to be, are as many as the calls that found a video track and its owner present.
   */
  lemma {:induction false} CadaChamadaConsulta(agora: int, acoes: seq<Acao>)
    requires Executa(CHAVES, Inicial(agora), acoes)
    ensures var s := Final(CHAVES, Inicial(agora), acoes);
            |s.consultas| + Soma(s.linhas, NoLimitador) == Quanto(CHAVES, Chama, Inicial(agora), acoes)
  {
    var sempre := (s: Estado) => true;
    hide Passo, Pode, Chama, Soma;
    forall s, a | sempre(s) && CHAVES.pode(s, a) ensures Levados(CHAVES.passo(s, a)) == Levados(s) + Chama(s, a) {
      LevadosPasso(s, a);
    }
    NadaNoComeco(agora);
    QuantoMuda(CHAVES, sempre, Levados, Chama, Inicial(agora), acoes);
  }

  lemma NadaNoComeco(agora: int)
    ensures |Inicial(agora).consultas| + Soma(Inicial(agora).linhas, NoLimitador) == 0
  {
  }

  // ------------------------------------------------------------------ progress

  /** How many steps of its own a goroutine still takes at most. */
  function Falta(f: Fase): int {
    match f
    case Dormindo(k, _) => 4 * (3 - k) + 1
    case Verificando(k) => 4 * (3 - k)
    case Pedindo(k) => 4 * (3 - k) - 1
    case NoPedido(k, _) => 4 * (3 - k) - 2
    case Avulso(_) => 1
    case Limpando => 1
    case Fim => 0
  }

  function FaltaDe(s: Estado, i: nat): int { if i < |s.linhas| then Falta(s.linhas[i].fase) else 13 }

  function Seu(i: nat): (Estado, Acao) -> int { (s: Estado, a: Acao) => if a == Avancar(i) then 1 else 0 }

  ghost predicate Coerentes(s: Estado) { forall i | 0 <= i < |s.linhas| :: LinhaCoerente(s.linhas[i], s.agora) }

  lemma FaltaAvanca(s: Estado, i: nat)
    requires Pode(s, Avancar(i)) && LinhaCoerente(s.linhas[i], s.agora)
    ensures |AplicarAvanco(s, i).linhas| == |s.linhas|
    ensures 0 <= Falta(AplicarAvanco(s, i).linhas[i].fase) < Falta(s.linhas[i].fase)
  {
    hide Consultar, Espacada;
    var f := s.linhas[i].fase;
    ConsultarSoConsulta(s, if f.NoPedido? || f.Avulso? then f.t else 0);
  }

  lemma FaltaPasso(s: Estado, a: Acao, i: nat)
    requires Coerentes(s) && Pode(s, a)
    ensures FaltaDe(Passo(s, a), i) <= FaltaDe(s, i) - Seu(i)(s, a) && 0 <= FaltaDe(Passo(s, a), i)
  {
    hide AplicarAvanco, LinhaCoerente, Falta;
    FaltaNatural(s, i);
    if a.Avancar? {
      FaltaAvanca(s, a.i);
      if i < |s.linhas| && i != a.i { OutrasLinhas(s, a.i, i); }
    } else {
      FaltaNova(s.agora);
    }
  }

  lemma FaltaNova(agora: int)
    ensures Falta(Dormindo(0, agora)) == 13 && Falta(Avulso(agora)) == 1
  {
  }

  lemma CoerentesPasso(s: Estado, a: Acao)
    requires Coerentes(s) && Pode(s, a)
    ensures Coerentes(Passo(s, a))
  {
    hide LinhaCoerente, Passo, Pode;
    forall i | 0 <= i < |Passo(s, a).linhas| ensures LinhaCoerente(Passo(s, a).linhas[i], Passo(s, a).agora) {
      InvLinha(s, a, i);
    }
  }

  /** No goroutine takes more than 13 steps, in any interleaving: each ends. */
  lemma {:induction false} TodasAcabam(s: Estado, acoes: seq<Acao>, i: nat)
    requires Coerentes(s) && Executa(CHAVES, s, acoes)
    ensures Quanto(CHAVES, Seu(i), s, acoes) <= FaltaDe(s, i)
    decreases |acoes|
  {
    hide Coerentes, Passo, Pode, FaltaDe, Seu;
    if acoes != [] {
      FaltaPasso(s, acoes[0], i);
      CoerentesPasso(s, acoes[0]);
      TodasAcabam(Passo(s, acoes[0]), acoes[1..], i);
    } else {
      FaltaNatural(s, i);
    }
  }

  lemma FaltaNatural(s: Estado, i: nat)
    requires Coerentes(s)
    ensures 0 <= FaltaDe(s, i)
  {
    if i < |s.linhas| { assert LinhaCoerente(s.linhas[i], s.agora); }
  }

  /** Whoever calls insistirNaChave, one repeating goroutine is then at work. */
  lemma {:induction false} InsistirRepete(agora: int, acoes: seq<Acao>)
    requires Executa(CHAVES, Inicial(agora), acoes)
    ensures Soma(Passo(Final(CHAVES, Inicial(agora), acoes), Insistir).linhas, Viva) == 1
  {
    InvSempre(agora, acoes);
    var s := Final(CHAVES, Inicial(agora), acoes);
    if !s.repetindoChave { SomaMais(s.linhas, Linha(true, Dormindo(0, s.agora), []), Viva); }
  }

  function Tempo(s: Estado, a: Acao): int { if a.Passar? then a.tempo else 0 }

  /**
   * What the environment did is what the state says, and it may act at any moment:
   * time passes, the track ends, its owner comes and goes, viewers ask.
   */
  lemma {:induction false} Ambiente(s: Estado, acoes: seq<Acao>)
    requires Executa(CHAVES, s, acoes)
    ensures var t := Final(CHAVES, s, acoes);
            && t.agora == s.agora + Quanto(CHAVES, Tempo, s, acoes)
            && (t.noAr <==> s.noAr && forall k | 0 <= k < |acoes| :: !acoes[k].SairDoAr?)
            && (acoes != [] && acoes[|acoes| - 1].Publicar? ==> t.publica == acoes[|acoes| - 1].sim)
            && (forall a: Acao | !a.Avancar? :: Pode(t, a))
    decreases |acoes|
  {
    assert forall a: Acao | !a.Avancar? :: Pode(Final(CHAVES, s, acoes), a);
    hide Passo, Pode;
    if acoes != [] {
      AmbienteUm(s, acoes[0]);
      Ambiente(Passo(s, acoes[0]), acoes[1..]);
    }
  }

  lemma AmbienteUm(s: Estado, a: Acao)
    requires Pode(s, a)
    ensures var t := Passo(s, a);
            && t.agora == s.agora + Tempo(s, a) && (t.noAr <==> s.noAr && !a.SairDoAr?)
            && (a.Publicar? ==> t.publica == a.sim)
  {
    if a.Avancar? {
      AvancoNoInstante(s, a.i);
      AvancoForaDoAr(s, a.i);
    }
  }

  ghost predicate Chega(s: Estado, acoes: seq<Acao>, t: Estado) {
    Executa(CHAVES, s, acoes) && Final(CHAVES, s, acoes) == t
  }

  /** The only goroutine has made these requests, all let through, and stands here. */
  function Sozinha(agora: int, fase: Fase, m: seq<int>): Estado {
    Estado(agora, true, true, !fase.Fim?, Ultimo(m), [Linha(true, fase, m)], m, m)
  }

  /** From sleep to the end of the k-th request. */
  lemma UmPedido(agora: int, k: nat, m: seq<int>)
    requires k < 3 && (m == [] || agora - m[|m| - 1] >= INTERVALO)
    ensures Chega(Sozinha(agora, Dormindo(k, agora), m), [Avancar(0), Avancar(0)], Sozinha(agora, Pedindo(k), m))
    ensures Chega(Sozinha(agora, Pedindo(k), m), [Avancar(0), Avancar(0)],
                  Sozinha(agora, Seguinte(k, agora), m + [agora]))
  {
  }

  lemma {:induction false} UmaVolta(agora: int, k: nat, m: seq<int>) returns (acoes: seq<Acao>)
    requires k < 3 && (m == [] || agora - m[|m| - 1] >= INTERVALO)
    ensures Chega(Sozinha(agora, Dormindo(k, agora), m), acoes, Sozinha(agora, Seguinte(k, agora), m + [agora]))
  {
    hide Passo, Pode, Sozinha;
    UmPedido(agora, k, m);
    var dois := [Avancar(0), Avancar(0)];
    ExecutaConcat(CHAVES, Sozinha(agora, Dormindo(k, agora), m), dois, dois);
    acoes := dois + dois;
  }

  lemma Acorda(agora: int, tempo: nat, k: nat, m: seq<int>)
    ensures Chega(Sozinha(agora, Dormindo(k, agora + tempo), m), [Passar(tempo)],
                  Sozinha(agora + tempo, Dormindo(k, agora + tempo), m))
  {
  }

  lemma Pontas(agora: int, m: seq<int>)
    ensures Chega(Inicial(agora), [Insistir], Sozinha(agora, Dormindo(0, agora), []))
    ensures Chega(Sozinha(agora, Limpando, m), [Avancar(0)], Sozinha(agora, Fim, m))
  {
  }

  /** And it does repeat: at once, half a second later and a second and a half after that, each request let through. */
  lemma {:induction false} TresAcontecem(agora: int) returns (acoes: seq<Acao>)
    ensures Executa(CHAVES, Inicial(agora), acoes)
    ensures var s := Final(CHAVES, Inicial(agora), acoes);
            s.linhas == [Linha(true, Fim, s.pedidos)]
            && s.pedidos == [agora, agora + 500_000_000, agora + 2_000_000_000]
  {
    var h, m := 500 * MILISSEGUNDO, 1500 * MILISSEGUNDO;
    var t1, t2 := agora + h, agora + h + m;
    var p1, p2, p3 := [] + [agora], [] + [agora] + [t1], [] + [agora] + [t1] + [t2];
    Pontas(agora, []);
    Pontas(t2, p3);
    var a := UmaVolta(agora, 0, []);
    Acorda(agora, h, 1, p1);
    var b := UmaVolta(t1, 1, p1);
    Acorda(t1, m, 2, p2);
    var c := UmaVolta(t2, 2, p2);
    assert Seguinte(0, agora) == Dormindo(1, t1) && Seguinte(1, t1) == Dormindo(2, t2) && Seguinte(2, t2) == Limpando;
    assert p3 == [agora, t1, t2];
    hide Executa, Final, Passo, Pode, Seguinte;
    var s0 := Inicial(agora);
    ExecutaConcat(CHAVES, s0, [Insistir], a);
    ExecutaConcat(CHAVES, s0, [Insistir] + a, [Passar(h)]);
    ExecutaConcat(CHAVES, s0, [Insistir] + a + [Passar(h)], b);
    ExecutaConcat(CHAVES, s0, [Insistir] + a + [Passar(h)] + b, [Passar(m)]);
    ExecutaConcat(CHAVES, s0, [Insistir] + a + [Passar(h)] + b + [Passar(m)], c);
    ExecutaConcat(CHAVES, s0, [Insistir] + a + [Passar(h)] + b + [Passar(m)] + c, [Avancar(0)]);
    acoes := [Insistir] + a + [Passar(h)] + b + [Passar(m)] + c + [Avancar(0)];
  }

  // ------------------------------------------------------------- the code itself

  /** The track's limiter, with the times it was asked about as history. */
  class Faixa {
    var ultimaChave: Option<int>
    ghost var consultas: seq<int>

    ghost predicate Valid()
      reads this
    {
      ultimaChave == Ultimo(Aceitos(consultas))
    }

    constructor ()
      ensures Valid() && consultas == []
    {
      ultimaChave, consultas := None, [];
    }

    /** True exactly for the requests that make up Aceitos. */
    method PermitirChave(agora: int) returns (sim: bool)
      requires Valid()
      modifies this
      ensures Valid() && consultas == old(consultas) + [agora]
      ensures Aceitos(consultas) == old(Aceitos(consultas)) + if sim then [agora] else []
      ensures sim <==> old(ultimaChave).None? || agora - old(ultimaChave).value >= 500_000_000
    {
      hide Aceitos;
      AceitosMais(consultas, agora);
      consultas := consultas + [agora];
      if ultimaChave.Some? && agora - ultimaChave.value < INTERVALO { return false; }
      ultimaChave := Some(agora);
      return true;
    }
  }
}
