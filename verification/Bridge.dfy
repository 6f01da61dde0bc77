/**
 * The bridge's accounting of open connections, by address and in all, under every
 * interleaving of its handlers. Each handler reserves once and, when it got its
 * place, gives it back once.
 */
module Bridge {
  import opened Runs
  import opened Sums

  type Ip = string

  datatype Contas = Contas(porIP: map<Ip, int>, total: int)

  datatype Limites = Limites(porIP: int, total: int)

  function De(c: Contas, ip: Ip): int { if ip in c.porIP then c.porIP[ip] else 0 }

  predicate Cabe(l: Limites, c: Contas, ip: Ip) { c.total < l.total && De(c, ip) < l.porIP }

  function Reservou(c: Contas, ip: Ip): Contas {
    Contas(c.porIP[ip := De(c, ip) + 1], c.total + 1)
  }

  function Devolveu(c: Contas, ip: Ip): Contas {
    var fica := De(c, ip) - 1;
    Contas(if fica <= 0 then c.porIP - {ip} else c.porIP[ip := fica], c.total - 1)
  }

  /** What the entries of the map add up to. */
  ghost function SomaValores(m: map<Ip, int>): int {
    if m == map[] then 0 else
    var k :| k in m;
    m[k] + SomaValores(m - {k})
  }

  lemma {:induction false} SomaSem(m: map<Ip, int>, k: Ip)
    requires k in m
    ensures SomaValores(m) == m[k] + SomaValores(m - {k})
    decreases |m|
  {
    var p :| p in m && SomaValores(m) == m[p] + SomaValores(m - {p});
    if p != k {
      SomaSem(m - {p}, k);
      SomaSem(m - {k}, p);
      assert m - {p} - {k} == m - {k} - {p};
    }
  }

  lemma SomaCom(m: map<Ip, int>, k: Ip, v: int)
    ensures SomaValores(m[k := v]) == v + SomaValores(m - {k})
    ensures SomaValores(m - {k}) == SomaValores(m) - if k in m then m[k] else 0
  {
    SomaSem(m[k := v], k);
    assert m[k := v] - {k} == m - {k};
    if k in m { SomaSem(m, k); } else { assert m - {k} == m; }
  }

  /** Giving back undoes reserving, entry and all. */
  lemma DevolverDesfaz(c: Contas, ip: Ip)
    requires forall k | k in c.porIP :: c.porIP[k] > 0
    ensures Devolveu(Reservou(c, ip), ip) == c
  {
    if ip in c.porIP {
      assert c.porIP[ip := De(c, ip) + 1][ip := De(c, ip)] == c.porIP;
    } else {
      assert c.porIP[ip := 1] - {ip} == c.porIP;
    }
  }

  // ---------------------------------------------------------------- the handlers

  datatype Handler = Pedindo(ip: Ip) | Segurando(ip: Ip) | Devolvido(ip: Ip) | Recusado(ip: Ip)

  datatype Estado = Estado(contas: Contas, handlers: seq<Handler>)

  const INICIAL: Estado := Estado(Contas(map[], 0), [])

  datatype Acao = Chegar(ip: Ip) | Reservar(i: nat) | Devolver(i: nat)

  predicate Pode(s: Estado, a: Acao) {
    match a
    case Chegar(_) => true
    case Reservar(i) => i < |s.handlers| && s.handlers[i].Pedindo?
    case Devolver(i) => i < |s.handlers| && s.handlers[i].Segurando?
  }

  function Passo(l: Limites, s: Estado, a: Acao): Estado {
    if !Pode(s, a) then s else
    match a
    case Chegar(ip) => s.(handlers := s.handlers + [Pedindo(ip)])
    case Reservar(i) =>
      var ip := s.handlers[i].ip;
      if Cabe(l, s.contas, ip)
      then Estado(Reservou(s.contas, ip), s.handlers[i := Segurando(ip)])
      else s.(handlers := s.handlers[i := Recusado(ip)])
    case Devolver(i) =>
      var ip := s.handlers[i].ip;
      Estado(Devolveu(s.contas, ip), s.handlers[i := Devolvido(ip)])
  }

  function PonteCom(l: Limites): Sistema<Estado, Acao> { Sistema(Pode, (s, a) => Passo(l, s, a)) }

  function Segura(h: Handler): nat { if h.Segurando? then 1 else 0 }

  function SeguraDe(ip: Ip): Handler -> nat { (h: Handler) => if h.Segurando? && h.ip == ip then 1 else 0 }

  /** The address has an entry exactly when some handler holds one of its places, and it counts them. */
  ghost predicate Conta(s: Estado, ip: Ip) {
    && De(s.contas, ip) == Soma(s.handlers, SeguraDe(ip))
    && (ip in s.contas.porIP ==> s.contas.porIP[ip] > 0)
  }

  ghost predicate Totais(s: Estado) {
    s.contas.total == Soma(s.handlers, Segura) && s.contas.total == SomaValores(s.contas.porIP)
  }

  predicate NoLimite(l: Limites, s: Estado, ip: Ip) {
    (s.contas.total > 0 ==> s.contas.total <= l.total) && (De(s.contas, ip) > 0 ==> De(s.contas, ip) <= l.porIP)
  }

  ghost predicate Inv(l: Limites, s: Estado) {
    Totais(s) && forall ip :: Conta(s, ip) && NoLimite(l, s, ip)
  }

  lemma InvTotais(l: Limites, s: Estado, a: Acao)
    requires Totais(s) && Pode(s, a)
    requires a.Devolver? ==> De(s.contas, s.handlers[a.i].ip) >= 1
    ensures Totais(Passo(l, s, a))
  {
    hide Soma, SomaValores;
    var t := Passo(l, s, a);
    if a.Chegar? {
      SomaMais(s.handlers, Pedindo(a.ip), Segura);
    } else {
      var ip := s.handlers[a.i].ip;
      SomaTroca(s.handlers, a.i, t.handlers[a.i], Segura);
      SomaCom(s.contas.porIP, ip, De(s.contas, ip) + 1);
      SomaCom(s.contas.porIP, ip, De(s.contas, ip) - 1);
    }
  }

  lemma InvConta(l: Limites, s: Estado, a: Acao, ip: Ip)
    requires Conta(s, ip) && NoLimite(l, s, ip) && Pode(s, a)
    ensures Conta(Passo(l, s, a), ip) && NoLimite(l, Passo(l, s, a), ip)
  {
    hide Soma;
    var t := Passo(l, s, a);
    if a.Chegar? {
      SomaMais(s.handlers, Pedindo(a.ip), SeguraDe(ip));
    } else {
      SomaTroca(s.handlers, a.i, t.handlers[a.i], SeguraDe(ip));
      SomaInclui(s.handlers, a.i, SeguraDe(ip));
    }
  }

  /** The address of a handler that holds a place has an entry. */
  lemma TemEntrada(s: Estado, i: nat)
    requires i < |s.handlers| && s.handlers[i].Segurando? && Conta(s, s.handlers[i].ip)
    ensures De(s.contas, s.handlers[i].ip) >= 1
  {
    SomaInclui(s.handlers, i, SeguraDe(s.handlers[i].ip));
  }

  lemma InvPasso(l: Limites, s: Estado, a: Acao)
    requires Inv(l, s) && Pode(s, a)
    ensures Inv(l, Passo(l, s, a))
  {
    hide Passo, Totais, Conta, NoLimite;
    if a.Devolver? { TemEntrada(s, a.i); }
    InvTotais(l, s, a);
    forall ip ensures Conta(Passo(l, s, a), ip) && NoLimite(l, Passo(l, s, a), ip) { InvConta(l, s, a, ip); }
  }

  /**
   * In every interleaving: `total` is the number of handlers holding a place and
   * the sum of the entries; an address has an entry exactly while it holds places,
   * and the entry counts them; neither limit is passed.
   */
  lemma {:induction false} ContasCertas(l: Limites, acoes: seq<Acao>, ip: Ip)
    requires Executa(PonteCom(l), INICIAL, acoes)
    ensures var s := Final(PonteCom(l), INICIAL, acoes);
            && s.contas.total == Soma(s.handlers, Segura) == SomaValores(s.contas.porIP)
            && De(s.contas, ip) == Soma(s.handlers, SeguraDe(ip))
            && (ip in s.contas.porIP <==> Soma(s.handlers, SeguraDe(ip)) > 0)
            && (s.contas.total > 0 ==> s.contas.total <= l.total)
            && (ip in s.contas.porIP ==> 0 < s.contas.porIP[ip] <= l.porIP)
  {
    var m := PonteCom(l);
    var inv := (s: Estado) => Inv(l, s);
    assert inv(INICIAL);
    hide Inv, Passo, Pode;
    forall s, a | inv(s) && m.pode(s, a) ensures inv(m.passo(s, a)) { InvPasso(l, s, a); }
    Sempre(m, inv, INICIAL, acoes);
    ContaDiz(l, Final(m, INICIAL, acoes), ip);
  }

  /**
   * A handler is turned away exactly when a limit is reached: in every interleaving it
   * gets its place if and only if fewer handlers than the limit hold one, in all and
   * from its address.
   */
  lemma {:induction false} EntraSeCabe(l: Limites, acoes: seq<Acao>, i: nat)
    requires Executa(PonteCom(l), INICIAL, acoes) && Pode(Final(PonteCom(l), INICIAL, acoes), Reservar(i))
    ensures var s := Final(PonteCom(l), INICIAL, acoes);
            var ip := s.handlers[i].ip;
            Passo(l, s, Reservar(i)).handlers ==
              s.handlers[i := if Soma(s.handlers, Segura) < l.total && Soma(s.handlers, SeguraDe(ip)) < l.porIP
                              then Segurando(ip) else Recusado(ip)]
  {
    ContasCertas(l, acoes, Final(PonteCom(l), INICIAL, acoes).handlers[i].ip);
  }

  function Chegou(s: Estado, a: Acao): int { if a.Chegar? then 1 else 0 }
  function Saiu(s: Estado, a: Acao): int { if a.Devolver? then 1 else 0 }
  function JaDevolveu(h: Handler): nat { if h.Devolvido? then 1 else 0 }

  /** Every connection that arrives has a handler, and each place is given back once by the handler that held it. */
  lemma {:induction false} CadaUmDevolve(l: Limites, acoes: seq<Acao>)
    requires Executa(PonteCom(l), INICIAL, acoes)
    ensures var s := Final(PonteCom(l), INICIAL, acoes);
            && |s.handlers| == Quanto(PonteCom(l), Chegou, INICIAL, acoes)
            && Soma(s.handlers, JaDevolveu) == Quanto(PonteCom(l), Saiu, INICIAL, acoes)
            && forall ip :: Pode(s, Chegar(ip))
  {
    var m := PonteCom(l);
    var sempre := (s: Estado) => true;
    var quantos := (s: Estado) => |s.handlers|;
    var devolvidos := (s: Estado) => Soma(s.handlers, JaDevolveu) as int;
    forall s, a | m.pode(s, a)
      ensures quantos(m.passo(s, a)) == quantos(s) + Chegou(s, a)
      ensures devolvidos(m.passo(s, a)) == devolvidos(s) + Saiu(s, a)
    {
      DevolvidosPasso(l, s, a);
    }
    QuantoMuda(m, sempre, quantos, Chegou, INICIAL, acoes);
    QuantoMuda(m, sempre, devolvidos, Saiu, INICIAL, acoes);
  }

  lemma DevolvidosPasso(l: Limites, s: Estado, a: Acao)
    requires Pode(s, a)
    ensures |Passo(l, s, a).handlers| == |s.handlers| + Chegou(s, a)
    ensures Soma(Passo(l, s, a).handlers, JaDevolveu) == Soma(s.handlers, JaDevolveu) + Saiu(s, a)
  {
    hide Soma;
    if a.Chegar? {
      SomaMais(s.handlers, Pedindo(a.ip), JaDevolveu);
    } else {
      SomaTroca(s.handlers, a.i, Passo(l, s, a).handlers[a.i], JaDevolveu);
    }
  }

  lemma ContaDiz(l: Limites, s: Estado, ip: Ip)
    requires Inv(l, s)
    ensures Totais(s) && Conta(s, ip) && NoLimite(l, s, ip)
  {
  }

  // ------------------------------------------------------------- the code itself

  class Ponte {
    var porIP: map<Ip, int>
    var total: int
    const limites: Limites

    ghost function Atual(): Contas
      reads this
    {
      Contas(porIP, total)
    }

    constructor (limites: Limites)
      ensures Atual() == INICIAL.contas && this.limites == limites
    {
      porIP, total, this.limites := map[], 0, limites;
    }

    method Reservar(ip: Ip) returns (ok: bool)
      modifies this
      ensures ok <==> old(total) < limites.total && (if ip in old(porIP) then old(porIP)[ip] else 0) < limites.porIP
      ensures Atual() == if ok then Reservou(old(Atual()), ip) else old(Atual())
    {
      var daqui := if ip in porIP then porIP[ip] else 0;
      if total >= limites.total || daqui >= limites.porIP { return false; }
      porIP := porIP[ip := daqui + 1];
      total := total + 1;
      return true;
    }

    method Devolver(ip: Ip)
      modifies this
      ensures Atual() == Devolveu(old(Atual()), ip)
    {
      var daqui := if ip in porIP then porIP[ip] else 0;
      porIP := porIP[ip := daqui - 1];
      if porIP[ip] <= 0 { porIP := porIP - {ip}; }
      total := total - 1;
      assert old(porIP)[ip := daqui - 1] - {ip} == old(porIP) - {ip};
    }

    /** How atender brackets the connection: alone, it leaves the accounts as they were. */
    method Atender(ip: Ip) returns (ok: bool)
      requires forall k | k in porIP :: porIP[k] > 0
      modifies this
      ensures Atual() == old(Atual())
      ensures ok <==> old(total) < limites.total && (if ip in old(porIP) then old(porIP)[ip] else 0) < limites.porIP
    {
      ok := Reservar(ip);
      if !ok { return; }
      DevolverDesfaz(old(Atual()), ip);
      Devolver(ip);
    }
  }
}
