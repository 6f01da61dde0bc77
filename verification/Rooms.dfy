/**
 * The rooms hub with one message or departure handled at a time and no outgoing
 * queue dropping: what each client can rebuild of its room from the messages it
 * is sent. `fila` holds each peer's outgoing messages since it connected. The
 * hub's own notices are kept as what they say; what it relays is kept as the text
 * delivered, which the client reads like any other.
 */
module Rooms {
  import opened Bytes
  import opened Runs
  import Json
  import JsonSplice
  import JsonText
  import Utf8

  type Sala = string
  type Id = string
  type Nome = string

  datatype Par = Par(id: Id, nome: Nome)

  datatype Mensagem =
    | Joined(peerId: Id, peers: seq<Par>, count: nat)
    | PeerJoined(peerId: Id, nome: Nome, count: nat)
    | PeerLeft(peerId: Id)
    | Repasse(texto: seq<byte>)
    | Pong

  /** What a client sends: what json.Unmarshal reads in it, and for a relay the text itself. */
  datatype Entrada = NaoJson | Ping | Join(roomId: string, name: string) | Recado(para: Id, bruto: seq<byte>)

  datatype Estado = Estado(
    limitePorSala: nat,
    comSfu: bool,
    salas: map<Sala, set<Id>>,
    sala: map<Id, Sala>,
    nome: map<Id, Nome>,
    fila: map<Id, seq<Mensagem>>,
    rejeitados: set<Id>)

  const SALA_PADRAO: Sala := "call1"
  const NOME_PADRAO: Nome := "Usuario"
  const TAMANHO_MAXIMO_NOME: nat := 40
  const ID_DO_SFU: Id := "sfu"

  predicate Espaco(c: char) { Utf8.Espaco(c as int) }

  /** strings.TrimSpace */
  function Aparar(s: string): string {
    if s == "" then ""
    else if Espaco(s[0]) then Aparar(s[1..])
    else if Espaco(s[|s| - 1]) then Aparar(s[..|s| - 1])
    else s
  }

  /** What is trimmed is white space, and what is left has none at its ends. */
  lemma {:induction false} ApararDiz(s: string) returns (i: nat, j: nat)
    ensures i <= j <= |s| && Aparar(s) == s[i..j]
    ensures forall k | 0 <= k < |s| && !(i <= k < j) :: Espaco(s[k])
    ensures i < j ==> !Espaco(s[i]) && !Espaco(s[j - 1])
    decreases |s|
  {
    if s == "" {
      i, j := 0, 0;
    } else if Espaco(s[0]) {
      i, j := ApararDiz(s[1..]);
      assert s[1..][i..j] == s[i + 1..j + 1];
      forall k | 0 <= k < |s| && !(i + 1 <= k < j + 1) ensures Espaco(s[k]) {
        if k > 0 { assert s[k] == s[1..][k - 1]; }
      }
      i, j := i + 1, j + 1;
    } else if Espaco(s[|s| - 1]) {
      var t := s[..|s| - 1];
      i, j := ApararDiz(t);
      forall k | 0 <= k < |s| && !(i <= k < j) ensures Espaco(s[k]) {
        if k < |s| - 1 { assert s[k] == t[k]; }
      }
    } else {
      i, j := 0, |s|;
    }
  }

  function SalaPedida(roomId: string): (sala: Sala)
    ensures sala != ""
  {
    var aparada := Aparar(roomId);
    if aparada == "" then SALA_PADRAO else aparada
  }

  /** The room asked for is the id without the white space around it, or the default when that leaves nothing. */
  lemma {:induction false} SalaPedidaDiz(roomId: string) returns (i: nat, j: nat)
    ensures i <= j <= |roomId| && forall k | 0 <= k < |roomId| && !(i <= k < j) :: Espaco(roomId[k])
    ensures i == j ==> SalaPedida(roomId) == "call1"
    ensures i < j ==> SalaPedida(roomId) == roomId[i..j] && !Espaco(roomId[i]) && !Espaco(roomId[j - 1])
  {
    i, j := ApararDiz(roomId);
  }

  /** The first 40 runes of the name, or the default for none. */
  function NomePedido(name: string): (nome: Nome)
    ensures nome != "" && |nome| <= 40
    ensures name == "" ==> nome == "Usuario"
    ensures name != "" ==> nome <= name && (|nome| == |name| || |nome| == 40)
  {
    if name == "" then NOME_PADRAO
    else if |name| > TAMANHO_MAXIMO_NOME then name[..TAMANHO_MAXIMO_NOME]
    else name
  }

  function Membros(h: Estado, sala: Sala): set<Id> { if sala in h.salas then h.salas[sala] else {} }
  function SalaDe(h: Estado, p: Id): Sala { if p in h.sala then h.sala[p] else "" }
  function NomeDe(h: Estado, p: Id): Nome { if p in h.nome then h.nome[p] else "" }

  /** One message enqueued for each of the given peers. */
  function EnviarA(fila: map<Id, seq<Mensagem>>, alvos: set<Id>, m: Mensagem): map<Id, seq<Mensagem>> {
    map q | q in fila :: if q in alvos then fila[q] + [m] else fila[q]
  }

  /** The effect of a departure: the room forgets the peer and the rest are told. */
  function Saiu(h: Estado, p: Id): Estado {
    var sala := SalaDe(h, p);
    var h1 := h.(sala := h.sala[p := ""]);
    if sala == "" || sala !in h.salas then h1 else
    var restantes := h.salas[sala] - {p};
    h1.(salas := if restantes == {} then h.salas - {sala} else h.salas[sala := restantes],
        fila := EnviarA(h.fila, restantes, PeerLeft(p)))
  }

  /** The effect of the rest of a join, with `lista` the order in which the room was listed. */
  function Entrou(h: Estado, p: Id, sala: Sala, nome: Nome, lista: seq<Par>): Estado {
    var membros := Membros(h, sala);
    var h1 := h.(nome := h.nome[p := nome]);
    if |membros| >= h.limitePorSala then h1.(sala := h.sala[p := ""], rejeitados := h.rejeitados + {p}) else
    var total := |membros + {p}|;
    h1.(sala := h.sala[p := sala],
        salas := h.salas[sala := membros + {p}],
        fila := EnviarA(EnviarA(h.fila, {p}, Joined(p, lista, total)), membros, PeerJoined(p, nome, total)))
  }

  /** `lista` names each member of the room once. */
  ghost predicate Lista(h: Estado, sala: Sala, lista: seq<Par>) {
    && (forall q :: q in Membros(h, sala) <==> exists i :: 0 <= i < |lista| && lista[i].id == q)
    && (forall i, j | 0 <= i < j < |lista| :: lista[i].id != lista[j].id)
    && (forall i | 0 <= i < |lista| :: lista[i].nome == NomeDe(h, lista[i].id))
  }

  // ------------------------------------------------------ what a client rebuilds

  /** The names by id that a list of peers gives. */
  function DaLista(lista: seq<Par>): map<Id, Nome> {
    if lista == [] then map[]
    else DaLista(lista[..|lista| - 1])[lista[|lista| - 1].id := lista[|lista| - 1].nome]
  }

  /**
   * How a client reads text: how it decodes keys and string values, and whether it
   * passes over texts that carry the member the server stamps.
   */
  datatype Leitor = Leitor(chave: seq<byte> -> string, texto: seq<byte> -> string, pulaCarimbadas: bool)

  /** What a text says to a client. */
  datatype Aviso = Chegaram(peers: seq<Par>) | Chegou(id: Id, nome: Nome) | Partiu(id: Id) | Outro

  ghost function CampoTexto(l: Leitor, ms: seq<Json.Membro>, nome: string): string {
    var v := JsonSplice.Ultimo(ms, l.chave, nome);
    if v.Some? && v.value.Texto? then l.texto(v.value.bruto) else ""
  }

  ghost function ParDe(l: Leitor, v: Json.Valor): Par {
    if v.Objeto? then Par(CampoTexto(l, v.membros, "peerId"), CampoTexto(l, v.membros, "name")) else Par("", "")
  }

  ghost function ParesDe(l: Leitor, v: Option<Json.Valor>): seq<Par> {
    if v.Some? && v.value.Lista?
    then seq(|v.value.itens|, i requires 0 <= i < |v.value.itens| => ParDe(l, v.value.itens[i])) else []
  }

  ghost predicate Carimbada(l: Leitor, ms: seq<Json.Membro>) {
    exists i :: 0 <= i < |ms| && l.chave(ms[i].chave) == l.chave(JsonSplice.DE)
  }

  ghost function Dito(l: Leitor, ms: seq<Json.Membro>): Aviso {
    var tipo := CampoTexto(l, ms, "type");
    if l.pulaCarimbadas && Carimbada(l, ms) then Outro
    else if tipo == "joined" then Chegaram(ParesDe(l, JsonSplice.Ultimo(ms, l.chave, "peers")))
    else if tipo == "peer-joined" then Chegou(CampoTexto(l, ms, "peerId"), CampoTexto(l, ms, "name"))
    else if tipo == "peer-left" then Partiu(CampoTexto(l, ms, "peerId"))
    else Outro
  }

  ghost function Lido(l: Leitor, texto: seq<byte>): Aviso {
    var v := Json.LerJson(texto);
    if v.Some? && v.value.Objeto? then Dito(l, v.value.membros) else Outro
  }

  /** What a message in a peer's queue says to its client; the hub's own notices carry no stamp. */
  ghost function Entendido(l: Leitor, m: Mensagem): Aviso {
    match m
    case Joined(_, peers, _) => Chegaram(peers)
    case PeerJoined(id, nome, _) => Chegou(id, nome)
    case PeerLeft(id) => Partiu(id)
    case Repasse(texto) => Lido(l, texto)
    case Pong => Outro
  }

  function Dobrar(v: map<Id, Nome>, a: Aviso): map<Id, Nome> {
    match a
    case Chegaram(peers) => DaLista(peers)
    case Chegou(id, nome) => v[id := nome]
    case Partiu(id) => v - {id}
    case Outro => v
  }

  /** The room a client shows after these messages: the others in it, by id. */
  ghost function Visao(l: Leitor, ms: seq<Mensagem>): map<Id, Nome> {
    if ms == [] then map[] else Dobrar(Visao(l, ms[..|ms| - 1]), Entendido(l, ms[|ms| - 1]))
  }

  /** The other members of the room, by id. */
  function Outros(h: Estado, sala: Sala, p: Id): map<Id, Nome> {
    map q | q in Membros(h, sala) && q != p :: NomeDe(h, q)
  }

  ghost predicate SalasBoas(h: Estado) {
    && h.limitePorSala >= 1
    && (forall sala | sala in h.salas :: h.salas[sala] != {} && |h.salas[sala]| <= h.limitePorSala)
  }

  /** The peer is in the room exactly when it says so. */
  predicate Posicao(h: Estado, p: Id, sala: Sala) {
    && (p in Membros(h, sala) <==> sala != "" && SalaDe(h, p) == sala)
    && (p in Membros(h, sala) ==> p in h.fila)
  }

  /** ... and then sees exactly the others there. */
  ghost predicate Ve(l: Leitor, h: Estado, p: Id, sala: Sala) {
    p in Membros(h, sala) && p in h.fila ==> Visao(l, h.fila[p]) == Outros(h, sala, p)
  }

  ghost predicate Posicoes(h: Estado) {
    SalasBoas(h) && forall p, sala :: Posicao(h, p, sala)
  }

  /** Every member of every room sees exactly the others there. */
  ghost predicate Exata(l: Leitor, h: Estado) { forall p, sala :: Ve(l, h, p, sala) }

  lemma {:induction false} VisaoMais(l: Leitor, ms: seq<Mensagem>, m: Mensagem)
    ensures Visao(l, ms + [m]) == Dobrar(Visao(l, ms), Entendido(l, m))
  {
    assert (ms + [m])[..|ms|] == ms;
  }

  lemma {:induction false} DaListaTem(lista: seq<Par>, q: Id)
    ensures q in DaLista(lista) <==> exists i :: 0 <= i < |lista| && lista[i].id == q
  {
    if lista != [] {
      var n := |lista| - 1;
      DaListaTem(lista[..n], q);
      if q in DaLista(lista) && q != lista[n].id {
        var i :| 0 <= i < |lista[..n]| && lista[..n][i].id == q;
        assert lista[i].id == q;
      }
      if i :| 0 <= i < |lista| && lista[i].id == q {
        if i < n { assert lista[..n][i].id == q; }
      }
    }
  }

  lemma {:induction false} DaListaVale(lista: seq<Par>, i: nat)
    requires forall i, j | 0 <= i < j < |lista| :: lista[i].id != lista[j].id
    requires i < |lista|
    ensures lista[i].id in DaLista(lista) && DaLista(lista)[lista[i].id] == lista[i].nome
  {
    var n := |lista| - 1;
    if i < n {
      DaListaVale(lista[..n], i);
      assert lista[..n][i] == lista[i];
    }
  }

  lemma {:induction false} ListaDaOsOutros(h: Estado, sala: Sala, lista: seq<Par>)
    requires Lista(h, sala, lista)
    ensures DaLista(lista) == map q | q in Membros(h, sala) :: NomeDe(h, q)
  {
    hide DaLista, Membros, NomeDe;
    var m := map q | q in Membros(h, sala) :: NomeDe(h, q);
    forall q ensures q in DaLista(lista) <==> q in m { DaListaTem(lista, q); }
    forall q | q in m ensures q in DaLista(lista) && DaLista(lista)[q] == m[q] {
      var i :| 0 <= i < |lista| && lista[i].id == q;
      DaListaVale(lista, i);
    }
  }

  lemma Restantes(m: set<Id>, p: Id)
    ensures |m - {p}| <= |m|
  {
    if p in m { assert |m - {p}| == |m| - 1; } else { assert m - {p} == m; }
  }

  lemma OutrosDependeDe(h: Estado, t: Estado, r: Sala, q: Id)
    requires Membros(h, r) == Membros(t, r)
    requires forall o | o in Membros(h, r) && o != q :: NomeDe(h, o) == NomeDe(t, o)
    ensures Outros(t, r, q) == Outros(h, r, q)
  {
  }

  lemma OutrosSem(h: Estado, t: Estado, r: Sala, q: Id, p: Id)
    requires Membros(t, r) == Membros(h, r) - {p} && t.nome == h.nome
    ensures Outros(t, r, q) == Outros(h, r, q) - {p}
  {
  }

  lemma OutrosCom(h: Estado, t: Estado, r: Sala, q: Id, p: Id, nome: Nome)
    requires q != p && Membros(t, r) == Membros(h, r) + {p} && p !in Membros(h, r) && t.nome == h.nome[p := nome]
    ensures Outros(t, r, q) == Outros(h, r, q)[p := nome]
  {
  }

  lemma TodosSaoOutros(h: Estado, t: Estado, r: Sala, p: Id, nome: Nome)
    requires Membros(t, r) == Membros(h, r) + {p} && p !in Membros(h, r) && t.nome == h.nome[p := nome]
    ensures Outros(t, r, p) == map o | o in Membros(h, r) :: NomeDe(h, o)
  {
  }

  /** The message a departure adds to one peer's queue, and the rooms after it. */
  lemma FilaDaSaida(h: Estado, p: Id, q: Id, r: Sala)
    ensures var sala := SalaDe(h, p);
            var t := Saiu(h, p);
            && Membros(t, r) == (if sala != "" && r == sala then Membros(h, r) - {p} else Membros(h, r))
            && SalaDe(t, q) == (if q == p then "" else SalaDe(h, q))
            && t.nome == h.nome
            && (q in h.fila ==>
                  q in t.fila && t.fila[q] ==
                    if sala != "" && q in Membros(h, sala) - {p} then h.fila[q] + [PeerLeft(p)] else h.fila[q])
  {
  }

  lemma SaidaSemSala(h: Estado, p: Id)
    requires SalaDe(h, p) == "" || SalaDe(h, p) !in h.salas
    ensures Saiu(h, p) == h.(sala := h.sala[p := ""])
  {
  }

  lemma SaidaDaSala(h: Estado, p: Id, sala: Sala, restantes: set<Id>)
    requires sala == SalaDe(h, p) && sala != "" && sala in h.salas && restantes == h.salas[sala] - {p}
    ensures Saiu(h, p) ==
              h.(sala := h.sala[p := ""],
                 salas := if restantes == {} then h.salas - {sala} else h.salas[sala := restantes],
                 fila := EnviarA(h.fila, restantes, PeerLeft(p)))
  {
  }

  lemma SaidaPosicao(h: Estado, p: Id, q: Id, r: Sala)
    requires Posicao(h, p, SalaDe(h, p)) && Posicao(h, q, SalaDe(h, p)) && Posicao(h, q, r)
    ensures Posicao(Saiu(h, p), q, r)
  {
    hide Saiu, Membros, SalaDe;
    FilaDaSaida(h, p, q, r);
  }

  lemma SaidaVe(l: Leitor, h: Estado, p: Id, q: Id, r: Sala)
    requires Posicao(h, p, SalaDe(h, p)) && Posicao(h, q, SalaDe(h, p)) && Posicao(h, q, r) && Ve(l, h, q, r)
    ensures Ve(l, Saiu(h, p), q, r)
  {
    hide Saiu, Outros, Visao, Membros, SalaDe, NomeDe, Lido;
    var sala := SalaDe(h, p);
    var t := Saiu(h, p);
    FilaDaSaida(h, p, q, r);
    if q in Membros(t, r) {
      if sala != "" && r == sala {
        VisaoMais(l, h.fila[q], PeerLeft(p));
        OutrosSem(h, t, r, q, p);
      } else {
        NomesIguais(h, t);
        OutrosDependeDe(h, t, r, q);
      }
    }
  }

  lemma NomesIguais(h: Estado, t: Estado)
    requires h.nome == t.nome
    ensures forall o :: NomeDe(h, o) == NomeDe(t, o)
  {
  }

  lemma SaidaPosicoes(h: Estado, p: Id)
    requires Posicoes(h)
    ensures Posicoes(Saiu(h, p)) && SalaDe(Saiu(h, p), p) == ""
    ensures Saiu(h, p).limitePorSala == h.limitePorSala && Saiu(h, p).fila.Keys == h.fila.Keys
  {
    var t := Saiu(h, p);
    Restantes(Membros(h, SalaDe(h, p)), p);
    var sala := SalaDe(h, p);
    forall q, r ensures Posicao(t, q, r) {
      assert Posicao(h, p, sala) && Posicao(h, q, sala) && Posicao(h, q, r);
      SaidaPosicao(h, p, q, r);
    }
  }

  /** A departure keeps every remaining member's view exact. */
  lemma SaidaExata(l: Leitor, h: Estado, p: Id)
    requires Posicoes(h) && Exata(l, h)
    ensures Exata(l, Saiu(h, p))
  {
    hide Saiu, Ve, SalasBoas;
    var sala := SalaDe(h, p);
    forall q, r ensures Ve(l, Saiu(h, p), q, r) {
      assert Posicao(h, p, sala) && Posicao(h, q, sala) && Posicao(h, q, r) && Ve(l, h, q, r);
      SaidaVe(l, h, p, q, r);
    }
  }

  lemma EnviarADiz(fila: map<Id, seq<Mensagem>>, alvos: set<Id>, m: Mensagem, q: Id)
    requires q in fila
    ensures q in EnviarA(fila, alvos, m)
    ensures EnviarA(fila, alvos, m)[q] == if q in alvos then fila[q] + [m] else fila[q]
  {
  }

  /** The rooms after a join. */
  lemma SalasDaEntrada(h: Estado, p: Id, sala: Sala, nome: Nome, lista: seq<Par>, q: Id, r: Sala)
    requires SalaDe(h, p) == ""
    ensures var t := Entrou(h, p, sala, nome, lista);
            var cheia := |Membros(h, sala)| >= h.limitePorSala;
            && Membros(t, r) == (if !cheia && r == sala then Membros(h, r) + {p} else Membros(h, r))
            && SalaDe(t, q) == (if q == p && !cheia then sala else SalaDe(h, q))
            && t.nome == h.nome[p := nome]
  {
    hide EnviarA, Entrou, NomeDe;
    if |Membros(h, sala)| >= h.limitePorSala {
      EntradaRecusada(h, p, sala, nome, lista);
    } else {
      EntradaAceita(h, p, sala, nome, lista, Membros(h, sala));
    }
  }

  /** The message a join adds to one peer's queue. */
  lemma FilaDaEntrada(h: Estado, p: Id, sala: Sala, nome: Nome, lista: seq<Par>, q: Id)
    requires p !in Membros(h, sala) && q in h.fila
    ensures var membros := Membros(h, sala);
            var t := Entrou(h, p, sala, nome, lista);
            var total := |membros + {p}|;
            && q in t.fila
            && t.fila[q] ==
                 if |membros| >= h.limitePorSala then h.fila[q]
                 else if q == p then h.fila[q] + [Joined(p, lista, total)]
                 else if q in membros then h.fila[q] + [PeerJoined(p, nome, total)]
                 else h.fila[q]
  {
    hide EnviarA, Membros;
    var membros := Membros(h, sala);
    var total := |membros + {p}|;
    EnviarADiz(h.fila, {p}, Joined(p, lista, total), q);
    EnviarADiz(EnviarA(h.fila, {p}, Joined(p, lista, total)), membros, PeerJoined(p, nome, total), q);
  }

  lemma ForaDaSala(h: Estado, p: Id, sala: Sala)
    requires Posicoes(h) && SalaDe(h, p) == ""
    ensures p !in Membros(h, sala)
  {
    assert Posicao(h, p, sala);
  }

  lemma NomeSoDele(h: Estado, t: Estado, p: Id, nome: Nome)
    requires t.nome == h.nome[p := nome]
    ensures forall o | o != p :: NomeDe(h, o) == NomeDe(t, o)
  {
  }

  lemma MesmosMembros(h: Estado, t: Estado, sala: Sala)
    requires h.salas == t.salas
    ensures Membros(h, sala) == Membros(t, sala)
  {
  }

  lemma EntradaRecusada(h: Estado, p: Id, sala: Sala, nome: Nome, lista: seq<Par>)
    requires |Membros(h, sala)| >= h.limitePorSala
    ensures Entrou(h, p, sala, nome, lista) ==
              h.(nome := h.nome[p := nome], sala := h.sala[p := ""], rejeitados := h.rejeitados + {p})
  {
  }

  lemma EntradaAceita(h: Estado, p: Id, sala: Sala, nome: Nome, lista: seq<Par>, membros: set<Id>)
    requires membros == Membros(h, sala) && |membros| < h.limitePorSala
    ensures var total := |membros + {p}|;
            Entrou(h, p, sala, nome, lista) ==
              h.(nome := h.nome[p := nome], sala := h.sala[p := sala], salas := h.salas[sala := membros + {p}],
                 fila := EnviarA(EnviarA(h.fila, {p}, Joined(p, lista, total)), membros, PeerJoined(p, nome, total)))
  {
  }

  lemma EntradaPosicao(h: Estado, p: Id, sala: Sala, nome: Nome, lista: seq<Par>, q: Id, r: Sala)
    requires SalaDe(h, p) == "" && p in h.fila && sala != "" && Posicao(h, p, sala) && Posicao(h, p, r)
    requires Posicao(h, q, r)
    ensures Posicao(Entrou(h, p, sala, nome, lista), q, r)
  {
    hide Entrou, Membros, SalaDe;
    SalasDaEntrada(h, p, sala, nome, lista, q, r);
    if q in h.fila { FilaDaEntrada(h, p, sala, nome, lista, q); }
  }

  lemma EntradaVe(l: Leitor, h: Estado, p: Id, sala: Sala, nome: Nome, lista: seq<Par>, q: Id, r: Sala)
    requires SalaDe(h, p) == "" && p in h.fila && sala != "" && Lista(h, sala, lista)
    requires Posicao(h, p, sala) && Posicao(h, p, r)
    requires Posicao(h, q, sala) && Posicao(h, q, r) && Ve(l, h, q, r)
    ensures Ve(l, Entrou(h, p, sala, nome, lista), q, r)
  {
    hide Entrou, Lista, Visao, DaLista, Outros, Membros, SalaDe, NomeDe, Lido;
    var t := Entrou(h, p, sala, nome, lista);
    var membros := Membros(h, sala);
    SalasDaEntrada(h, p, sala, nome, lista, q, r);
    if q in h.fila { FilaDaEntrada(h, p, sala, nome, lista, q); }
    if q in Membros(t, r) {
      if r != sala || |membros| >= h.limitePorSala {
        NomeSoDele(h, t, p, nome);
        OutrosDependeDe(h, t, r, q);
      } else if q == p {
        ListaDaOsOutros(h, sala, lista);
        VisaoMais(l, h.fila[p], Joined(p, lista, |membros + {p}|));
        TodosSaoOutros(h, t, r, p, nome);
      } else {
        VisaoMais(l, h.fila[q], PeerJoined(p, nome, |membros + {p}|));
        OutrosCom(h, t, r, q, p, nome);
      }
    }
  }

  lemma EntradaPosicoes(h: Estado, p: Id, sala: Sala, nome: Nome, lista: seq<Par>)
    requires Posicoes(h) && SalaDe(h, p) == "" && p in h.fila && sala != ""
    ensures Posicoes(Entrou(h, p, sala, nome, lista))
  {
    var t := Entrou(h, p, sala, nome, lista);
    forall q, r ensures Posicao(t, q, r) {
      assert Posicao(h, p, sala) && Posicao(h, p, r) && Posicao(h, q, r);
      EntradaPosicao(h, p, sala, nome, lista, q, r);
    }
    assert Posicao(h, p, sala);
    assert |Membros(h, sala) + {p}| == |Membros(h, sala)| + 1;
  }

  /** A join keeps every view exact, and the newcomer's starts exact. */
  lemma EntradaExata(l: Leitor, h: Estado, p: Id, sala: Sala, nome: Nome, lista: seq<Par>)
    requires Posicoes(h) && Exata(l, h) && SalaDe(h, p) == "" && p in h.fila && sala != "" && Lista(h, sala, lista)
    ensures Exata(l, Entrou(h, p, sala, nome, lista))
  {
    hide Entrou, Ve, SalasBoas, Lista;
    forall q, r ensures Ve(l, Entrou(h, p, sala, nome, lista), q, r) {
      assert Posicao(h, p, sala) && Posicao(h, p, r) && Posicao(h, q, sala) && Posicao(h, q, r) && Ve(l, h, q, r);
      EntradaVe(l, h, p, sala, nome, lista, q, r);
    }
  }

  /**
   * The count announced is the size of the room at that join: the newcomer and as
   * many peers as its list has.
   */
  lemma ContagemDaEntrada(h: Estado, p: Id, sala: Sala, nome: Nome, lista: seq<Par>)
    requires Posicoes(h) && SalaDe(h, p) == "" && p in h.fila && sala != "" && Lista(h, sala, lista)
    requires |Membros(h, sala)| < h.limitePorSala
    ensures var t := Entrou(h, p, sala, nome, lista);
            var total := |Membros(t, sala)|;
            && total == |lista| + 1
            && t.fila[p] == h.fila[p] + [Joined(p, lista, total)]
            && forall q | q in Membros(h, sala) :: q in h.fila && t.fila[q] == h.fila[q] + [PeerJoined(p, nome, total)]
  {
    assert Posicao(h, p, sala);
    TamanhoDaLista(lista, Membros(h, sala));
    forall q | q in Membros(h, sala) ensures q in h.fila { assert Posicao(h, q, sala); }
  }

  lemma {:induction false} TamanhoDaLista(lista: seq<Par>, m: set<Id>)
    requires forall q :: q in m <==> exists i :: 0 <= i < |lista| && lista[i].id == q
    requires forall i, j | 0 <= i < j < |lista| :: lista[i].id != lista[j].id
    ensures |lista| == |m|
  {
    if lista == [] {
      if q :| q in m { assert false; }
    } else {
      var n := |lista| - 1;
      var ultimo := lista[n].id;
      assert ultimo in m;
      forall q ensures q in m - {ultimo} <==> exists i :: 0 <= i < |lista[..n]| && lista[..n][i].id == q {
        if q in m - {ultimo} {
          var i :| 0 <= i < |lista| && lista[i].id == q;
          assert lista[..n][i].id == q;
        }
        if i :| 0 <= i < |lista[..n]| && lista[..n][i].id == q {
          assert lista[i].id == q;
        }
      }
      TamanhoDaLista(lista[..n], m - {ultimo});
      assert |m| == |m - {ultimo}| + 1;
    }
  }

  // ------------------------------------------------------------------- the run

  /** `lista` is the order in which a join listed the room. */
  datatype Acao =
    | Conectar(p: Id)
    | Tratar(p: Id, m: Entrada, lista: seq<Par>)
    | Desconectar(p: Id)

  predicate Conectado(h: Estado, p: Id) { p in h.fila && p !in h.rejeitados }

  ghost predicate EhObjeto(bruto: seq<byte>) {
    var v := Json.LerJson(bruto); v.Some? && v.value.Objeto?
  }

  ghost predicate Pode(h: Estado, a: Acao) {
    match a
    case Conectar(p) => p !in h.fila && SalaDe(h, p) == ""
    case Tratar(p, m, lista) =>
      && Conectado(h, p)
      && (m.Join? ==> Lista(Saiu(h, p), SalaPedida(m.roomId), lista))
      && (m.Recado? ==> EhObjeto(m.bruto))
    case Desconectar(p) => p in h.fila
  }

  /** The bytes of an id. Ids are UUIDs, so every character stands for itself in JSON text. */
  function EmBytes(id: Id): (b: seq<byte>)
    ensures JsonSplice.IdSimples(b)
  {
    seq(|id|, i requires 0 <= i < |id| =>
      if ' ' <= id[i] <= '~' && id[i] != '\"' && id[i] != '\\' then id[i] as int else 0x3F)
  }

  /** The relay reaches another member of the sender's room. */
  predicate Entrega(h: Estado, p: Id, para: Id) {
    var sala := SalaDe(h, p);
    sala != "" && para != "" && !(h.comSfu && para == ID_DO_SFU) && para in Membros(h, sala)
  }

  /** Delivery to one member of the sender's room, stamped with the sender. */
  function Repassado(h: Estado, p: Id, para: Id, bruto: seq<byte>): Estado {
    if Entrega(h, p, para)
    then h.(fila := EnviarA(h.fila, {para}, Repasse(JsonSplice.ComCampoFrom(bruto, EmBytes(p))))) else h
  }

  function Tratou(h: Estado, p: Id, m: Entrada, lista: seq<Par>): Estado {
    match m
    case NaoJson => h
    case Ping => h.(fila := EnviarA(h.fila, {p}, Pong))
    case Join(roomId, name) => Entrou(Saiu(h, p), p, SalaPedida(roomId), NomePedido(name), lista)
    case Recado(para, bruto) => Repassado(h, p, para, bruto)
  }

  function Conectou(h: Estado, p: Id): Estado {
    h.(fila := h.fila[p := []], sala := h.sala[p := ""], nome := h.nome[p := ""])
  }

  function Passo(h: Estado, a: Acao): Estado {
    match a
    case Conectar(p) => Conectou(h, p)
    case Tratar(p, m, lista) => Tratou(h, p, m, lista)
    case Desconectar(p) => Saiu(h, p)
  }

  function Inicial(limite: nat, comSfu: bool): Estado {
    Estado(limite, comSfu, map[], map[], map[], map[], {})
  }

  ghost const HUB: Sistema<Estado, Acao> := Sistema((h, a) => Pode(h, a), Passo)

  lemma AvulsaPosicoes(h: Estado, alvos: set<Id>, m: Mensagem)
    requires Posicoes(h)
    ensures Posicoes(h.(fila := EnviarA(h.fila, alvos, m)))
  {
    var t := h.(fila := EnviarA(h.fila, alvos, m));
    forall q, r ensures Posicao(t, q, r) { assert Posicao(h, q, r); }
  }

  lemma ConexaoPosicoes(h: Estado, p: Id)
    requires Posicoes(h) && p !in h.fila && SalaDe(h, p) == ""
    ensures Posicoes(Conectou(h, p))
  {
    forall q, r ensures Posicao(Conectou(h, p), q, r) { assert Posicao(h, q, r) && Posicao(h, p, r); }
  }

  lemma ConexaoExata(l: Leitor, h: Estado, p: Id)
    requires Posicoes(h) && Exata(l, h) && p !in h.fila && SalaDe(h, p) == ""
    ensures Exata(l, Conectou(h, p))
  {
    hide Visao, SalasBoas;
    var t := Conectou(h, p);
    forall q, r ensures Ve(l, t, q, r) {
      assert Posicao(h, q, r) && Posicao(h, p, r) && Ve(l, h, q, r);
      if q in Membros(t, r) { assert Outros(t, r, q) == Outros(h, r, q); }
    }
  }

  lemma PosicoesMantidas(h: Estado, a: Acao)
    requires Posicoes(h) && Pode(h, a)
    ensures Posicoes(Passo(h, a))
  {
    hide Posicoes, Saiu, Entrou, EnviarA, Lista, EhObjeto;
    match a
    case Conectar(p) => ConexaoPosicoes(h, p);
    case Desconectar(p) => SaidaPosicoes(h, p);
    case Tratar(p, m, lista) =>
      match m
      case NaoJson =>
      case Ping => AvulsaPosicoes(h, {p}, Pong);
      case Recado(para, bruto) => AvulsaPosicoes(h, {para}, Repasse(JsonSplice.ComCampoFrom(bruto, EmBytes(p))));
      case Join(roomId, name) =>
        SaidaPosicoes(h, p);
        EntradaPosicoes(Saiu(h, p), p, SalaPedida(roomId), NomePedido(name), lista);
  }

  // --------------------------------------------- what a relayed text does to a view

  /** Delivered, the text changes what the addressed client shows. */
  ghost predicate Muda(l: Leitor, h: Estado, p: Id, para: Id, bruto: seq<byte>) {
    Entrega(h, p, para) && para in h.fila &&
    var v := Visao(l, h.fila[para]);
    Dobrar(v, Lido(l, JsonSplice.ComCampoFrom(bruto, EmBytes(p)))) != v
  }

  /** The step relays such a text. */
  ghost predicate Desvia(l: Leitor, h: Estado, a: Acao) {
    a.Tratar? && a.m.Recado? && Muda(l, h, a.p, a.m.para, a.m.bruto)
  }

  lemma PongExato(l: Leitor, h: Estado, p: Id)
    requires Exata(l, h)
    ensures Exata(l, h.(fila := EnviarA(h.fila, {p}, Pong)))
  {
    hide Visao, Lido;
    var t := h.(fila := EnviarA(h.fila, {p}, Pong));
    forall q, r ensures Ve(l, t, q, r) {
      assert Ve(l, h, q, r);
      if q in Membros(t, r) && q in t.fila {
        VisaoMais(l, h.fila[q], Pong);
        assert Outros(t, r, q) == Outros(h, r, q);
      }
    }
  }

  lemma RepasseVe(l: Leitor, h: Estado, p: Id, para: Id, bruto: seq<byte>, q: Id, r: Sala)
    requires Ve(l, h, q, r) && q in Membros(h, r) && q in h.fila
    ensures Ve(l, Repassado(h, p, para, bruto), q, r) <==> !(q == para && Muda(l, h, p, para, bruto))
  {
    hide Visao, Lido, Dobrar, EmBytes;
    var t := Repassado(h, p, para, bruto);
    VisaoMais(l, h.fila[q], Repasse(JsonSplice.ComCampoFrom(bruto, EmBytes(p))));
    assert Outros(t, r, q) == Outros(h, r, q);
  }

  /** A relay keeps every view exact exactly unless it changes what the addressed client shows. */
  lemma RepasseExato(l: Leitor, h: Estado, p: Id, para: Id, bruto: seq<byte>)
    requires Posicoes(h) && Exata(l, h)
    ensures Exata(l, Repassado(h, p, para, bruto)) <==> !Muda(l, h, p, para, bruto)
  {
    hide Visao, Lido, Dobrar, EmBytes, Ve, EnviarA, Muda;
    var t := Repassado(h, p, para, bruto);
    if Muda(l, h, p, para, bruto) {
      var sala := SalaDe(h, p);
      MudaEntrega(l, h, p, para, bruto);
      assert Ve(l, h, para, sala);
      RepasseVe(l, h, p, para, bruto, para, sala);
    } else {
      forall q, r ensures Ve(l, t, q, r) {
        assert Ve(l, h, q, r) && Posicao(h, q, r);
        if q in Membros(h, r) { RepasseVe(l, h, p, para, bruto, q, r); } else { ForaVe(l, t, q, r); }
      }
    }
  }

  lemma MudaEntrega(l: Leitor, h: Estado, p: Id, para: Id, bruto: seq<byte>)
    requires Muda(l, h, p, para, bruto)
    ensures Entrega(h, p, para) && para in h.fila
  {
    hide Visao, Lido, Dobrar, EmBytes;
  }

  lemma ForaVe(l: Leitor, t: Estado, q: Id, r: Sala)
    requires q !in Membros(t, r)
    ensures Ve(l, t, q, r)
  {
  }

  /** A step keeps every view exact exactly unless it relays a text that changes one. */
  lemma PassoExato(l: Leitor, h: Estado, a: Acao)
    requires Posicoes(h) && Exata(l, h) && Pode(h, a)
    ensures Exata(l, Passo(h, a)) <==> !Desvia(l, h, a)
  {
    hide Posicoes, Exata, Saiu, Entrou, EnviarA, Lista, EhObjeto, Muda, Repassado;
    match a
    case Conectar(p) => ConexaoExata(l, h, p);
    case Desconectar(p) => SaidaExata(l, h, p);
    case Tratar(p, m, lista) =>
      match m
      case NaoJson =>
      case Ping => PongExato(l, h, p);
      case Recado(para, bruto) => RepasseExato(l, h, p, para, bruto);
      case Join(roomId, name) =>
        SaidaPosicoes(h, p);
        SaidaExata(l, h, p);
        EntradaExata(l, Saiu(h, p), p, SalaPedida(roomId), NomePedido(name), lista);
  }

  /**
   * View coherence, exactly: whatever messages are handled in whatever order and
   * however the clients read text, folding `joined`, `peer-joined` and `peer-left`
   * over what a member was sent gives at every moment exactly the ids and names of
   * the other members of its present room, if and only if no client is relayed a
   * text that it reads as one of the three and that changes what it shows.
   */
  lemma {:induction false} VisaoCertaSeESoSe(l: Leitor, limite: nat, comSfu: bool, acoes: seq<Acao>)
    requires limite >= 1 && Executa(HUB, Inicial(limite, comSfu), acoes)
    ensures AoLongo(HUB, (h: Estado) => Exata(l, h), Inicial(limite, comSfu), acoes)
            <==> NenhumPasso(HUB, (h: Estado, a: Acao) => Desvia(l, h, a), Inicial(limite, comSfu), acoes)
  {
    var h0 := Inicial(limite, comSfu);
    var exata := (h: Estado) => Exata(l, h);
    var desvia := (h: Estado, a: Acao) => Desvia(l, h, a);
    assert Posicoes(h0) && exata(h0);
    hide Posicoes, Exata, Desvia, Passo, Pode;
    forall h, a | Posicoes(h) && exata(h) && HUB.pode(h, a)
      ensures exata(HUB.passo(h, a)) <==> !desvia(h, a)
      ensures Posicoes(HUB.passo(h, a))
    {
      PassoExato(l, h, a);
      PosicoesMantidas(h, a);
    }
    AoLongoSeESoSe(HUB, Posicoes, exata, desvia, h0, acoes);
  }

  /** The stamp keeps a client that passes over stamped texts from reading a relayed one, when it is there. */
  lemma {:induction false} ComChaveNaoMuda(l: Leitor, h: Estado, p: Id, para: Id, bruto: seq<byte>)
    requires l.pulaCarimbadas && EhObjeto(bruto) && bruto != [] && bruto[0] == Json.ABRE_OBJETO
    ensures !Muda(l, h, p, para, bruto)
  {
    hide Visao, EmBytes, CampoTexto, ParesDe, JsonSplice.ComCampoFrom, Json.LerJson;
    var ms := Json.LerJson(bruto).value.membros;
    JsonSplice.CarimboPreserva(bruto, EmBytes(p), ms);
    var carimbo := Json.Membro(JsonSplice.DE, Json.Texto(EmBytes(p)));
    assert (ms + [carimbo])[|ms|] == carimbo;
    assert Carimbada(l, ms + [carimbo]);
  }

  /** The text relayed changes a view although it does not start with its brace. */
  ghost predicate DesviaSemChave(l: Leitor, h: Estado, a: Acao) {
    Pode(h, a) && Desvia(l, h, a) && (a.m.bruto == [] || a.m.bruto[0] != Json.ABRE_OBJETO)
  }

  /**
   * For clients that pass over stamped texts the guard is the first byte: views are
   * exact at every moment if and only if every relayed text that changes what a
   * client shows started with its brace.
   */
  lemma {:induction false} VisaoCertaPelaChave(l: Leitor, limite: nat, comSfu: bool, acoes: seq<Acao>)
    requires l.pulaCarimbadas && limite >= 1 && Executa(HUB, Inicial(limite, comSfu), acoes)
    ensures AoLongo(HUB, (h: Estado) => Exata(l, h), Inicial(limite, comSfu), acoes)
            <==> NenhumPasso(HUB, (h: Estado, a: Acao) => DesviaSemChave(l, h, a), Inicial(limite, comSfu), acoes)
  {
    VisaoCertaSeESoSe(l, limite, comSfu, acoes);
    MesmosDesvios(l, Inicial(limite, comSfu), acoes);
  }

  lemma {:induction false} MesmosDesvios(l: Leitor, h: Estado, acoes: seq<Acao>)
    requires l.pulaCarimbadas && Executa(HUB, h, acoes)
    ensures NenhumPasso(HUB, (h: Estado, a: Acao) => Desvia(l, h, a), h, acoes)
            <==> NenhumPasso(HUB, (h: Estado, a: Acao) => DesviaSemChave(l, h, a), h, acoes)
    decreases |acoes|
  {
    hide Passo, Muda, EhObjeto;
    if acoes != [] {
      MesmosDesvios(l, Passo(h, acoes[0]), acoes[1..]);
      var a := acoes[0];
      if a.Tratar? && a.m.Recado? && a.m.bruto != [] && a.m.bruto[0] == Json.ABRE_OBJETO {
        ComChaveNaoMuda(l, h, a.p, a.m.para, a.m.bruto);
      }
    }
  }

  /** So with every relayed text starting with its brace such clients always show their room as it is. */
  lemma {:induction false} VisaoSempreCerta(l: Leitor, limite: nat, comSfu: bool, acoes: seq<Acao>)
    requires l.pulaCarimbadas && limite >= 1 && Executa(HUB, Inicial(limite, comSfu), acoes)
    requires forall k | 0 <= k < |acoes| ::
               acoes[k].Tratar? && acoes[k].m.Recado? ==>
                 acoes[k].m.bruto != [] && acoes[k].m.bruto[0] == Json.ABRE_OBJETO
    ensures AoLongo(HUB, (h: Estado) => Exata(l, h), Inicial(limite, comSfu), acoes)
  {
    VisaoCertaPelaChave(l, limite, comSfu, acoes);
    NenhumSemChave(l, Inicial(limite, comSfu), acoes);
  }

  lemma {:induction false} NenhumSemChave(l: Leitor, h: Estado, acoes: seq<Acao>)
    requires forall k | 0 <= k < |acoes| ::
               acoes[k].Tratar? && acoes[k].m.Recado? ==>
                 acoes[k].m.bruto != [] && acoes[k].m.bruto[0] == Json.ABRE_OBJETO
    ensures NenhumPasso(HUB, (h: Estado, a: Acao) => DesviaSemChave(l, h, a), h, acoes)
    decreases |acoes|
  {
    hide Passo, Muda, Pode;
    if acoes != [] { NenhumSemChave(l, Passo(h, acoes[0]), acoes[1..]); }
  }

  lemma {:induction false} PosicoesSempre(limite: nat, comSfu: bool, acoes: seq<Acao>)
    requires limite >= 1 && Executa(HUB, Inicial(limite, comSfu), acoes)
    ensures Posicoes(Final(HUB, Inicial(limite, comSfu), acoes))
  {
    var h0 := Inicial(limite, comSfu);
    assert Posicoes(h0);
    hide Posicoes, Passo, Pode;
    forall h, a | Posicoes(h) && HUB.pode(h, a) ensures Posicoes(HUB.passo(h, a)) { PosicoesMantidas(h, a); }
    Sempre(HUB, Posicoes, h0, acoes);
  }

  /** Whoever is sent a relayed message is shown the sender, under its name, while its view is exact. */
  lemma {:induction false} RepasseDeConhecido(l: Leitor, h: Estado, p: Id, para: Id, bruto: seq<byte>)
    requires Posicoes(h) && Exata(l, h) && Entrega(h, p, para) && para != p
    ensures para in h.fila && p in Visao(l, h.fila[para]) && Visao(l, h.fila[para])[p] == NomeDe(h, p)
    ensures Repassado(h, p, para, bruto).fila ==
              h.fila[para := h.fila[para] + [Repasse(JsonSplice.ComCampoFrom(bruto, EmBytes(p)))]]
  {
    hide Visao, EmBytes;
    var sala := SalaDe(h, p);
    assert Posicao(h, p, sala) && Posicao(h, para, sala) && Ve(l, h, para, sala);
  }

  // ------------------------------------------------- what a message does to the queues

  /** A ping is answered: one Pong more in the sender's queue, and nothing else changes. */
  lemma PingRespondido(h: Estado, p: Id, lista: seq<Par>)
    requires p in h.fila
    ensures var t := Tratou(h, p, Ping, lista);
            && t.fila == h.fila[p := h.fila[p] + [Pong]]
            && t.salas == h.salas && t.sala == h.sala && t.nome == h.nome && t.rejeitados == h.rejeitados
            && t.limitePorSala == h.limitePorSala && t.comSfu == h.comSfu
  {
  }

  /** The relay has no addressee: the sender is in no room, or names nobody, or the SFU, or nobody of its room. */
  predicate SemDestino(h: Estado, p: Id, para: Id) {
    || SalaDe(h, p) == "" || para == "" || (h.comSfu && para == "sfu")
    || SalaDe(h, p) !in h.salas || para !in h.salas[SalaDe(h, p)]
  }

  /** What is not JSON, and a relay without an addressee, changes nothing; any other relay adds its text to one queue. */
  lemma RepasseOuNada(h: Estado, p: Id, m: Entrada, lista: seq<Par>)
    requires m.NaoJson? || m.Recado?
    ensures m.NaoJson? || SemDestino(h, p, m.para) ==> Tratou(h, p, m, lista) == h
    ensures m.Recado? && !SemDestino(h, p, m.para) && m.para in h.fila ==>
              Tratou(h, p, m, lista) ==
                h.(fila := h.fila[m.para := h.fila[m.para] + [Repasse(JsonSplice.ComCampoFrom(m.bruto, EmBytes(p)))]])
  {
    hide EmBytes;
  }

  function Pongs(ms: seq<Mensagem>): int { multiset(ms)[Pong] }

  function PongsDe(h: Estado, p: Id): int { if p in h.fila then Pongs(h.fila[p]) else 0 }

  /** A message from p that asks for one. */
  function PingDe(p: Id): (Estado, Acao) -> int {
    (h: Estado, a: Acao) => if a == Tratar(p, Ping, if a.Tratar? then a.lista else []) then 1 else 0
  }

  lemma PongsMais(ms: seq<Mensagem>, m: Mensagem)
    ensures Pongs(ms + [m]) == Pongs(ms) + if m == Pong then 1 else 0
  {
  }

  lemma PongsDaSaida(h: Estado, p: Id, q: Id)
    ensures PongsDe(Saiu(h, p), q) == PongsDe(h, q)
    ensures Saiu(h, p).fila.Keys == h.fila.Keys
  {
    hide Pongs, Membros;
    FilaDaSaida(h, p, q, "");
    if q in h.fila { PongsMais(h.fila[q], PeerLeft(p)); }
  }

  lemma PongsDaEntrada(h: Estado, p: Id, sala: Sala, nome: Nome, lista: seq<Par>, q: Id)
    requires p !in Membros(h, sala)
    ensures PongsDe(Entrou(h, p, sala, nome, lista), q) == PongsDe(h, q)
  {
    hide Pongs, Membros;
    var total := |Membros(h, sala) + {p}|;
    if q in h.fila {
      FilaDaEntrada(h, p, sala, nome, lista, q);
      PongsMais(h.fila[q], Joined(p, lista, total));
      PongsMais(h.fila[q], PeerJoined(p, nome, total));
    }
  }

  lemma PongsDoPasso(h: Estado, a: Acao, q: Id)
    requires Posicoes(h) && Pode(h, a)
    ensures PongsDe(Passo(h, a), q) == PongsDe(h, q) + PingDe(q)(h, a)
  {
    hide Saiu, Entrou, Pongs, Lista, EhObjeto, Posicoes, Membros, EmBytes, SalaDe, SalaPedida, NomePedido;
    match a
    case Conectar(p) => NenhumPong();
    case Desconectar(p) => PongsDaSaida(h, p, q);
    case Tratar(p, m, lista) =>
      match m
      case NaoJson =>
      case Ping => if q in h.fila { PongsMais(h.fila[q], Pong); }
      case Recado(para, bruto) =>
        if q in h.fila { PongsMais(h.fila[q], Repasse(JsonSplice.ComCampoFrom(bruto, EmBytes(p)))); }
      case Join(roomId, name) =>
        PongsDaSaida(h, p, q);
        SaidaPosicoes(h, p);
        ForaDaSala(Saiu(h, p), p, SalaPedida(roomId));
        PongsDaEntrada(Saiu(h, p), p, SalaPedida(roomId), NomePedido(name), lista, q);
  }

  lemma NenhumPong()
    ensures Pongs([]) == 0
  {
  }

  /** Each peer's queue has got exactly one pong for each of its pings, whatever else was handled. */
  lemma {:induction false} UmPongPorPing(limite: nat, comSfu: bool, acoes: seq<Acao>, q: Id)
    requires limite >= 1 && Executa(HUB, Inicial(limite, comSfu), acoes)
    ensures PongsDe(Final(HUB, Inicial(limite, comSfu), acoes), q) == Quanto(HUB, PingDe(q), Inicial(limite, comSfu), acoes)
  {
    var h0 := Inicial(limite, comSfu);
    var pongs := (h: Estado) => PongsDe(h, q);
    assert Posicoes(h0) && pongs(h0) == 0;
    hide Posicoes, Passo, Pode, PongsDe, PingDe;
    forall h, a | Posicoes(h) && HUB.pode(h, a)
      ensures Posicoes(HUB.passo(h, a)) && pongs(HUB.passo(h, a)) == pongs(h) + PingDe(q)(h, a)
    {
      PosicoesMantidas(h, a);
      PongsDoPasso(h, a, q);
    }
    QuantoMuda(HUB, Posicoes, pongs, PingDe(q), h0, acoes);
  }

  // ------------------------------------------------------- departures forged

  /** From any room with exact views, a text read as another member's departure takes it out of a view it is in. */
  lemma {:induction false} ForjaSaida(l: Leitor, h: Estado, sala: Sala, p: Id, q: Id, r: Id, bruto: seq<byte>)
    requires Posicoes(h) && Exata(l, h) && {p, q, r} <= Membros(h, sala) && p != q && q != r
    requires q != "" && !(h.comSfu && q == ID_DO_SFU)
    requires Lido(l, JsonSplice.ComCampoFrom(bruto, EmBytes(p))) == Partiu(r)
    ensures var t := Repassado(h, p, q, bruto);
            && r in Membros(t, sala) && q in Membros(t, sala) && q in t.fila && r !in Visao(l, t.fila[q])
    ensures Muda(l, h, p, q, bruto)
  {
    hide Visao, Lido, EmBytes;
    assert Posicao(h, p, sala) && Posicao(h, q, sala) && Ve(l, h, q, sala);
    VisaoMais(l, h.fila[q], Repasse(JsonSplice.ComCampoFrom(bruto, EmBytes(p))));
  }

  function DeBytes(b: seq<byte>): string { seq(|b|, i requires 0 <= i < |b| => b[i] as char) }

  /** A client that reads plain bytes as characters. */
  function Simples(pula: bool): Leitor { Leitor(DeBytes, DeBytes, pula) }

  function Campos(r: Id, q: Id): seq<JsonText.Campo> {
    [JsonText.Campo(Json.Ascii("type"), Json.Ascii("peer-left")),
     JsonText.Campo(Json.Ascii("peerId"), EmBytes(r)),
     JsonText.Campo(Json.Ascii("to"), EmBytes(q))]
  }

  /** {"type":"peer-left","peerId":"r","to":"q"}, after some blanks. */
  function Forjado(brancos: seq<byte>, r: Id, q: Id): seq<byte> {
    brancos + JsonText.ObjetoEscrito(Campos(r, q))
  }

  function Forjados(r: Id, q: Id): seq<Json.Membro> {
    [Json.Membro(Json.Ascii("type"), Json.Texto(Json.Ascii("peer-left"))),
     Json.Membro(Json.Ascii("peerId"), Json.Texto(EmBytes(r))),
     Json.Membro(Json.Ascii("to"), Json.Texto(EmBytes(q)))]
  }

  lemma {:induction false} LeOForjado(brancos: seq<byte>, r: Id, q: Id)
    requires forall i | 0 <= i < |brancos| :: Json.Branco(brancos[i])
    ensures Json.LerJson(Forjado(brancos, r, q)) == Some(Json.Objeto(Forjados(r, q)))
  {
    hide EmBytes, Json.LerJson, JsonText.Escritos;
    var cs := Campos(r, q);
    forall i | 0 <= i < |cs| ensures JsonText.CampoSimples(cs[i]) {}
    JsonText.LeOEscrito(brancos, cs);
    var ms := Forjados(r, q);
    assert JsonText.Lidos([cs[2]]) == [ms[2]] by { assert [cs[2]][1..] == []; }
    assert JsonText.Lidos([cs[1], cs[2]]) == [ms[1], ms[2]] by { assert [cs[1], cs[2]][1..] == [cs[2]]; }
    assert JsonText.Lidos(cs) == ms by { assert cs[1..] == [cs[1], cs[2]]; }
  }

  /** What the plain client reads in it, stamped or not. */
  lemma DitoForjado(l: Leitor, r: Id, q: Id, carimbo: seq<Json.Membro>)
    requires l.chave == DeBytes && l.texto == DeBytes && DeBytes(EmBytes(r)) == r
    requires |carimbo| <= 1 && (carimbo != [] ==> carimbo[0].chave == JsonSplice.DE)
    requires l.pulaCarimbadas ==> carimbo == []
    ensures Dito(l, Forjados(r, q) + carimbo) == Partiu(r)
  {
    hide EmBytes;
    var ms := Forjados(r, q);
    assert DeBytes(Json.Ascii("type")) == "type" && DeBytes(Json.Ascii("peerId")) == "peerId";
    assert DeBytes(Json.Ascii("peer-left")) == "peer-left";
    assert DeBytes(JsonSplice.DE)[0] == 'f';
    assert DeBytes(Json.Ascii("to"))[0] == 't' && |DeBytes(Json.Ascii("to"))| == 2;
    if carimbo != [] {
      assert (ms + carimbo)[..3] == ms;
    } else {
      assert ms + carimbo == ms;
    }
    assert ms[..2] == [ms[0], ms[1]] && ms[..2][..1] == [ms[0]];
    CamposDoForjado(l, r, q);
  }

  lemma CamposDoForjado(l: Leitor, r: Id, q: Id)
    requires l.chave == DeBytes && l.texto == DeBytes && DeBytes(EmBytes(r)) == r
    ensures CampoTexto(l, Forjados(r, q), "type") == "peer-left" && CampoTexto(l, Forjados(r, q), "peerId") == r
  {
    hide EmBytes;
    var ms := Forjados(r, q);
    assert DeBytes(Json.Ascii("type")) == "type" && DeBytes(Json.Ascii("peerId")) == "peerId";
    assert DeBytes(Json.Ascii("peer-left")) == "peer-left";
    assert |DeBytes(Json.Ascii("to"))| == 2;
    var m1, m2 := [ms[0]], [ms[0], ms[1]];
    assert ms[..2] == m2 && m2[..1] == m1;
    assert JsonSplice.Ultimo(m1, l.chave, "type") == Some(ms[0].valor);
    assert JsonSplice.Ultimo(m2, l.chave, "type") == Some(ms[0].valor);
    assert JsonSplice.Ultimo(ms, l.chave, "type") == Some(ms[0].valor);
    assert JsonSplice.Ultimo(m2, l.chave, "peerId") == Some(ms[1].valor);
    assert JsonSplice.Ultimo(ms, l.chave, "peerId") == Some(ms[1].valor);
  }

  lemma {:induction false} ListaDe(h: Estado, m: set<Id>) returns (lista: seq<Par>)
    ensures forall q :: q in m <==> exists i :: 0 <= i < |lista| && lista[i].id == q
    ensures forall i, j | 0 <= i < j < |lista| :: lista[i].id != lista[j].id
    ensures forall i | 0 <= i < |lista| :: lista[i].nome == NomeDe(h, lista[i].id)
    decreases |m|
  {
    hide NomeDe;
    if m == {} {
      lista := [];
    } else {
      var p :| p in m;
      var resto := ListaDe(h, m - {p});
      lista := resto + [Par(p, NomeDe(h, p))];
      forall q | q in m ensures exists i :: 0 <= i < |lista| && lista[i].id == q {
        if q == p { assert lista[|resto|].id == q; } else {
          assert q in m - {p};
          var i :| 0 <= i < |resto| && resto[i].id == q;
          assert lista[i].id == q;
        }
      }
      forall i | 0 <= i < |resto| ensures resto[i].id in m - {p} {}
    }
  }

  /** Peer p is connected and in no room. */
  predicate Fora(h: Estado, p: Id) { Conectado(h, p) && SalaDe(h, p) == "" }

  /** A peer in no room can join the default one while it has a place. */
  lemma {:induction false} JoinMais(h: Estado, p: Id) returns (a: Acao)
    requires Posicoes(h) && Fora(h, p) && |Membros(h, SALA_PADRAO)| < h.limitePorSala
    ensures a.Tratar? && a.m.Join? && Pode(h, a)
    ensures var t := Passo(h, a);
            && Membros(t, SALA_PADRAO) == Membros(h, SALA_PADRAO) + {p}
            && t.rejeitados == h.rejeitados && t.limitePorSala == h.limitePorSala && t.comSfu == h.comSfu
            && (forall q | q != p :: SalaDe(t, q) == SalaDe(h, q)) && SalaDe(t, p) == SALA_PADRAO
            && t.fila.Keys == h.fila.Keys
  {
    hide Posicoes, EnviarA, Lista, Saiu, Entrou, SalaPedida, NomePedido, NomeDe;
    var h1 := Saiu(h, p);
    SaidaSemSala(h, p);
    var lista := ListaDe(h1, Membros(h1, SALA_PADRAO));
    a := Tratar(p, Join("", ""), lista);
    SemSalaPedida();
    assert Lista(h1, SALA_PADRAO, lista) by { ListaVale(h1, SALA_PADRAO, lista); }
    EntradaAceita(h1, p, SALA_PADRAO, NomePedido(""), lista, Membros(h1, SALA_PADRAO));
    ChavesDaFila(h1.fila, {p}, Joined(p, lista, |Membros(h1, SALA_PADRAO) + {p}|));
    ChavesDaFila(EnviarA(h1.fila, {p}, Joined(p, lista, |Membros(h1, SALA_PADRAO) + {p}|)),
                 Membros(h1, SALA_PADRAO), PeerJoined(p, NomePedido(""), |Membros(h1, SALA_PADRAO) + {p}|));
  }

  lemma SemSalaPedida()
    ensures SalaPedida("") == SALA_PADRAO
  {
  }

  lemma ListaVale(h: Estado, sala: Sala, lista: seq<Par>)
    requires forall q :: q in Membros(h, sala) <==> exists i :: 0 <= i < |lista| && lista[i].id == q
    requires forall i, j | 0 <= i < j < |lista| :: lista[i].id != lista[j].id
    requires forall i | 0 <= i < |lista| :: lista[i].nome == NomeDe(h, lista[i].id)
    ensures Lista(h, sala, lista)
  {
  }

  lemma ChavesDaFila(fila: map<Id, seq<Mensagem>>, alvos: set<Id>, m: Mensagem)
    ensures EnviarA(fila, alvos, m).Keys == fila.Keys
  {
  }

  lemma {:induction false} MaisUmPasso(h0: Estado, acoes: seq<Acao>, a: Acao)
    requires Executa(HUB, h0, acoes) && Pode(Final(HUB, h0, acoes), a)
    ensures Executa(HUB, h0, acoes + [a])
    ensures Final(HUB, h0, acoes + [a]) == Passo(Final(HUB, h0, acoes), a)
  {
    hide Pode, Passo;
    ExecutaConcat(HUB, h0, acoes, [a]);
  }

  /** Three peers connect and join the default room; nobody relays anything. */
  lemma {:induction false} TresNaSala() returns (acoes: seq<Acao>)
    ensures Executa(HUB, Inicial(200, false), acoes)
    ensures forall k | 0 <= k < |acoes| :: !(acoes[k].Tratar? && acoes[k].m.Recado?)
    ensures var h := Final(HUB, Inicial(200, false), acoes);
            Membros(h, SALA_PADRAO) == {"A", "B", "C"} && Conectado(h, "A") && SalaDe(h, "A") == SALA_PADRAO && !h.comSfu
  {
    hide Executa, Final, Posicoes, Passo, Pode;
    var h0 := Inicial(200, false);
    var conexoes, h3 := TresConectados();
    PosicoesSempre(200, false, conexoes);
    var a := JoinMais(h3, "A");
    MaisUmPasso(h0, conexoes, a);
    PosicoesMantidas(h3, a);
    var h4 := Passo(h3, a);
    var b := JoinMais(h4, "B");
    MaisUmPasso(h0, conexoes + [a], b);
    PosicoesMantidas(h4, b);
    var h5 := Passo(h4, b);
    var c := JoinMais(h5, "C");
    MaisUmPasso(h0, conexoes + [a] + [b], c);
    acoes := conexoes + [a] + [b] + [c];
  }

  lemma {:induction false} TresConectados() returns (acoes: seq<Acao>, h: Estado)
    ensures Executa(HUB, Inicial(200, false), acoes) && h == Final(HUB, Inicial(200, false), acoes)
    ensures forall k | 0 <= k < |acoes| :: acoes[k].Conectar?
    ensures Fora(h, "A") && Fora(h, "B") && Fora(h, "C") && Membros(h, SALA_PADRAO) == {}
    ensures h.limitePorSala == 200 && !h.comSfu
  {
    hide Executa, Final;
    var h0 := Inicial(200, false);
    Parado(h0);
    MaisUmPasso(h0, [], Conectar("A"));
    MaisUmPasso(h0, [] + [Conectar("A")], Conectar("B"));
    MaisUmPasso(h0, [] + [Conectar("A")] + [Conectar("B")], Conectar("C"));
    acoes := [] + [Conectar("A")] + [Conectar("B")] + [Conectar("C")];
    h := Passo(Passo(Passo(h0, Conectar("A")), Conectar("B")), Conectar("C"));
  }

  lemma {:induction false} Parado(h: Estado)
    ensures Executa(HUB, h, []) && Final(HUB, h, []) == h
  {
  }

  /**
   * The failing runs: A sends C a peer-left for B. A client that folds by type loses
   * B, which is still in the room, even from a text that starts with its brace; one
   * that passes over stamped texts does when a blank comes first.
   */
  lemma {:induction false} SaidaForjada(pula: bool) returns (acoes: seq<Acao>)
    ensures Executa(HUB, Inicial(200, false), acoes)
    ensures var h := Final(HUB, Inicial(200, false), acoes);
            && {"B", "C"} <= Membros(h, SALA_PADRAO) && "C" in h.fila
            && "B" !in Visao(Simples(pula), h.fila["C"])
    ensures acoes != [] && acoes[|acoes| - 1].Tratar? && acoes[|acoes| - 1].m.Recado?
    ensures acoes[|acoes| - 1].m.bruto == Forjado(if pula then [0x20] else [], "B", "C")
  {
    hide Executa, Final, Posicoes, Exata, Visao, Forjado, EhObjeto, Passo, Pode, Lido;
    var l, h0 := Simples(pula), Inicial(200, false);
    var antes := TresNaSala();
    var h := Final(HUB, h0, antes);
    var bruto := Forjado(if pula then [0x20] else [], "B", "C");
    SemRecadoExata(l, antes);
    PosicoesSempre(200, false, antes);
    var a := Tratar("A", Recado("C", bruto), []);
    ForjadoPode(pula, h, a);
    LidoForjado(pula);
    ForjaSaida(l, h, SALA_PADRAO, "A", "C", "B", bruto);
    RecadoPassa(h, a);
    MaisUmPasso(h0, antes, a);
    acoes := antes + [a];
  }

  lemma {:induction false} RecadoPassa(h: Estado, a: Acao)
    requires a.Tratar? && a.m.Recado?
    ensures Passo(h, a) == Repassado(h, a.p, a.m.para, a.m.bruto)
  {
    hide Repassado;
  }

  lemma {:induction false} ForjadoPode(pula: bool, h: Estado, a: Acao)
    requires a == Tratar("A", Recado("C", Forjado(if pula then [0x20] else [], "B", "C")), []) && Conectado(h, "A")
    ensures Pode(h, a)
  {
    hide Forjado, Json.LerJson;
    LeOForjado(if pula then [0x20] else [], "B", "C");
  }

  lemma {:induction false} SemRecadoExata(l: Leitor, acoes: seq<Acao>)
    requires Executa(HUB, Inicial(200, false), acoes)
    requires forall k | 0 <= k < |acoes| :: !(acoes[k].Tratar? && acoes[k].m.Recado?)
    ensures Exata(l, Final(HUB, Inicial(200, false), acoes))
  {
    var exata := (h: Estado) => Exata(l, h);
    hide Exata;
    VisaoCertaSeESoSe(l, 200, false, acoes);
    SemRecadoNaoDesvia(l, Inicial(200, false), acoes);
    AoLongoEm(HUB, exata, Inicial(200, false), acoes, |acoes|);
    assert acoes[..|acoes|] == acoes;
  }

  lemma {:induction false} SemRecadoNaoDesvia(l: Leitor, h: Estado, acoes: seq<Acao>)
    requires forall k | 0 <= k < |acoes| :: !(acoes[k].Tratar? && acoes[k].m.Recado?)
    ensures NenhumPasso(HUB, (h: Estado, a: Acao) => Desvia(l, h, a), h, acoes)
    decreases |acoes|
  {
    hide Passo, Muda;
    if acoes != [] { SemRecadoNaoDesvia(l, Passo(h, acoes[0]), acoes[1..]); }
  }

  /** What A's text says to C: with its brace first it goes stamped, and with a blank first as it came. */
  lemma {:induction false} LidoForjado(pula: bool)
    ensures var bruto := Forjado(if pula then [0x20] else [], "B", "C");
            Lido(Simples(pula), JsonSplice.ComCampoFrom(bruto, EmBytes("A"))) == Partiu("B")
  {
    hide JsonSplice.ComCampoFrom, Json.LerJson, Dito, Forjado;
    var brancos := if pula then [0x20] else [];
    var bruto := Forjado(brancos, "B", "C");
    var ms := Forjados("B", "C");
    LeOForjado(brancos, "B", "C");
    ComecoDoForjado(brancos);
    assert DeBytes(EmBytes("B")) == "B";
    if pula {
      JsonSplice.CarimboSeESoSe(bruto, EmBytes("A"), ms);
      DitoForjado(Simples(pula), "B", "C", []);
      assert ms + [] == ms;
    } else {
      JsonSplice.CarimboPreserva(bruto, EmBytes("A"), ms);
      DitoForjado(Simples(pula), "B", "C", [Json.Membro(JsonSplice.DE, Json.Texto(EmBytes("A")))]);
    }
  }

  lemma ComecoDoForjado(brancos: seq<byte>)
    requires |brancos| <= 1
    ensures Forjado(brancos, "B", "C") != []
    ensures Forjado(brancos, "B", "C")[0] == if brancos == [] then Json.ABRE_OBJETO else brancos[0]
  {
  }

  // ------------------------------------------------------------- the code itself

  /** One connection's peer; `fila` is what was enqueued on its connection. */
  class Peer {
    const id: Id
    var nome: Nome
    var sala: Sala
    var fila: seq<Mensagem>
    var rejeitado: bool

    constructor (id: Id)
      ensures this.id == id && nome == "" && sala == "" && fila == [] && !rejeitado
    {
      this.id, nome, sala, fila, rejeitado := id, "", "", [], false;
    }

    method Enviar(m: Mensagem)
      modifies this`fila
      ensures fila == old(fila) + [m]
    {
      fila := fila + [m];
    }
  }

  function Ids(lista: seq<Peer>): set<Id> { set i | 0 <= i < |lista| :: lista[i].id }

  lemma NinguemNaLista()
    ensures Ids([]) == {}
  {
  }

  lemma NaoEstaAntes(lista: seq<Peer>, n: nat)
    requires n < |lista| && forall i, j | 0 <= i < j < |lista| :: lista[i].id != lista[j].id
    ensures lista[n].id !in Ids(lista[..n])
  {
  }

  lemma IdsMais(lista: seq<Peer>, p: Peer)
    ensures Ids(lista + [p]) == Ids(lista) + {p.id}
  {
    var mais := lista + [p];
    forall id | id in Ids(lista) + {p.id} ensures id in Ids(mais) {
      if id == p.id { assert mais[|lista|].id == id; } else {
        var i :| 0 <= i < |lista| && lista[i].id == id;
        assert mais[i].id == id;
      }
    }
  }

  lemma EnviarAMais(fila: map<Id, seq<Mensagem>>, alvos: set<Id>, p: Id, m: Mensagem)
    requires p !in alvos
    ensures EnviarA(EnviarA(fila, alvos, m), {p}, m) == EnviarA(fila, alvos + {p}, m)
  {
  }

  lemma EnviarANinguem(fila: map<Id, seq<Mensagem>>, m: Mensagem)
    ensures EnviarA(fila, {}, m) == fila
  {
  }

  // The peers' fields, by id.
  ghost function Locais(pares: map<Id, Peer>): map<Id, Sala>
    reads pares.Values`sala
  {
    map id | id in pares :: pares[id].sala
  }

  ghost function Nomes(pares: map<Id, Peer>): map<Id, Nome>
    reads pares.Values`nome
  {
    map id | id in pares :: pares[id].nome
  }

  ghost function Filas(pares: map<Id, Peer>): map<Id, seq<Mensagem>>
    reads pares.Values`fila
  {
    map id | id in pares :: pares[id].fila
  }

  ghost function Recusados(pares: map<Id, Peer>): set<Id>
    reads pares.Values`rejeitado
  {
    set id | id in pares && pares[id].rejeitado
  }

  lemma MaisUm(pares: map<Id, Peer>, p: Peer)
    requires p.id !in pares
    ensures Locais(pares[p.id := p]) == Locais(pares)[p.id := p.sala]
    ensures Nomes(pares[p.id := p]) == Nomes(pares)[p.id := p.nome]
    ensures Filas(pares[p.id := p]) == Filas(pares)[p.id := p.fila]
    ensures !p.rejeitado ==> Recusados(pares[p.id := p]) == Recusados(pares)
  {
  }

  /**
   * The hub and the peers it made, with a message or a departure handled at a
   * time. A room's map from id to peer is its key set, looked up in `pares`.
   */
  class Hub {
    var salas: map<Sala, set<Id>>
    const limitePorSala: nat
    const comSfu: bool
    var pares: map<Id, Peer>

    ghost predicate Tem(p: Peer)
      reads this`pares
    {
      p.id in pares && pares[p.id] == p
    }

    ghost predicate Ligado()
      reads this`pares, this`salas
    {
      && (forall id | id in pares :: pares[id].id == id)
      && (forall sala | sala in salas :: salas[sala] <= pares.Keys)
    }

    ghost function Atual(): Estado
      reads this, pares.Values
    {
      Estado(limitePorSala, comSfu, salas, Locais(pares), Nomes(pares), Filas(pares), Recusados(pares))
    }

    ghost predicate Valid()
      reads this, pares.Values
    {
      Ligado() && Posicoes(Atual())
    }

    constructor (limite: nat, comSfu: bool)
      requires limite >= 1
      ensures Valid() && Atual() == Inicial(limite, comSfu)
    {
      salas, limitePorSala, this.comSfu, pares := map[], limite, comSfu, map[];
    }

    lemma Desconhecido(id: Id)
      requires id !in pares
      ensures id !in Atual().fila && SalaDe(Atual(), id) == ""
    {
    }

    method NovoPeer(id: Id) returns (p: Peer)
      requires Valid() && id !in pares
      modifies this`pares
      ensures Valid() && fresh(p) && Tem(p) && p.id == id && pares == old(pares)[id := p]
      ensures Atual() == Passo(old(Atual()), Conectar(id))
      ensures p.sala == "" && p.nome == "" && p.fila == [] && !p.rejeitado
    {
      hide Posicoes, Locais, Nomes, Filas, Recusados;
      Desconhecido(id);
      ConexaoPosicoes(Atual(), id);
      p := new Peer(id);
      MaisUm(pares, p);
      pares := pares[id := p];
    }

    method DefinirSala(p: Peer, sala: Sala)
      requires Ligado() && Tem(p)
      modifies p`sala
      ensures p.sala == sala && Locais(pares) == old(Locais(pares))[p.id := sala]
    {
      p.sala := sala;
    }

    method DefinirNome(p: Peer, nome: Nome)
      requires Ligado() && Tem(p)
      modifies p`nome
      ensures p.nome == nome && Nomes(pares) == old(Nomes(pares))[p.id := nome]
    {
      p.nome := nome;
    }

    method Rejeitar(p: Peer)
      requires Ligado() && Tem(p)
      modifies p`rejeitado
      ensures Recusados(pares) == old(Recusados(pares)) + {p.id}
    {
      p.rejeitado := true;
    }

    method EnviarPara(p: Peer, m: Mensagem)
      requires Ligado() && Tem(p)
      modifies p`fila
      ensures Filas(pares) == EnviarA(old(Filas(pares)), {p.id}, m)
    {
      p.Enviar(m);
    }

    /** The peers of a room in some order. */
    method Listar(membros: set<Id>) returns (lista: seq<Peer>)
      requires Ligado() && membros <= pares.Keys
      ensures Ids(lista) == membros
      ensures forall i | 0 <= i < |lista| :: Tem(lista[i])
      ensures forall i, j | 0 <= i < j < |lista| :: lista[i].id != lista[j].id
    {
      lista := [];
      var faltam := membros;
      while faltam != {}
        invariant faltam <= membros && Ids(lista) == membros - faltam
        invariant forall i | 0 <= i < |lista| :: Tem(lista[i])
        invariant forall i, j | 0 <= i < j < |lista| :: lista[i].id != lista[j].id
      {
        var id :| id in faltam;
        IdsMais(lista, pares[id]);
        forall i | 0 <= i < |lista| ensures lista[i].id != id { assert lista[i].id in Ids(lista); }
        lista, faltam := lista + [pares[id]], faltam - {id};
      }
    }

    /** The list a newcomer is sent. */
    method Nomear(jaEstavam: seq<Peer>) returns (lista: seq<Par>)
      ensures |lista| == |jaEstavam|
      ensures forall i | 0 <= i < |lista| :: lista[i] == Par(jaEstavam[i].id, jaEstavam[i].nome)
    {
      lista := [];
      while |lista| < |jaEstavam|
        invariant |lista| <= |jaEstavam|
        invariant forall i | 0 <= i < |lista| :: lista[i] == Par(jaEstavam[i].id, jaEstavam[i].nome)
      {
        lista := lista + [Par(jaEstavam[|lista|].id, jaEstavam[|lista|].nome)];
      }
    }

    /** One message to each peer of a list. */
    method EnviarATodos(lista: seq<Peer>, m: Mensagem)
      requires Ligado()
      requires forall i | 0 <= i < |lista| :: Tem(lista[i])
      requires forall i, j | 0 <= i < j < |lista| :: lista[i].id != lista[j].id
      modifies (set i | 0 <= i < |lista| :: lista[i])`fila
      ensures Filas(pares) == EnviarA(old(Filas(pares)), Ids(lista), m)
    {
      hide Filas, EnviarA, Ids;
      var n := 0;
      EnviarANinguem(Filas(pares), m);
      NinguemNaLista();
      while n < |lista|
        invariant 0 <= n <= |lista|
        invariant Filas(pares) == EnviarA(old(Filas(pares)), Ids(lista[..n]), m)
      {
        IdsMais(lista[..n], lista[n]);
        NaoEstaAntes(lista, n);
        EnviarAMais(old(Filas(pares)), Ids(lista[..n]), lista[n].id, m);
        assert lista[..n + 1] == lista[..n] + [lista[n]];
        EnviarPara(lista[n], m);
        n := n + 1;
      }
      assert lista[..n] == lista;
    }

    lemma LocalDe(p: Peer)
      requires Ligado() && Tem(p)
      ensures SalaDe(Atual(), p.id) == p.sala
    {
    }

    lemma NaSala(sala: Sala)
      ensures Membros(Atual(), sala) == if sala in salas then salas[sala] else {}
    {
    }

    lemma NaFila(p: Peer)
      requires Tem(p)
      ensures p.id in Atual().fila
    {
    }

    /** Sair once p.sala is cleared: out of the room's map, and the rest told. */
    method Retirar(p: Peer, sala: Sala)
      requires Ligado() && Tem(p) && sala in salas
      modifies this`salas, pares.Values`fila
      ensures Ligado()
      ensures var h := old(Atual());
              var restantes := h.salas[sala] - {p.id};
              Atual() == h.(salas := if restantes == {} then h.salas - {sala} else h.salas[sala := restantes],
                            fila := EnviarA(h.fila, restantes, PeerLeft(p.id)))
    {
      hide EnviarA, Filas, Locais, Nomes, Recusados, Ids;
      var membros := salas[sala] - {p.id};
      salas := salas[sala := membros];
      var sobreviventes := Listar(membros);
      if membros == {} { salas := salas - {sala}; }
      assert salas == if membros == {} then old(salas) - {sala} else old(salas)[sala := membros];
      EnviarATodos(sobreviventes, PeerLeft(p.id));
    }

    method Sair(p: Peer)
      requires Valid() && Tem(p)
      modifies this`salas, pares.Values`sala, pares.Values`fila
      ensures Valid() && Atual() == Saiu(old(Atual()), p.id)
    {
      hide Posicoes, EnviarA, Filas, Locais, Nomes, Recusados, Saiu, SalaDe;
      ghost var h := Atual();
      SaidaPosicoes(h, p.id);
      var sala := p.sala;
      LocalDe(p);
      DefinirSala(p, "");
      if sala == "" || sala !in salas {
        SaidaSemSala(h, p.id);
      } else {
        SaidaDaSala(h, p.id, sala, salas[sala] - {p.id});
        Retirar(p, sala);
      }
    }

    /** The room as it was listed, with the names read then. */
    lemma ListaDaSala(h: Estado, sala: Sala, jaEstavam: seq<Peer>, lista: seq<Par>)
      requires Ligado() && Ids(jaEstavam) == Membros(h, sala) && |lista| == |jaEstavam|
      requires forall i | 0 <= i < |jaEstavam| :: Tem(jaEstavam[i])
      requires forall i, j | 0 <= i < j < |jaEstavam| :: jaEstavam[i].id != jaEstavam[j].id
      requires forall i | 0 <= i < |lista| :: lista[i] == Par(jaEstavam[i].id, jaEstavam[i].nome)
      requires forall q | q in Membros(h, sala) :: NomeDe(h, q) == NomeDe(Atual(), q)
      ensures Lista(h, sala, lista)
    {
      hide Membros, Ligado;
      forall q ensures q in Membros(h, sala) <==> exists i :: 0 <= i < |lista| && lista[i].id == q {
        if q in Ids(jaEstavam) {
          var i :| 0 <= i < |jaEstavam| && jaEstavam[i].id == q;
          assert lista[i].id == q;
        }
        if i :| 0 <= i < |lista| && lista[i].id == q { assert jaEstavam[i].id in Ids(jaEstavam); }
      }
      forall i | 0 <= i < |lista| ensures lista[i].nome == NomeDe(h, lista[i].id) {
        assert lista[i].id in Ids(jaEstavam);
      }
    }

    /** The newcomer enters the room's map, is sent `joined`, and the rest are told. */
    method Admitir(p: Peer, sala: Sala, nome: Nome, jaEstavam: seq<Peer>, lista: seq<Par>)
      requires Ligado() && Tem(p) && Ids(jaEstavam) == Membros(Atual(), sala)
      requires forall i | 0 <= i < |jaEstavam| :: Tem(jaEstavam[i])
      requires forall i, j | 0 <= i < j < |jaEstavam| :: jaEstavam[i].id != jaEstavam[j].id
      modifies this`salas, pares.Values`fila
      ensures Ligado()
      ensures var h := old(Atual());
              var membros := Membros(h, sala);
              var total := |membros + {p.id}|;
              Atual() == h.(salas := h.salas[sala := membros + {p.id}],
                            fila := EnviarA(EnviarA(h.fila, {p.id}, Joined(p.id, lista, total)),
                                            membros, PeerJoined(p.id, nome, total)))
    {
      hide EnviarA, Filas, Locais, Nomes, Recusados, Ids, Membros;
      NaSala(sala);
      var membros := (if sala in salas then salas[sala] else {}) + {p.id};
      salas := salas[sala := membros];
      var total := |membros|;
      EnviarPara(p, Joined(p.id, lista, total));
      EnviarATodos(jaEstavam, PeerJoined(p.id, nome, total));
    }

    /** The newcomer takes its place and lists who was there. */
    method Chegar(p: Peer, sala: Sala, nome: Nome) returns (jaEstavam: seq<Peer>, lista: seq<Par>)
      requires Valid() && Tem(p) && p.sala == ""
      modifies p`sala, p`nome
      ensures Atual() == old(Atual()).(sala := old(Atual()).sala[p.id := sala], nome := old(Atual()).nome[p.id := nome])
      ensures Ids(jaEstavam) == Membros(Atual(), sala) && Lista(old(Atual()), sala, lista)
      ensures forall i | 0 <= i < |jaEstavam| :: Tem(jaEstavam[i])
      ensures forall i, j | 0 <= i < j < |jaEstavam| :: jaEstavam[i].id != jaEstavam[j].id
    {
      hide Posicoes, Filas, Locais, Nomes, Recusados, SalaDe, Ids, Lista, NomeDe;
      ghost var h := Atual();
      LocalDe(p);
      ForaDaSala(h, p.id, sala);
      DefinirSala(p, sala);
      DefinirNome(p, nome);
      NomeSoDele(h, Atual(), p.id, nome);
      jaEstavam := Listar(if sala in salas then salas[sala] else {});
      lista := Nomear(jaEstavam);
      ListaDaSala(h, sala, jaEstavam, lista);
    }

    /** A full room: p.sala is cleared again and the connection rejected. */
    method Recusar(p: Peer)
      requires Ligado() && Tem(p)
      modifies p`sala, p`rejeitado
      ensures Atual() == old(Atual()).(sala := old(Atual()).sala[p.id := ""],
                                       rejeitados := old(Atual()).rejeitados + {p.id})
    {
      hide Filas, Locais, Nomes, Recusados;
      DefinirSala(p, "");
      Rejeitar(p);
    }

    static lemma Reescrita(m: map<Id, Sala>, p: Id, a: Sala, b: Sala)
      ensures m[p := a][p := b] == m[p := b]
    {
    }

    /** entrar after its Sair. `ordem` is the order in which the room was listed for the newcomer. */
    method Instalar(p: Peer, sala: Sala, nome: Nome) returns (ghost ordem: seq<Par>)
      requires Valid() && Tem(p) && p.sala == "" && sala != ""
      modifies this`salas, pares.Values
      ensures Lista(old(Atual()), sala, ordem)
      ensures Ligado() && Atual() == Entrou(old(Atual()), p.id, sala, nome, ordem)
    {
      hide Posicoes, EnviarA, Filas, Locais, Nomes, Recusados, Entrou, Ids, Lista, Membros;
      ghost var h := Atual();
      var jaEstavam, lista := Chegar(p, sala, nome);
      ordem := lista;
      NaSala(sala);
      MesmosMembros(h, Atual(), sala);
      var ocupados := if sala in salas then |salas[sala]| else 0;
      if ocupados >= limitePorSala {
        EntradaRecusada(h, p.id, sala, nome, lista);
        Recusar(p);
        Reescrita(h.sala, p.id, sala, "");
      } else {
        EntradaAceita(h, p.id, sala, nome, lista, Membros(h, sala));
        Admitir(p, sala, nome, jaEstavam, lista);
      }
    }

    method Entrar(p: Peer, roomId: string, name: string) returns (ghost lista: seq<Par>)
      requires Valid() && Tem(p)
      modifies this`salas, pares.Values
      ensures Lista(Saiu(old(Atual()), p.id), SalaPedida(roomId), lista)
      ensures Valid()
      ensures Atual() == Entrou(Saiu(old(Atual()), p.id), p.id, SalaPedida(roomId), NomePedido(name), lista)
    {
      hide Posicoes, SalaPedida, NomePedido, Saiu, Entrou, Lista, EnviarA, Filas, Locais, Nomes, Recusados, SalaDe;
      SaidaPosicoes(Atual(), p.id);
      Sair(p);
      LocalDe(p);
      ghost var h := Atual();
      assert p.id in h.fila by { NaFila(p); }
      lista := Instalar(p, SalaPedida(roomId), NomePedido(name));
      EntradaPosicoes(h, p.id, SalaPedida(roomId), NomePedido(name), lista);
    }

    method Tratar(p: Peer, m: Entrada) returns (ghost lista: seq<Par>)
      requires Valid() && Tem(p)
      modifies this`salas, pares.Values
      ensures m.Join? ==> Lista(Saiu(old(Atual()), p.id), SalaPedida(m.roomId), lista)
      ensures Valid() && Atual() == Tratou(old(Atual()), p.id, m, lista)
      ensures m.Ping? ==>
                Atual() == old(Atual()).(fila := old(Atual()).fila[p.id := old(Atual()).fila[p.id] + [Pong]])
      ensures m.NaoJson? || (m.Recado? && SemDestino(old(Atual()), p.id, m.para)) ==> Atual() == old(Atual())
    {
      hide Posicoes, SalaPedida, NomePedido, Saiu, Entrou, Lista, EnviarA, Filas, Locais, Nomes, Recusados, SalaDe;
      ghost var h := Atual();
      lista := [];
      match m
      case NaoJson =>
      case Ping =>
        AvulsaPosicoes(h, {p.id}, Pong);
        assert p.id in h.fila by { NaFila(p); }
        PingRespondido(h, p.id, lista);
        EnviarPara(p, Pong);
      case Join(roomId, name) =>
        lista := Entrar(p, roomId, name);
      case Recado(para, bruto) =>
        LocalDe(p);
        var sala := p.sala;
        if sala == "" || para == "" || (comSfu && para == ID_DO_SFU) || sala !in salas || para !in salas[sala] {
          return;
        }
        var texto := JsonSplice.ComCampoFrom(bruto, EmBytes(p.id));
        AvulsaPosicoes(h, {para}, Repasse(texto));
        EnviarPara(pares[para], Repasse(texto));
    }
  }
}
