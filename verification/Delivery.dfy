/**
 * The two ends together: what the outbound queue lets through, put on the wire by
 * the server's frame writer and read by the load client.
 */
module Delivery {
  import opened Bytes
  import opened Frames
  import opened Runs
  import C = LoadClient
  import Q = OutQueue

  function Saida(item: Q.Item): C.Saida { C.Saida(item.q.opcode, item.q.dados) }

  function Saidas(itens: seq<Q.Item>): (vs: seq<C.Saida>)
    ensures |vs| == |itens|
  {
    seq(|itens|, k requires 0 <= k < |itens| => Saida(itens[k]))
  }

  /** The text payloads among some frames before the first close. */
  function Textos(itens: seq<Q.Item>): seq<seq<byte>> { C.Textos(Saidas(itens)) }

  lemma {:induction false} TextosConcat(a: seq<C.Saida>, b: seq<C.Saida>)
    ensures C.Textos(a + b) == C.Textos(a) + if C.TemFechar(a) then [] else C.Textos(b)
  {
    if a == [] {
      assert a + b == b;
    } else {
      assert (a + b)[1..] == a[1..] + b;
      C.DesfechoDoResto(a);
      TextosConcat(a[1..], b);
    }
  }

  lemma TextosDoPrefixo(a: seq<Q.Item>, b: seq<Q.Item>)
    requires a <= b
    ensures Textos(a) <= Textos(b)
  {
    hide C.Textos;
    assert Saidas(b) == Saidas(a) + Saidas(b[|a|..]);
    TextosConcat(Saidas(a), Saidas(b[|a|..]));
  }

  /** Every call of enfileirar is for one of the server's own frames. */
  ghost predicate PedidosComuns(s: Q.Estado) {
    forall i | 0 <= i < |s.pedidos| :: C.SaidaComum(C.Saida(s.pedidos[i].opcode, s.pedidos[i].dados))
  }

  lemma EscritosComuns(s: Q.Estado)
    requires Q.ResultadosFieis(s) && s.escritos <= s.aceitos && PedidosComuns(s)
    ensures forall k | 0 <= k < |s.escritos| :: C.SaidaComum(Saidas(s.escritos)[k])
  {
    hide C.SaidaComum, Q.Chamadores;
    forall k | 0 <= k < |s.escritos| ensures C.SaidaComum(Saidas(s.escritos)[k]) {
      assert s.escritos[k] == s.aceitos[k];
      assert s.aceitos[k].q == s.pedidos[s.aceitos[k].chamada];
    }
  }

  /**
   * End to end, in every interleaving of the enqueuers, the writer and whoever
   * closes: the client reading the bytes written so far returns the texts of a
   * prefix of the accepted frames up to its first close, in the order of acceptance,
   * none altered, and then the close if there is one.
   */
  lemma {:induction false} ClienteVePrefixo(acoes: seq<Q.Acao>)
    requires Executa(Q.FILA, Q.INICIAL, acoes) && PedidosComuns(Final(Q.FILA, Q.INICIAL, acoes))
    ensures var s := Final(Q.FILA, Q.INICIAL, acoes);
            && (forall k | 0 <= k < |s.escritos| :: C.SaidaComum(Saidas(s.escritos)[k]))
            && C.ReceberAteFalhar(C.Escritos(Saidas(s.escritos))) == (Textos(s.escritos), C.Desfecho(Saidas(s.escritos)))
            && Textos(s.escritos) <= Textos(s.aceitos)
  {
    hide C.ReceberAteFalhar, C.Escritos, C.Textos, C.SaidaComum, C.Desfecho, PedidosComuns;
    Q.EntregaEmOrdem(acoes);
    var s := Final(Q.FILA, Q.INICIAL, acoes);
    EscritosComuns(s);
    C.ClienteLeOServidor(Saidas(s.escritos));
    TextosDoPrefixo(s.escritos, s.aceitos);
  }

  /** After the drain on close it is all of them, up to the first close. */
  lemma {:induction false} DrenagemEntregaTudo(acoes: seq<Q.Acao>)
    requires Executa(Q.FILA, Q.INICIAL, acoes) && PedidosComuns(Final(Q.FILA, Q.INICIAL, acoes))
    requires Q.Pode(Final(Q.FILA, Q.INICIAL, acoes), Q.FimDaDrenagem)
    ensures var s := Final(Q.FILA, Q.INICIAL, acoes);
            && (forall k | 0 <= k < |s.escritos| :: C.SaidaComum(Saidas(s.escritos)[k]))
            && C.ReceberAteFalhar(C.Escritos(Saidas(s.escritos))) == (Textos(s.aceitos), C.Desfecho(Saidas(s.aceitos)))
  {
    hide C.ReceberAteFalhar, C.Escritos, C.Textos, C.SaidaComum, C.Desfecho, PedidosComuns;
    ClienteVePrefixo(acoes);
    Q.DrenagemCompleta(acoes);
  }
}
