/** JSON texts of objects whose keys and values are plain strings, and how they read. */
module JsonText {
  import opened Bytes
  import opened Json
  import opened JsonSplice

  /** A key and a string value whose bytes stand for themselves. */
  datatype Campo = Campo(chave: seq<byte>, valor: seq<byte>)

  predicate CampoSimples(c: Campo) { IdSimples(c.chave) && IdSimples(c.valor) }

  function Escrito(c: Campo): seq<byte> {
    [ASPAS] + c.chave + [ASPAS, DOIS_PONTOS, ASPAS] + c.valor + [ASPAS]
  }

  /** The members and the closing brace. */
  function Escritos(cs: seq<Campo>): seq<byte>
    requires cs != []
  {
    if |cs| == 1 then Escrito(cs[0]) + [FECHA_OBJETO] else Escrito(cs[0]) + [VIRGULA] + Escritos(cs[1..])
  }

  function Lidos(cs: seq<Campo>): seq<Membro> {
    if cs == [] then [] else [Membro(cs[0].chave, Texto(cs[0].valor))] + Lidos(cs[1..])
  }

  function ObjetoEscrito(cs: seq<Campo>): seq<byte>
    requires cs != []
  {
    [ABRE_OBJETO] + Escritos(cs)
  }

  lemma PartesDoCampo(t: seq<byte>, p: nat, c: Campo, resto: seq<byte>)
    requires p <= |t| && t[p..] == Escrito(c) + resto && CampoSimples(c)
    ensures var a := p + 1 + |c.chave|;
            var f := a + 3 + |c.valor|;
            && f < |t| && t[f + 1..] == resto
            && t[p] == ASPAS && t[a] == ASPAS && t[a + 1] == DOIS_PONTOS && t[a + 2] == ASPAS && t[f] == ASPAS
            && t[p + 1..a] == c.chave && t[a + 3..f] == c.valor
            && (forall k | p < k < a :: Simples(t[k])) && (forall k | a + 2 < k < f :: Simples(t[k]))
  {
    var u := Escrito(c) + resto;
    var a := p + 1 + |c.chave|;
    var f := a + 3 + |c.valor|;
    forall k | 0 <= k < |u| ensures t[p + k] == u[k] { assert t[p..][k] == u[k]; }
    assert t[f + 1..] == u[f + 1 - p..] == resto;
    assert t[p + 1..a] == c.chave;
    assert t[a + 3..f] == c.valor;
    forall k | p < k < a ensures Simples(t[k]) { assert t[p + (k - p)] == u[k - p] == c.chave[k - p - 1]; }
    forall k | a + 2 < k < f ensures Simples(t[k]) { assert t[p + (k - p)] == u[k - p] == c.valor[k - a - 3]; }
    assert t[a] == u[a - p] && t[a + 1] == u[a + 1 - p] && t[a + 2] == u[a + 2 - p] && t[f] == u[f - p];
  }

  /** One member reads back, up to the delimiter after it. */
  lemma {:induction false} LeOCampo(t: seq<byte>, p: nat, c: Campo, resto: seq<byte>)
    requires p <= |t| && t[p..] == Escrito(c) + resto && CampoSimples(c)
    requires resto != [] && !Branco(resto[0])
    ensures LerMembro(t, p) == Certo(Membro(c.chave, Texto(c.valor)), |t| - |resto|)
  {
    var a := p + 1 + |c.chave|;
    var f := a + 3 + |c.valor|;
    PartesDoCampo(t, p, c, resto);
    assert t[f + 1] == t[f + 1..][0];
    LeOTexto(t, p, a);
    LeOTexto(t, a + 2, f);
    LeOValorTexto(t, a + 2);
    hide LerTexto, LerValor;
    assert Pular(t, a + 1) == a + 1 && Pular(t, a + 2) == a + 2 && Pular(t, f + 1) == f + 1;
  }

  lemma {:induction false} EscritosComecam(cs: seq<Campo>)
    requires cs != []
    ensures Escritos(cs) != [] && Escritos(cs)[0] == ASPAS
  {
  }

  lemma OResto(t: seq<byte>, p: nat, c: Campo, resto: seq<byte>)
    requires p <= |t| && t[p..] == Escrito(c) + resto && resto != []
    ensures var q := |t| - |resto|;
            p <= q < |t| && t[q..] == resto && t[q] == resto[0]
  {
    hide Escrito;
    var q := |t| - |resto|;
    assert t[q..] == t[p..][q - p..] == resto;
    assert t[q] == t[q..][0];
  }

  lemma {:induction false} LeOUltimo(t: seq<byte>, p: nat, c: Campo)
    requires CampoSimples(c) && p <= |t| && t[p..] == Escrito(c) + [FECHA_OBJETO]
    ensures LerMembros(t, p) == Certo([Membro(c.chave, Texto(c.valor))], |t|)
  {
    hide LerMembro, Escrito, Pular, LerMembros;
    UmMembro(t, p);
    LeOCampo(t, p, c, [FECHA_OBJETO]);
    OResto(t, p, c, [FECHA_OBJETO]);
  }

  lemma {:induction false} LeMaisUm(t: seq<byte>, p: nat, c: Campo, ms: seq<Membro>, depois: seq<byte>)
    requires CampoSimples(c) && p <= |t| && t[p..] == Escrito(c) + ([VIRGULA] + depois)
    requires depois != [] && depois[0] == ASPAS && LerMembros(t, |t| - |depois|) == Certo(ms, |t|)
    ensures LerMembros(t, p) == Certo([Membro(c.chave, Texto(c.valor))] + ms, |t|)
  {
    hide LerMembro, Escrito, LerMembros;
    var resto := [VIRGULA] + depois;
    LeOCampo(t, p, c, resto);
    OResto(t, p, c, resto);
    var q := |t| - |resto|;
    assert t[q + 1] == t[q..][1] == ASPAS;
    MembroEResto(t, p, Membro(c.chave, Texto(c.valor)), q, ms);
  }

  /** Members written out read back, whatever stands before them. */
  lemma {:induction false} LeOsEscritos(t: seq<byte>, p: nat, cs: seq<Campo>)
    requires cs != [] && (forall i | 0 <= i < |cs| :: CampoSimples(cs[i]))
    requires p <= |t| && t[p..] == Escritos(cs)
    ensures LerMembros(t, p) == Certo(Lidos(cs), |t|)
    decreases |cs|
  {
    hide Escrito, LerMembros;
    assert CampoSimples(cs[0]);
    var m := Membro(cs[0].chave, Texto(cs[0].valor));
    if |cs| == 1 {
      LeOUltimo(t, p, cs[0]);
      assert cs[1..] == [] && [m] + [] == [m];
    } else {
      var depois := Escritos(cs[1..]);
      EscritosComecam(cs[1..]);
      assert Escrito(cs[0]) + [VIRGULA] + depois == Escrito(cs[0]) + ([VIRGULA] + depois);
      var q := |t| - |depois|;
      assert t[q..] == t[p..][q - p..] == depois;
      LeOsEscritos(t, q, cs[1..]);
      LeMaisUm(t, p, cs[0], Lidos(cs[1..]), depois);
    }
  }

  /** An object written out reads back, with any number of blanks before it. */
  lemma {:induction false} LeOEscrito(brancos: seq<byte>, cs: seq<Campo>)
    requires cs != [] && (forall i | 0 <= i < |cs| :: CampoSimples(cs[i]))
    requires forall i | 0 <= i < |brancos| :: Branco(brancos[i])
    ensures LerJson(brancos + ObjetoEscrito(cs)) == Some(Objeto(Lidos(cs)))
  {
    hide LerValor, LerMembros, Escritos;
    var t := brancos + ObjetoEscrito(cs);
    var n := |brancos|;
    assert t[n] == ABRE_OBJETO && t[n + 1..] == Escritos(cs);
    EscritosComecam(cs);
    assert t[n + 1] == t[n + 1..][0];
    PularTudo(t, 0, n);
    PularTudo(t, n + 1, n + 1);
    LeOsEscritos(t, n + 1, cs);
    UmObjeto(t, n);
    PularTudo(t, |t|, |t|);
  }
}
