/**
 * The sender stamp: a text transformation that appends a "from" member to a
 * JSON object without parsing it. What a parser reads from the result is
 * compared with what it reads from the input.
 */
module JsonSplice {
  import opened Bytes
  import opened Json
  import Utf8

  /** bytes.TrimRight(s, " \t\r\n") */
  function AparadoADireita(s: seq<byte>): (r: seq<byte>)
    ensures |r| <= |s|
  {
    if s != [] && Branco(s[|s| - 1]) then AparadoADireita(s[..|s| - 1]) else s
  }

  /** Length of the Unicode space that starts s, in UTF-8; 0 when none does. */
  function EspacoInicial(s: seq<byte>): (n: nat)
    ensures n <= |s|
  {
    if s == [] then 0
    else if 0x09 <= s[0] <= 0x0D || s[0] == 0x20 then 1
    else if |s| >= 2 && s[0] == 0xC2 && (s[1] == 0x85 || s[1] == 0xA0) then 2
    else if |s| < 3 then 0
    else if s[0] == 0xE1 && s[1] == 0x9A && s[2] == 0x80 then 3
    else if s[0] == 0xE2 && s[1] == 0x80
            && (0x80 <= s[2] <= 0x8A || s[2] == 0xA8 || s[2] == 0xA9 || s[2] == 0xAF) then 3
    else if s[0] == 0xE2 && s[1] == 0x81 && s[2] == 0x9F then 3
    else if s[0] == 0xE3 && s[1] == 0x80 && s[2] == 0x80 then 3
    else 0
  }

  /** len(bytes.TrimSpace(s)) == 0 */
  predicate SoEspacos(s: seq<byte>) {
    s == [] || (EspacoInicial(s) > 0 && SoEspacos(s[EspacoInicial(s)..]))
  }

  /** It is there exactly when the first rune is white space, and as long as that rune. */
  lemma {:induction false} EspacoInicialDiz(n: nat, resto: seq<byte>)
    requires n < 0x11_0000
    ensures EspacoInicial(Utf8.Codificado(n) + resto) == if Utf8.Espaco(n) then |Utf8.Codificado(n)| else 0
  {
    var b := Utf8.Codificado(n);
    var s := b + resto;
    assert forall i | 0 <= i < |b| :: s[i] == b[i];
  }

  /** In UTF-8 text, trimming leaves nothing exactly when every rune is white space. */
  lemma {:induction false} SoEspacosDiz(ns: seq<nat>)
    requires Utf8.Runas(ns)
    ensures SoEspacos(Utf8.Codificados(ns)) <==> forall i | 0 <= i < |ns| :: Utf8.Espaco(ns[i])
  {
    hide EspacoInicial, Utf8.Codificado, Utf8.Espaco;
    if ns != [] {
      var b, resto := Utf8.Codificado(ns[0]), Utf8.Codificados(ns[1..]);
      EspacoInicialDiz(ns[0], resto);
      assert (b + resto)[|b|..] == resto;
      SoEspacosDiz(ns[1..]);
      assert forall i | 1 <= i < |ns| :: ns[i] == ns[1..][i - 1];
    }
  }

  /** from */
  const DE: seq<byte> := [0x66, 0x72, 0x6F, 0x6D]

  /** "from":" */
  const CAMPO: seq<byte> := [ASPAS] + DE + [ASPAS, DOIS_PONTOS, ASPAS]

  /** "} */
  const FECHO: seq<byte> := [ASPAS, FECHA_OBJETO]

  /** "from":"de"} */
  function Carimbo(de: seq<byte>): seq<byte> { CAMPO + de + FECHO }

  function ComCampoFrom(bruto: seq<byte>, de: seq<byte>): seq<byte> {
    var corpo := AparadoADireita(bruto);
    if |corpo| < 2 || corpo[0] != ABRE_OBJETO || corpo[|corpo| - 1] != FECHA_OBJETO then bruto else
    var sufixo := if SoEspacos(corpo[1..|corpo| - 1]) then Carimbo(de) else [VIRGULA] + Carimbo(de);
    corpo[..|corpo| - 1] + sufixo
  }

  /** Sender ids need no escaping: they are UUIDs, or "sfu". */
  predicate IdSimples(de: seq<byte>) {
    forall k | 0 <= k < |de| :: Simples(de[k])
  }

  // ------------------------------------------------------------ small readings

  lemma {:induction false} PularTudo(s: seq<byte>, i: nat, j: nat)
    requires i <= j <= |s|
    requires forall k | i <= k < j :: Branco(s[k])
    requires j < |s| ==> !Branco(s[j])
    ensures Pular(s, i) == j
    decreases j - i
  {
    if i < j { PularTudo(s, i + 1, j); }
  }

  lemma {:induction false} AparaSoOFim(s: seq<byte>, f: nat)
    requires 0 < f <= |s| && !Branco(s[f - 1])
    requires forall k | f <= k < |s| :: Branco(s[k])
    ensures AparadoADireita(s) == s[..f]
    decreases |s|
  {
    if f < |s| {
      AparaSoOFim(s[..|s| - 1], f);
      assert s[..|s| - 1][..f] == s[..f];
    } else {
      assert s[..f] == s;
    }
  }

  lemma {:induction false} BrancosSaoEspacos(s: seq<byte>)
    requires forall k | 0 <= k < |s| :: Branco(s[k])
    ensures SoEspacos(s)
  {
    if s != [] {
      assert Branco(s[0]);
      BrancosSaoEspacos(s[1..]);
    }
  }

  lemma {:induction false} AspasNaoSaoEspaco(s: seq<byte>, j: nat)
    requires j < |s| && s[j] == ASPAS
    requires forall k | 0 <= k < j :: Branco(s[k])
    ensures !SoEspacos(s)
    decreases j
  {
    if j > 0 {
      assert Branco(s[0]);
      AspasNaoSaoEspaco(s[1..], j - 1);
    }
  }

  lemma {:induction false} TextoSimples(t: seq<byte>, i: nat, f: nat)
    requires i <= f < |t| && t[f] == ASPAS
    requires forall k | i <= k < f :: Simples(t[k])
    ensures FimDoTexto(t, i) == Some(f)
    decreases f - i
  {
    if i < f { TextoSimples(t, i + 1, f); }
  }

  lemma PartesDoCarimbo(t: seq<byte>, p: nat, de: seq<byte>)
    requires IdSimples(de)
    requires p <= |t| && t[p..] == Carimbo(de)
    ensures var c := p + 8 + |de|;
            && |t| == c + 2
            && t[p] == ASPAS && t[p + 1..p + 5] == DE && t[p + 5] == ASPAS
            && t[p + 6] == DOIS_PONTOS && t[p + 7] == ASPAS
            && t[p + 8..c] == de && t[c] == ASPAS && t[c + 1] == FECHA_OBJETO
            && (forall k | p + 8 <= k < c :: Simples(t[k]))
  {
    var u := Carimbo(de);
    var c := p + 8 + |de|;
    forall k | 0 <= k < |u| ensures t[p + k] == u[k] { assert t[p..][k] == u[k]; }
    assert t[p + 1..p + 5] == DE;
    assert t[p + 8..c] == de;
    forall k | p + 8 <= k < c ensures Simples(t[k]) { assert t[p + (k - p)] == u[k - p] == de[k - p - 8]; }
    assert t[c] == u[c - p] && t[c + 1] == u[c + 1 - p];
  }

  lemma LeOTexto(t: seq<byte>, a: nat, f: nat)
    requires a < f < |t| && t[a] == ASPAS && t[f] == ASPAS
    requires forall k | a < k < f :: Simples(t[k])
    ensures LerTexto(t, a) == Certo(t[a + 1..f], f + 1)
  {
    TextoSimples(t, a + 1, f);
  }

  lemma {:induction false} LeOValorTexto(t: seq<byte>, a: nat)
    requires a < |t| && t[a] == ASPAS && LerTexto(t, a).Certo?
    ensures LerValor(t, a) == Certo(Texto(LerTexto(t, a).v), LerTexto(t, a).fim)
  {
    hide LerTexto, LerMembros, LerItens, Comeca, FimDoNumero, Pular;
  }

  /** The stamp at the end of a text reads as one member and the closing brace. */
  lemma {:induction false} LeOCarimbo(t: seq<byte>, p: nat, de: seq<byte>)
    requires IdSimples(de)
    requires p <= |t| && t[p..] == Carimbo(de)
    ensures LerMembros(t, p) == Certo([Membro(DE, Texto(de))], |t|)
  {
    var c := p + 8 + |de|;
    PartesDoCarimbo(t, p, de);
    forall k | p < k < p + 5 ensures Simples(t[k]) { assert t[k] == t[p + 1..p + 5][k - p - 1]; }
    LeOTexto(t, p, p + 5);
    LeOTexto(t, p + 7, c);
    LeOValorTexto(t, p + 7);
    hide LerTexto, LerValor;
    assert Pular(t, p + 6) == p + 6 && Pular(t, p + 7) == p + 7 && Pular(t, c + 1) == c + 1;
  }

  lemma Juntar(a: Membro, ms: seq<Membro>, b: Membro)
    ensures [a] + ms + [b] == [a] + (ms + [b])
  {
  }

  /** A member, a comma, and members. */
  lemma {:induction false} MembroEResto(t: seq<byte>, i: nat, m: Membro, n: nat, ms: seq<Membro>)
    requires n + 1 < |t| && LerMembro(t, i) == Certo(m, n) && t[n] == VIRGULA && !Branco(t[n + 1])
    requires LerMembros(t, n + 1) == Certo(ms, |t|)
    ensures LerMembros(t, i) == Certo([m] + ms, |t|)
  {
    hide LerMembro, LerMembros, Pular;
    UmMembro(t, i);
    PularTudo(t, n + 1, n + 1);
  }

  lemma {:induction false} UltimoMaisCarimbo(s: seq<byte>, t: seq<byte>, n: nat, i: nat, de: seq<byte>)
    requires Concordam(s, t, n) && IdSimples(de)
    requires var m := LerMembro(s, i); m.Certo? && m.fim == n && s[n] == FECHA_OBJETO
    requires t[n] == VIRGULA && t[n + 1..] == Carimbo(de)
    ensures LerMembros(t, i) == Certo([LerMembro(s, i).v] + [Membro(DE, Texto(de))], |t|)
  {
    hide LerMembro, Pular, LerMembros, Carimbo, IdSimples;
    MembroEstavel(s, t, n, i);
    CarimboComeca(de);
    assert t[n + 1] == t[n + 1..][0];
    LeOCarimbo(t, n + 1, de);
    MembroEResto(t, i, LerMembro(s, i).v, n, [Membro(DE, Texto(de))]);
  }

  /** Members that ended at the brace now go on to the stamp. */
  lemma {:induction false} MembrosMaisCarimbo(s: seq<byte>, t: seq<byte>, n: nat, i: nat, de: seq<byte>)
    requires Concordam(s, t, n) && IdSimples(de)
    requires LerMembros(s, i).Certo? && LerMembros(s, i).fim == n + 1
    requires t[n] == VIRGULA && t[n + 1..] == Carimbo(de)
    ensures LerMembros(t, i) == Certo(LerMembros(s, i).v + [Membro(DE, Texto(de))], |t|)
    decreases |s| - i
  {
    hide LerMembro, Pular, Delimitador, LerMembros, Carimbo, IdSimples;
    var m := LerMembro(s, i);
    UmMembro(s, i);
    assert s[n] == FECHA_OBJETO;
    var novo := Membro(DE, Texto(de));
    if s[m.fim] == FECHA_OBJETO {
      UltimoMaisCarimbo(s, t, n, i, de);
    } else {
      var k := Pular(s, m.fim + 1);
      FimDosMembros(s, n, k);
      MembroEstavel(s, t, n, i);
      UmMembro(t, i);
      PularEstavel(s, t, n, m.fim + 1);
      MembrosMaisCarimbo(s, t, n, k, de);
      Juntar(m.v, LerMembros(s, k).v, novo);
    }
  }

  /** The list of members one step at a time. */
  lemma UmMembro(s: seq<byte>, i: nat)
    ensures var m := LerMembro(s, i);
            LerMembros(s, i) ==
              if m.Invalido? || m.fim == |s| then Invalido
              else if s[m.fim] == FECHA_OBJETO then Certo([m.v], m.fim + 1)
              else if s[m.fim] != VIRGULA then Invalido
              else var r := LerMembros(s, Pular(s, m.fim + 1));
                   if r.Certo? then Certo([m.v] + r.v, r.fim) else Invalido
  {
    hide LerMembro, Pular;
  }

  lemma UmObjeto(s: seq<byte>, i: nat)
    requires i < |s| && s[i] == ABRE_OBJETO
    ensures var j := Pular(s, i + 1);
            LerValor(s, i) ==
              if j < |s| && s[j] == FECHA_OBJETO then Certo(Objeto([]), j + 1)
              else var r := LerMembros(s, j);
                   if r.Certo? then Certo(Objeto(r.v), r.fim) else Invalido
  {
    hide LerMembros, LerItens, LerTexto, Comeca, FimDoNumero, Pular;
  }

  lemma {:induction false} MembrosComecamComAspas(s: seq<byte>, i: nat)
    requires LerMembros(s, i).Certo?
    ensures i < |s| && s[i] == ASPAS
  {
    hide LerValor, Pular, FimDoTexto;
  }

  lemma {:induction false} FimDosMembros(s: seq<byte>, n: nat, i: nat)
    requires LerMembros(s, i).Certo? && LerMembros(s, i).fim == n + 1
    ensures i <= n
  {
  }

  // ------------------------------------------------------------- main results

  /** Where a top-level object starts, ends and has its first token. */
  lemma {:induction false} FormaDoObjeto(bruto: seq<byte>, ms: seq<Membro>)
    requires bruto != [] && bruto[0] == ABRE_OBJETO && LerJson(bruto) == Some(Objeto(ms))
    ensures var j := Pular(bruto, 1);
            && var corpo := AparadoADireita(bruto);
            && corpo != [] && corpo == bruto[..|corpo|] && bruto[|corpo| - 1] == FECHA_OBJETO
            && (ms == [] ==> j < |bruto| && |corpo| == j + 1)
            && (ms != [] ==>
                  && j < |bruto| && bruto[j] == ASPAS
                  && LerMembros(bruto, j).Certo? && LerMembros(bruto, j).v == ms
                  && |corpo| == LerMembros(bruto, j).fim)
  {
    hide LerValor, LerMembros, AparadoADireita, Delimitador;
    assert Pular(bruto, 0) == 0;
    UmObjeto(bruto, 0);
    hide Pular;
    var j := Pular(bruto, 1);
    var f := LerValor(bruto, 0).fim;
    assert Pular(bruto, f) == |bruto|;
    if LerMembros(bruto, j).Certo? { MembrosComecamComAspas(bruto, j); }
    assert bruto[f - 1] == FECHA_OBJETO;
    AparaSoOFim(bruto, f);
  }

  /**
   * The splice preserves meaning: from every text that reads as an object and
   * starts with its brace, whatever whitespace trails it, the result reads as the
   * same members in the same order followed by the sender.
   */
  lemma CarimboPreserva(bruto: seq<byte>, de: seq<byte>, ms: seq<Membro>)
    requires IdSimples(de)
    requires bruto != [] && bruto[0] == ABRE_OBJETO && LerJson(bruto) == Some(Objeto(ms))
    ensures LerJson(ComCampoFrom(bruto, de)) == Some(Objeto(ms + [Membro(DE, Texto(de))]))
  {
    hide LerValor, LerMembros, LerJson, Pular, SoEspacos, ComCampoFrom, Carimbo;
    var j := Pular(bruto, 1);
    FormaDoObjeto(bruto, ms);
    var n := |AparadoADireita(bruto)| - 1;
    if ms != [] { MembrosNaoVazios(bruto, j, n); }
    InteriorVazio(bruto, j, n, ms == []);
    FormaDaSaida(bruto, n, de);
    var t := ComCampoFrom(bruto, de);
    PularEstavel(bruto, t, n, 1);
    if ms == [] {
      LeOCarimbo(t, n, de);
      assert ms + [Membro(DE, Texto(de))] == [Membro(DE, Texto(de))];
    } else {
      MembrosMaisCarimbo(bruto, t, n, j, de);
      assert t[j] == bruto[j];
    }
    LeOTodo(t, j, ms + [Membro(DE, Texto(de))]);
  }

  /** The stamped text agrees with the original up to the closing brace. */
  lemma {:induction false} FormaDaSaida(bruto: seq<byte>, n: nat, de: seq<byte>)
    requires 1 <= n < |bruto| && AparadoADireita(bruto) == bruto[..n + 1]
    requires bruto[0] == ABRE_OBJETO && bruto[n] == FECHA_OBJETO
    ensures var t := ComCampoFrom(bruto, de);
            && Concordam(bruto, t, n)
            && t[0] == ABRE_OBJETO
            && (if SoEspacos(bruto[1..n]) then t[n] == ASPAS && t[n..] == Carimbo(de)
                else t[n] == VIRGULA && t[n + 1..] == Carimbo(de))
  {
    hide SoEspacos, AparadoADireita, Carimbo, ComCampoFrom;
    SaidaEmendada(bruto, n, de);
    var u := Carimbo(de);
    CarimboComeca(de);
    if SoEspacos(bruto[1..n]) {
      Emendado(bruto, n, u);
    } else {
      Emendado(bruto, n, [VIRGULA] + u);
      assert ([VIRGULA] + u)[1..] == u;
    }
  }

  lemma {:induction false} SaidaEmendada(bruto: seq<byte>, n: nat, de: seq<byte>)
    requires 1 <= n < |bruto| && AparadoADireita(bruto) == bruto[..n + 1]
    requires bruto[0] == ABRE_OBJETO && bruto[n] == FECHA_OBJETO
    ensures ComCampoFrom(bruto, de)
            == bruto[..n] + (if SoEspacos(bruto[1..n]) then Carimbo(de) else [VIRGULA] + Carimbo(de))
  {
    hide SoEspacos, AparadoADireita, Carimbo;
    var corpo := bruto[..n + 1];
    assert corpo[1..n] == bruto[1..n];
    assert corpo[..n] == bruto[..n];
  }

  lemma CarimboComeca(de: seq<byte>)
    ensures Carimbo(de) != [] && Carimbo(de)[0] == ASPAS
  {
  }

  lemma Emendado(s: seq<byte>, n: nat, u: seq<byte>)
    requires n < |s| && u != []
    ensures var t := s[..n] + u;
            && n < |t| && (forall k | 0 <= k < n :: s[k] == t[k])
            && t[n] == u[0] && t[n..] == u && t[n + 1..] == u[1..]
  {
  }

  /** The whitespace test between the braces tells the empty object from the others. */
  lemma {:induction false} InteriorVazio(bruto: seq<byte>, j: nat, n: nat, vazio: bool)
    requires 1 <= j <= n < |bruto| && j == Pular(bruto, 1)
    requires if vazio then j == n else j < n && bruto[j] == ASPAS
    ensures SoEspacos(bruto[1..n]) == vazio
  {
    var interior := bruto[1..n];
    forall k | 0 <= k < j - 1 ensures Branco(interior[k]) { assert interior[k] == bruto[1 + k]; }
    if vazio { BrancosSaoEspacos(interior); } else { AspasNaoSaoEspaco(interior, j - 1); }
  }

  lemma {:induction false} MembrosNaoVazios(s: seq<byte>, j: nat, n: nat)
    requires LerMembros(s, j).Certo? && LerMembros(s, j).fim == n + 1
    ensures j < n
  {
  }

  lemma {:induction false} LeOTodo(t: seq<byte>, j: nat, ms: seq<Membro>)
    requires t != [] && t[0] == ABRE_OBJETO && j == Pular(t, 1)
    requires j < |t| && t[j] != FECHA_OBJETO && LerMembros(t, j) == Certo(ms, |t|)
    ensures LerJson(t) == Some(Objeto(ms))
  {
    hide LerValor, LerMembros;
    UmObjeto(t, 0);
    assert Pular(t, 0) == 0;
    assert Pular(t, |t|) == |t|;
  }

  /**
   * Exactly when the stamp is there: among texts that read as objects, the result
   * has the members followed by the sender if and only if the text's first byte is
   * its brace; otherwise the text is passed on as it came.
   */
  lemma CarimboSeESoSe(bruto: seq<byte>, de: seq<byte>, ms: seq<Membro>)
    requires IdSimples(de) && LerJson(bruto) == Some(Objeto(ms))
    ensures bruto != []
    ensures LerJson(ComCampoFrom(bruto, de)) == Some(Objeto(ms + [Membro(DE, Texto(de))]))
            <==> bruto[0] == ABRE_OBJETO
    ensures bruto[0] != ABRE_OBJETO ==> ComCampoFrom(bruto, de) == bruto
  {
    if bruto[0] == ABRE_OBJETO {
      CarimboPreserva(bruto, de, ms);
    } else {
      AparadoComeca(bruto);
      assert |ms| != |ms + [Membro(DE, Texto(de))]|;
    }
  }

  /** One leading space is enough: the client's own "from" is the one that is read. */
  lemma SemCarimboComEspaco(de: seq<byte>)
    ensures var bruto := [0x20, ABRE_OBJETO] + Carimbo([0x78]);
            && ComCampoFrom(bruto, de) == bruto
            && LerJson(bruto) == Some(Objeto([Membro(DE, Texto([0x78]))]))
  {
    var bruto := [0x20, ABRE_OBJETO] + Carimbo([0x78]);
    AparadoComeca(bruto);
    assert bruto[2..] == Carimbo([0x78]);
    LeOCarimbo(bruto, 2, [0x78]);
    hide LerValor, LerMembros, Carimbo, AparadoADireita;
    CarimboComeca([0x78]);
    assert bruto[2] == bruto[2..][0];
    PularTudo(bruto, 0, 1);
    PularTudo(bruto, 2, 2);
    UmObjeto(bruto, 1);
    assert Pular(bruto, |bruto|) == |bruto|;
  }

  lemma {:induction false} AparadoComeca(s: seq<byte>)
    ensures AparadoADireita(s) != [] ==> s != [] && AparadoADireita(s)[0] == s[0]
  {
    if s != [] && Branco(s[|s| - 1]) {
      AparadoComeca(s[..|s| - 1]);
    }
  }

  /** The value a last-key-wins reader sees, for any decoding `sig` of key strings. */
  ghost function Ultimo<K(!new)>(ms: seq<Membro>, sig: seq<byte> -> K, k: K): Option<Valor> {
    if ms == [] then None
    else if sig(ms[|ms| - 1].chave) == k then Some(ms[|ms| - 1].valor)
    else Ultimo(ms[..|ms| - 1], sig, k)
  }

  /** Such a reader sees the server's sender, and every other key as the client wrote it. */
  lemma {:induction false} LeitorVeORemetente<K(!new)>(bruto: seq<byte>, de: seq<byte>, ms: seq<Membro>, sig: seq<byte> -> K, k: K)
    requires IdSimples(de)
    requires bruto != [] && bruto[0] == ABRE_OBJETO && LerJson(bruto) == Some(Objeto(ms))
    ensures var lido := LerJson(ComCampoFrom(bruto, de));
            && lido.Some? && lido.value.Objeto?
            && Ultimo(lido.value.membros, sig, k)
               == if k == sig(DE) then Some(Texto(de)) else Ultimo(ms, sig, k)
  {
    CarimboPreserva(bruto, de, ms);
    var todos := ms + [Membro(DE, Texto(de))];
    assert todos[..|todos| - 1] == ms;
  }
}
