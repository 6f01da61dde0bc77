/**
 * A byte-level reader of JSON texts (RFC 8259, sections 2 to 7), used only to
 * say what the splice in JsonSplice preserves. Strings and numbers keep their
 * bytes; how escapes are decoded is left to the consumer of the tree.
 */
module Json {
  import opened Bytes

  const ABRE_OBJETO: byte := 0x7B
  const FECHA_OBJETO: byte := 0x7D
  const ABRE_LISTA: byte := 0x5B
  const FECHA_LISTA: byte := 0x5D
  const ASPAS: byte := 0x22
  const BARRA: byte := 0x5C
  const VIRGULA: byte := 0x2C
  const DOIS_PONTOS: byte := 0x3A

  function Ascii(s: string): seq<byte>
    requires forall i | 0 <= i < |s| :: s[i] < 128 as char
  {
    seq(|s|, i requires 0 <= i < |s| => s[i] as int)
  }

  datatype Valor =
    | Nulo
    | Logico(v: bool)
    | Numero(bruto: seq<byte>)
    | Texto(bruto: seq<byte>)
    | Lista(itens: seq<Valor>)
    | Objeto(membros: seq<Membro>)

  datatype Membro = Membro(chave: seq<byte>, valor: Valor)

  /** A construct and the position just after it. */
  datatype Lido<+T> = Certo(v: T, fim: nat) | Invalido

  predicate Branco(b: byte) { b == 0x20 || b == 0x09 || b == 0x0A || b == 0x0D }
  predicate Digito(b: byte) { 0x30 <= b <= 0x39 }
  predicate Hexa(b: byte) { Digito(b) || 0x41 <= b <= 0x46 || 0x61 <= b <= 0x66 }

  /** One of " \ / b f n r t after a backslash. */
  predicate EscapeCurto(b: byte) {
    b == ASPAS || b == BARRA || b == 0x2F || b == 0x62 || b == 0x66 || b == 0x6E || b == 0x72 || b == 0x74
  }

  /** A string byte that stands for itself. */
  predicate Simples(b: byte) { b >= 0x20 && b != ASPAS && b != BARRA }

  function Pular(s: seq<byte>, i: nat): (j: nat)
    requires i <= |s|
    ensures i <= j <= |s|
    ensures j < |s| ==> !Branco(s[j])
    ensures forall k | i <= k < j :: Branco(s[k])
    decreases |s| - i
  {
    if i < |s| && Branco(s[i]) then Pular(s, i + 1) else i
  }

  function Digitos(s: seq<byte>, i: nat): (j: nat)
    requires i <= |s|
    ensures i <= j <= |s|
    decreases |s| - i
  {
    if i < |s| && Digito(s[i]) then Digitos(s, i + 1) else i
  }

  /** The position of the closing quote of a string whose contents start at i. */
  function FimDoTexto(s: seq<byte>, i: nat): (r: Option<nat>)
    requires i <= |s|
    ensures r.Some? ==> i <= r.value < |s|
    decreases |s| - i
  {
    if i == |s| then None
    else if s[i] == ASPAS then Some(i)
    else if Simples(s[i]) then FimDoTexto(s, i + 1)
    else if s[i] != BARRA || i + 1 == |s| then None
    else if EscapeCurto(s[i + 1]) then FimDoTexto(s, i + 2)
    else if s[i + 1] == 0x75 && i + 6 <= |s|
            && Hexa(s[i + 2]) && Hexa(s[i + 3]) && Hexa(s[i + 4]) && Hexa(s[i + 5])
    then FimDoTexto(s, i + 6)
    else None
  }

  /** The contents of the string whose opening quote is at i. */
  function LerTexto(s: seq<byte>, i: nat): (r: Lido<seq<byte>>)
    ensures r.Certo? ==> i < r.fim <= |s|
  {
    if i >= |s| || s[i] != ASPAS then Invalido else
    var f := FimDoTexto(s, i + 1);
    if f.None? then Invalido else Certo(s[i + 1..f.value], f.value + 1)
  }

  /** int: a zero, or digits that do not start with one. */
  function FimDoInteiro(s: seq<byte>, i: nat): (r: Option<nat>)
    requires i <= |s|
    ensures r.Some? ==> i < r.value <= |s|
  {
    if i == |s| || !Digito(s[i]) then None
    else if s[i] == 0x30 then Some(i + 1)
    else Some(Digitos(s, i + 1))
  }

  function UmOuMaisDigitos(s: seq<byte>, i: nat): (r: Option<nat>)
    requires i <= |s|
    ensures r.Some? ==> i < r.value <= |s|
  {
    if i < |s| && Digito(s[i]) then Some(Digitos(s, i + 1)) else None
  }

  /** An optional fraction. */
  function FimDaFracao(s: seq<byte>, i: nat): (r: Option<nat>)
    requires i <= |s|
    ensures r.Some? ==> i <= r.value <= |s|
  {
    if i < |s| && s[i] == 0x2E then UmOuMaisDigitos(s, i + 1) else Some(i)
  }

  /** An optional exponent. */
  function FimDoExpoente(s: seq<byte>, i: nat): (r: Option<nat>)
    requires i <= |s|
    ensures r.Some? ==> i <= r.value <= |s|
  {
    if i < |s| && (s[i] == 0x65 || s[i] == 0x45) then
      UmOuMaisDigitos(s, if i + 1 < |s| && (s[i + 1] == 0x2B || s[i + 1] == 0x2D) then i + 2 else i + 1)
    else Some(i)
  }

  function FimDoNumero(s: seq<byte>, i: nat): (r: Option<nat>)
    requires i <= |s|
    ensures r.Some? ==> i < r.value <= |s|
  {
    var inteiro := FimDoInteiro(s, if i < |s| && s[i] == 0x2D then i + 1 else i);
    if inteiro.None? then None else
    var fracao := FimDaFracao(s, inteiro.value);
    if fracao.None? then None else FimDoExpoente(s, fracao.value)
  }

  predicate Comeca(s: seq<byte>, i: nat, palavra: seq<byte>) {
    i + |palavra| <= |s| && forall k | 0 <= k < |palavra| :: s[i + k] == palavra[k]
  }

  function LerValor(s: seq<byte>, i: nat): (r: Lido<Valor>)
    ensures r.Certo? ==> i < r.fim <= |s|
    decreases |s| - i, 1
  {
    if i >= |s| then Invalido
    else if s[i] == ABRE_OBJETO then
      var j := Pular(s, i + 1);
      if j < |s| && s[j] == FECHA_OBJETO then Certo(Objeto([]), j + 1) else
      var r := LerMembros(s, j);
      if r.Certo? then Certo(Objeto(r.v), r.fim) else Invalido
    else if s[i] == ABRE_LISTA then
      var j := Pular(s, i + 1);
      if j < |s| && s[j] == FECHA_LISTA then Certo(Lista([]), j + 1) else
      var r := LerItens(s, j);
      if r.Certo? then Certo(Lista(r.v), r.fim) else Invalido
    else if s[i] == ASPAS then
      var r := LerTexto(s, i);
      if r.Certo? then Certo(Texto(r.v), r.fim) else Invalido
    else if Comeca(s, i, Ascii("true")) then Certo(Logico(true), i + 4)
    else if Comeca(s, i, Ascii("false")) then Certo(Logico(false), i + 5)
    else if Comeca(s, i, Ascii("null")) then Certo(Nulo, i + 4)
    else
      var f := FimDoNumero(s, i);
      if f.Some? then Certo(Numero(s[i..f.value]), f.value) else Invalido
  }

  /** One member, up to the first byte after its value and the whitespace that follows. */
  function LerMembro(s: seq<byte>, i: nat): (r: Lido<Membro>)
    ensures r.Certo? ==> i < r.fim <= |s|
    decreases |s| - i, 2
  {
    var c := LerTexto(s, i);
    if c.Invalido? then Invalido else
    var j := Pular(s, c.fim);
    if j == |s| || s[j] != DOIS_PONTOS then Invalido else
    var v := LerValor(s, Pular(s, j + 1));
    if v.Invalido? then Invalido else Certo(Membro(c.v, v.v), Pular(s, v.fim))
  }

  /** Members separated by commas, and the closing brace. */
  function LerMembros(s: seq<byte>, i: nat): (r: Lido<seq<Membro>>)
    ensures r.Certo? ==> i < r.fim <= |s| && r.v != [] && s[r.fim - 1] == FECHA_OBJETO
    decreases |s| - i, 3
  {
    var m := LerMembro(s, i);
    if m.Invalido? || m.fim == |s| then Invalido
    else if s[m.fim] == FECHA_OBJETO then Certo([m.v], m.fim + 1)
    else if s[m.fim] != VIRGULA then Invalido else
    var r := LerMembros(s, Pular(s, m.fim + 1));
    if r.Certo? then Certo([m.v] + r.v, r.fim) else Invalido
  }

  function LerItens(s: seq<byte>, i: nat): (r: Lido<seq<Valor>>)
    ensures r.Certo? ==> i < r.fim <= |s|
    decreases |s| - i, 3
  {
    var v := LerValor(s, i);
    if v.Invalido? then Invalido else
    var k := Pular(s, v.fim);
    if k == |s| then Invalido
    else if s[k] == FECHA_LISTA then Certo([v.v], k + 1)
    else if s[k] != VIRGULA then Invalido else
    var r := LerItens(s, Pular(s, k + 1));
    if r.Certo? then Certo([v.v] + r.v, r.fim) else Invalido
  }

  /** A whole text: one value with whitespace around it. */
  function LerJson(s: seq<byte>): Option<Valor> {
    var r := LerValor(s, Pular(s, 0));
    if r.Certo? && Pular(s, r.fim) == |s| then Some(r.v) else None
  }

  // ---------------------------------- what is read does not depend on the rest

  /** A structural byte: it ends any token and is not whitespace. */
  predicate Delimitador(b: byte) {
    b == VIRGULA || b == FECHA_OBJETO || b == FECHA_LISTA || b == DOIS_PONTOS || b == ASPAS
  }

  /** s and t agree before n, and both have a delimiter there. */
  predicate Concordam(s: seq<byte>, t: seq<byte>, n: nat) {
    && n < |s| && n < |t|
    && (forall k | 0 <= k < n :: s[k] == t[k])
    && Delimitador(s[n]) && Delimitador(t[n])
  }

  lemma {:induction false} PularEstavel(s: seq<byte>, t: seq<byte>, n: nat, i: nat)
    requires Concordam(s, t, n) && i <= n
    ensures Pular(s, i) == Pular(t, i) <= n
    decreases n - i
  {
    if i < n && Branco(s[i]) { PularEstavel(s, t, n, i + 1); }
  }

  lemma {:induction false} DigitosEstaveis(s: seq<byte>, t: seq<byte>, n: nat, i: nat)
    requires Concordam(s, t, n) && i <= n
    ensures Digitos(s, i) == Digitos(t, i) <= n
    decreases n - i
  {
    if i < n && Digito(s[i]) { DigitosEstaveis(s, t, n, i + 1); }
  }

  lemma {:induction false} FimDoTextoEstavel(s: seq<byte>, t: seq<byte>, n: nat, i: nat)
    requires Concordam(s, t, n) && i <= |s|
    requires FimDoTexto(s, i).Some? && FimDoTexto(s, i).value < n
    ensures i <= |t| && FimDoTexto(t, i) == FimDoTexto(s, i)
    decreases |s| - i
  {
    if s[i] == ASPAS {
    } else if Simples(s[i]) {
      FimDoTextoEstavel(s, t, n, i + 1);
    } else if EscapeCurto(s[i + 1]) {
      FimDoTextoEstavel(s, t, n, i + 2);
    } else {
      FimDoTextoEstavel(s, t, n, i + 6);
    }
  }

  lemma TextoEstavel(s: seq<byte>, t: seq<byte>, n: nat, i: nat)
    requires Concordam(s, t, n)
    requires LerTexto(s, i).Certo? && LerTexto(s, i).fim <= n
    ensures LerTexto(t, i) == LerTexto(s, i)
  {
    FimDoTextoEstavel(s, t, n, i + 1);
    var f := FimDoTexto(s, i + 1).value;
    assert s[i + 1..f] == t[i + 1..f];
  }

  lemma InteiroEstavel(s: seq<byte>, t: seq<byte>, n: nat, i: nat)
    requires Concordam(s, t, n) && i <= n
    ensures FimDoInteiro(s, i) == FimDoInteiro(t, i)
    ensures FimDoInteiro(s, i).Some? ==> FimDoInteiro(s, i).value <= n
  {
    if i < n { DigitosEstaveis(s, t, n, i + 1); }
  }

  lemma UmOuMaisEstavel(s: seq<byte>, t: seq<byte>, n: nat, i: nat)
    requires Concordam(s, t, n) && i <= n
    ensures UmOuMaisDigitos(s, i) == UmOuMaisDigitos(t, i)
    ensures UmOuMaisDigitos(s, i).Some? ==> UmOuMaisDigitos(s, i).value <= n
  {
    if i < n { DigitosEstaveis(s, t, n, i + 1); }
  }

  lemma FracaoEstavel(s: seq<byte>, t: seq<byte>, n: nat, i: nat)
    requires Concordam(s, t, n) && i <= n
    ensures FimDaFracao(s, i) == FimDaFracao(t, i)
    ensures FimDaFracao(s, i).Some? ==> FimDaFracao(s, i).value <= n
  {
    hide UmOuMaisDigitos;
    if i < n { UmOuMaisEstavel(s, t, n, i + 1); }
  }

  lemma ExpoenteEstavel(s: seq<byte>, t: seq<byte>, n: nat, i: nat)
    requires Concordam(s, t, n) && i <= n
    ensures FimDoExpoente(s, i) == FimDoExpoente(t, i)
    ensures FimDoExpoente(s, i).Some? ==> FimDoExpoente(s, i).value <= n
  {
    hide UmOuMaisDigitos;
    if i < n {
      UmOuMaisEstavel(s, t, n, i + 1);
      if i + 1 < n { UmOuMaisEstavel(s, t, n, i + 2); }
    }
  }

  lemma NumeroEstavel(s: seq<byte>, t: seq<byte>, n: nat, i: nat)
    requires Concordam(s, t, n) && i <= n
    ensures FimDoNumero(s, i) == FimDoNumero(t, i)
    ensures FimDoNumero(s, i).Some? ==> FimDoNumero(s, i).value <= n
  {
    hide FimDoInteiro, FimDaFracao, FimDoExpoente;
    var a := if s[i] == 0x2D then i + 1 else i;
    InteiroEstavel(s, t, n, a);
    var b := FimDoInteiro(s, a);
    if b.Some? {
      FracaoEstavel(s, t, n, b.value);
      var c := FimDaFracao(s, b.value);
      if c.Some? { ExpoenteEstavel(s, t, n, c.value); }
    }
  }

  lemma PalavraEstavel(s: seq<byte>, t: seq<byte>, n: nat, i: nat, palavra: seq<byte>)
    requires Concordam(s, t, n) && i <= n
    requires forall k | 0 <= k < |palavra| :: !Delimitador(palavra[k])
    ensures Comeca(s, i, palavra) == Comeca(t, i, palavra)
    ensures Comeca(s, i, palavra) ==> i + |palavra| <= n
  {
    if i + |palavra| > n {
      assert !Delimitador(palavra[n - i]);
    }
  }

  lemma {:induction false} SimplesEstaveis(s: seq<byte>, t: seq<byte>, n: nat, i: nat)
    requires Concordam(s, t, n) && i < n
    requires s[i] != ABRE_OBJETO && s[i] != ABRE_LISTA && s[i] != ASPAS
    requires LerValor(s, i).Certo? && LerValor(s, i).fim <= n
    ensures LerValor(t, i) == LerValor(s, i)
  {
    PalavraEstavel(s, t, n, i, Ascii("true"));
    PalavraEstavel(s, t, n, i, Ascii("false"));
    PalavraEstavel(s, t, n, i, Ascii("null"));
    NumeroEstavel(s, t, n, i);
    hide FimDoNumero, Comeca, Ascii;
    var f := FimDoNumero(s, i);
    if f.Some? { assert s[i..f.value] == t[i..f.value]; }
  }

  /** A value that ends by position n is read the same from any text that agrees up to n. */
  lemma {:induction false} ValorEstavel(s: seq<byte>, t: seq<byte>, n: nat, i: nat)
    requires Concordam(s, t, n)
    requires LerValor(s, i).Certo? && LerValor(s, i).fim <= n
    ensures LerValor(t, i) == LerValor(s, i)
    decreases |s| - i, 1
  {
    if s[i] == ABRE_OBJETO {
      PularEstavel(s, t, n, i + 1);
      var j := Pular(s, i + 1);
      if s[j] != FECHA_OBJETO { MembrosEstaveis(s, t, n, j); }
    } else if s[i] == ABRE_LISTA {
      PularEstavel(s, t, n, i + 1);
      var j := Pular(s, i + 1);
      if s[j] != FECHA_LISTA { ItensEstaveis(s, t, n, j); }
    } else if s[i] == ASPAS {
      TextoEstavel(s, t, n, i);
    } else {
      SimplesEstaveis(s, t, n, i);
    }
  }

  lemma {:induction false} MembroEstavel(s: seq<byte>, t: seq<byte>, n: nat, i: nat)
    requires Concordam(s, t, n)
    requires LerMembro(s, i).Certo? && LerMembro(s, i).fim <= n
    ensures LerMembro(t, i) == LerMembro(s, i)
    decreases |s| - i, 2
  {
    hide LerTexto, LerValor, Pular, Delimitador;
    TextoEstavel(s, t, n, i);
    var c := LerTexto(s, i);
    PularEstavel(s, t, n, c.fim);
    var j := Pular(s, c.fim);
    PularEstavel(s, t, n, j + 1);
    var k := Pular(s, j + 1);
    ValorEstavel(s, t, n, k);
    PularEstavel(s, t, n, LerValor(s, k).fim);
  }

  lemma {:induction false} MembrosEstaveis(s: seq<byte>, t: seq<byte>, n: nat, i: nat)
    requires Concordam(s, t, n)
    requires LerMembros(s, i).Certo? && LerMembros(s, i).fim <= n
    ensures LerMembros(t, i) == LerMembros(s, i)
    decreases |s| - i, 3
  {
    hide LerMembro, Pular, Delimitador;
    MembroEstavel(s, t, n, i);
    var m := LerMembro(s, i);
    assert m.fim < n;
    if s[m.fim] == VIRGULA {
      PularEstavel(s, t, n, m.fim + 1);
      MembrosEstaveis(s, t, n, Pular(s, m.fim + 1));
    }
  }

  lemma {:induction false} ItensEstaveis(s: seq<byte>, t: seq<byte>, n: nat, i: nat)
    requires Concordam(s, t, n)
    requires LerItens(s, i).Certo? && LerItens(s, i).fim <= n
    ensures LerItens(t, i) == LerItens(s, i)
    decreases |s| - i, 3
  {
    hide LerValor, Pular, Delimitador;
    ValorEstavel(s, t, n, i);
    var v := LerValor(s, i);
    PularEstavel(s, t, n, v.fim);
    var k := Pular(s, v.fim);
    assert k < n;
    if s[k] == VIRGULA {
      PularEstavel(s, t, n, k + 1);
      ItensEstaveis(s, t, n, Pular(s, k + 1));
    }
  }
}
