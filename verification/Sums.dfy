/** Sums over sequences whose elements are replaced one at a time, for counting goroutines. */
module Sums {
  function Soma<T>(s: seq<T>, peso: T -> nat): nat {
    if s == [] then 0 else Soma(s[..|s| - 1], peso) + peso(s[|s| - 1])
  }

  lemma {:induction false} SomaTroca<T>(s: seq<T>, i: nat, x: T, peso: T -> nat)
    requires i < |s|
    ensures Soma(s[i := x], peso) == Soma(s, peso) - peso(s[i]) + peso(x)
  {
    var n := |s| - 1;
    if i == n {
      assert s[i := x][..n] == s[..n];
    } else {
      SomaTroca(s[..n], i, x, peso);
      assert s[i := x][..n] == s[..n][i := x];
    }
  }

  lemma {:induction false} SomaMais<T>(s: seq<T>, x: T, peso: T -> nat)
    ensures Soma(s + [x], peso) == Soma(s, peso) + peso(x)
  {
    assert (s + [x])[..|s|] == s;
  }

  lemma {:induction false} SomaSemPrimeiro<T>(s: seq<T>, peso: T -> nat)
    requires s != []
    ensures Soma(s, peso) == peso(s[0]) + Soma(s[1..], peso)
  {
    if |s| > 1 {
      SomaSemPrimeiro(s[..|s| - 1], peso);
      assert s[..|s| - 1][1..] == s[1..][..|s| - 2];
    } else {
      assert s[..0] == [] && s[1..] == [];
    }
  }

  lemma {:induction false} SomaZero<T>(s: seq<T>, peso: T -> nat)
    requires forall i | 0 <= i < |s| :: peso(s[i]) == 0
    ensures Soma(s, peso) == 0
  {
    if s != [] { SomaZero(s[..|s| - 1], peso); }
  }

  lemma {:induction false} SomaInclui<T>(s: seq<T>, i: nat, peso: T -> nat)
    requires i < |s|
    ensures Soma(s, peso) >= peso(s[i])
  {
    if i < |s| - 1 { SomaInclui(s[..|s| - 1], i, peso); }
  }

  /** Two elements both count. */
  lemma {:induction false} SomaIncluiDois<T>(s: seq<T>, i: nat, j: nat, peso: T -> nat)
    requires i < j < |s|
    ensures Soma(s, peso) >= peso(s[i]) + peso(s[j])
  {
    if j < |s| - 1 { SomaIncluiDois(s[..|s| - 1], i, j, peso); } else { SomaInclui(s[..j], i, peso); }
  }
}
