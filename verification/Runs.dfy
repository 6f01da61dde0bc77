/**
 * Runs of a transition system: which actions are possible in a state, and the
 * state each leads to. Every concurrent part of the model is one of these, with
 * an action for each atomic operation, so that a sequence of actions is one
 * interleaving of its goroutines.
 */
module Runs {
  datatype Sistema<!S(!new), !A(!new)> = Sistema(pode: (S, A) -> bool, passo: (S, A) -> S)

  predicate Executa<S(!new), A(!new)>(m: Sistema<S, A>, s: S, acoes: seq<A>)
    decreases |acoes|
  {
    acoes == [] || (m.pode(s, acoes[0]) && Executa(m, m.passo(s, acoes[0]), acoes[1..]))
  }

  function Final<S(!new), A(!new)>(m: Sistema<S, A>, s: S, acoes: seq<A>): S
    decreases |acoes|
  {
    if acoes == [] then s else Final(m, m.passo(s, acoes[0]), acoes[1..])
  }

  ghost predicate Indutivo<S(!new), A(!new)>(m: Sistema<S, A>, inv: S -> bool) {
    forall s, a :: inv(s) && m.pode(s, a) ==> inv(m.passo(s, a))
  }

  /** What every step keeps holds at the end of every run. */
  lemma {:induction false} Sempre<S(!new), A(!new)>(m: Sistema<S, A>, inv: S -> bool, s: S, acoes: seq<A>)
    requires Indutivo(m, inv) && inv(s) && Executa(m, s, acoes)
    ensures inv(Final(m, s, acoes))
    decreases |acoes|
  {
    if acoes != [] { Sempre(m, inv, m.passo(s, acoes[0]), acoes[1..]); }
  }

  /** Two runs end to end are a run. */
  lemma {:induction false} ExecutaConcat<S(!new), A(!new)>(m: Sistema<S, A>, s: S, a: seq<A>, b: seq<A>)
    requires Executa(m, s, a) && Executa(m, Final(m, s, a), b)
    ensures Executa(m, s, a + b) && Final(m, s, a + b) == Final(m, Final(m, s, a), b)
    decreases |a|
  {
    if a == [] {
      assert a + b == b;
    } else {
      assert (a + b)[1..] == a[1..] + b;
      ExecutaConcat(m, m.passo(s, a[0]), a[1..], b);
    }
  }

  /** p holds in every state of the run. */
  ghost predicate AoLongo<S(!new), A(!new)>(m: Sistema<S, A>, p: S -> bool, s: S, acoes: seq<A>)
    decreases |acoes|
  {
    p(s) && (acoes == [] || AoLongo(m, p, m.passo(s, acoes[0]), acoes[1..]))
  }

  /** No action of the run is taken where q says so. */
  ghost predicate NenhumPasso<S(!new), A(!new)>(m: Sistema<S, A>, q: (S, A) -> bool, s: S, acoes: seq<A>)
    decreases |acoes|
  {
    acoes == [] || (!q(s, acoes[0]) && NenhumPasso(m, q, m.passo(s, acoes[0]), acoes[1..]))
  }

  /** A step where p and inv hold keeps p exactly when q does not hold of it, and then keeps inv. */
  ghost predicate Exato<S(!new), A(!new)>(m: Sistema<S, A>, inv: S -> bool, p: S -> bool, q: (S, A) -> bool) {
    forall s, a :: inv(s) && p(s) && m.pode(s, a) ==>
      (p(m.passo(s, a)) <==> !q(s, a)) && (!q(s, a) ==> inv(m.passo(s, a)))
  }

  /** Then a run keeps p throughout if and only if none of its steps is one of those. */
  lemma {:induction false} AoLongoSeESoSe<S(!new), A(!new)>(m: Sistema<S, A>, inv: S -> bool, p: S -> bool,
                                                            q: (S, A) -> bool, s: S, acoes: seq<A>)
    requires Exato(m, inv, p, q) && inv(s) && p(s) && Executa(m, s, acoes)
    ensures AoLongo(m, p, s, acoes) <==> NenhumPasso(m, q, s, acoes)
    ensures AoLongo(m, p, s, acoes) ==> inv(Final(m, s, acoes)) && p(Final(m, s, acoes))
    decreases |acoes|
  {
    if acoes != [] {
      var t := m.passo(s, acoes[0]);
      if q(s, acoes[0]) {
        assert !p(t);
        assert !AoLongo(m, p, t, acoes[1..]);
      } else {
        AoLongoSeESoSe(m, inv, p, q, t, acoes[1..]);
      }
    }
  }

  /** What holds throughout holds after each part of the run. */
  lemma {:induction false} AoLongoEm<S(!new), A(!new)>(m: Sistema<S, A>, p: S -> bool, s: S, acoes: seq<A>, n: nat)
    requires AoLongo(m, p, s, acoes) && n <= |acoes|
    ensures p(Final(m, s, acoes[..n]))
    decreases |acoes|
  {
    if n > 0 {
      AoLongoEm(m, p, m.passo(s, acoes[0]), acoes[1..], n - 1);
      assert acoes[..n][1..] == acoes[1..][..n - 1];
    } else {
      assert acoes[..0] == [];
    }
  }

  /** What the steps of a run add up to, each weighed in the state where it is taken. */
  function Quanto<S(!new), A(!new)>(m: Sistema<S, A>, peso: (S, A) -> int, s: S, acoes: seq<A>): int
    decreases |acoes|
  {
    if acoes == [] then 0 else peso(s, acoes[0]) + Quanto(m, peso, m.passo(s, acoes[0]), acoes[1..])
  }

  /** What each step changes by its weight, a run changes by the sum. */
  lemma {:induction false} QuantoMuda<S(!new), A(!new)>(m: Sistema<S, A>, inv: S -> bool, medida: S -> int,
                                                        peso: (S, A) -> int, s: S, acoes: seq<A>)
    requires forall s, a :: inv(s) && m.pode(s, a) ==>
               inv(m.passo(s, a)) && medida(m.passo(s, a)) == medida(s) + peso(s, a)
    requires inv(s) && Executa(m, s, acoes)
    ensures medida(Final(m, s, acoes)) == medida(s) + Quanto(m, peso, s, acoes)
    decreases |acoes|
  {
    if acoes != [] { QuantoMuda(m, inv, medida, peso, m.passo(s, acoes[0]), acoes[1..]); }
  }

  /** Steps that a guard rules out do not happen in runs that keep to it. */
  lemma {:induction false} GuardaEvita<S(!new), A(!new)>(m: Sistema<S, A>, g: Sistema<S, A>, inv: S -> bool,
                                                         q: (S, A) -> bool, s: S, acoes: seq<A>)
    requires Executa(g, s, acoes) && inv(s)
    requires forall s, a :: inv(s) && g.pode(s, a) ==>
               m.pode(s, a) && g.passo(s, a) == m.passo(s, a) && inv(m.passo(s, a)) && !q(s, a)
    ensures Executa(m, s, acoes) && Final(m, s, acoes) == Final(g, s, acoes)
    ensures NenhumPasso(m, q, s, acoes) && inv(Final(m, s, acoes))
    decreases |acoes|
  {
    if acoes != [] { GuardaEvita(m, g, inv, q, m.passo(s, acoes[0]), acoes[1..]); }
  }
}
