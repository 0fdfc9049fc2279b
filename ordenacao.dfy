/**
  Ordering of listings by a numeric key (the price), in either direction.
  The database's `orderBy` is modelled as a stable insertion sort; callers rely
  only on its contract: the result is ordered and is a permutation of the input.
*/
module Ordenacao {
  import opened Modelo

  /** `a` may come before `b` in direction `dir`. */
  predicate EmOrdem(a: real, b: real, dir: Direcao)
  {
    if dir == Asc then a <= b else a >= b
  }

  ghost predicate Ordenado<T>(s: seq<T>, chave: T -> real, dir: Direcao)
  {
    forall i, j | 0 <= i < j < |s| :: EmOrdem(chave(s[i]), chave(s[j]), dir)
  }

  /** `h` may come before every element of `s`. */
  ghost predicate Precede<T>(h: T, s: seq<T>, chave: T -> real, dir: Direcao)
  {
    forall k | 0 <= k < |s| :: EmOrdem(chave(h), chave(s[k]), dir)
  }

  /** If `h` precedes `s` and `x`, it precedes any rearrangement of `s` with `x` added. */
  lemma PrecedeInsercao<T>(h: T, s: seq<T>, x: T, r: seq<T>, chave: T -> real, dir: Direcao)
    requires Precede(h, s, chave, dir) && EmOrdem(chave(h), chave(x), dir)
    requires multiset(r) == multiset(s) + multiset{x}
    ensures Precede(h, r, chave, dir)
  {
    forall k | 0 <= k < |r| ensures EmOrdem(chave(h), chave(r[k]), dir) {
      assert r[k] in multiset(r);
      if r[k] != x {
        assert r[k] in multiset(s);
        var m :| 0 <= m < |s| && s[m] == r[k];
      }
    }
  }

  /** An ordered sequence stays ordered with an element in front that precedes all of it. */
  lemma OrdenadoComCabeca<T>(h: T, r: seq<T>, chave: T -> real, dir: Direcao)
    requires Precede(h, r, chave, dir) && Ordenado(r, chave, dir)
    ensures Ordenado([h] + r, chave, dir)
  {
    var t := [h] + r;
    forall i, j | 0 <= i < j < |t| ensures EmOrdem(chave(t[i]), chave(t[j]), dir) {
      if i == 0 {
        assert t[j] == r[j - 1];
      } else {
        assert t[i] == r[i - 1] && t[j] == r[j - 1];
      }
    }
  }

  /** Inserts `x` into the ordered sequence `s`, after the elements it does not precede. */
  function Inserir<T>(x: T, s: seq<T>, chave: T -> real, dir: Direcao): (r: seq<T>)
    requires Ordenado(s, chave, dir)
    ensures Ordenado(r, chave, dir)
    ensures multiset(r) == multiset(s) + multiset{x}
  {
    if s == [] || EmOrdem(chave(x), chave(s[0]), dir) then
      assert Precede(x, s, chave, dir);
      OrdenadoComCabeca(x, s, chave, dir);
      [x] + s
    else
      var resto := Inserir(x, s[1..], chave, dir);
      assert s == [s[0]] + s[1..];
      assert Precede(s[0], s[1..], chave, dir);
      PrecedeInsercao(s[0], s[1..], x, resto, chave, dir);
      OrdenadoComCabeca(s[0], resto, chave, dir);
      [s[0]] + resto
  }

  /** Orders `s` by `chave` in direction `dir`. */
  function Ordenar<T>(s: seq<T>, chave: T -> real, dir: Direcao): (r: seq<T>)
    ensures Ordenado(r, chave, dir)
    ensures multiset(r) == multiset(s)
  {
    if s == [] then
      []
    else
      assert s == [s[0]] + s[1..];
      Inserir(s[0], Ordenar(s[1..], chave, dir), chave, dir)
  }
}
