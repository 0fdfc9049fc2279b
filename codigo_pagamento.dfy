/**
  The payment code issued when a reservation moves to CODIGO_GERADO:
  "PAY-" + the first eight characters of the sale id + "-" + the current time
  in milliseconds written in base 36 and upper-cased.

  `Base36` is JavaScript's `Number.prototype.toString(36)` on a non-negative
  integer (lower-case digits, no leading zeros); `Maiusculas` is `toUpperCase`
  on the ASCII letters those digits use. `Decompor` reads a code back, which
  shows that a code determines its id fragment and its timestamp.
*/
module CodigoPagamento {
  import opened Modelo

  const PREFIXO: string := "PAY-"
  /** Length of the sale-id fragment kept in the code. */
  const TAMANHO_FRAGMENTO: nat := 8

  /** Base-36 digit `d`: '0'..'9', then 'a'..'z'. */
  function Digito(d: nat): (c: char)
    requires d < 36
    ensures '0' <= c <= '9' || 'a' <= c <= 'z'
  {
    if d < 10 then ('0' as int + d) as char else ('a' as int + (d - 10)) as char
  }

  /** The non-negative integer `n` in base 36, most significant digit first. */
  function Base36(n: nat): (s: string)
    ensures |s| >= 1
    ensures n == 0 <==> s == "0"
    ensures n > 0 ==> s[0] != '0'
    ensures forall i | 0 <= i < |s| :: '0' <= s[i] <= '9' || 'a' <= s[i] <= 'z'
    decreases n
  {
    if n < 36 then [Digito(n)] else Base36(n / 36) + [Digito(n % 36)]
  }

  function MaiusculaAscii(c: char): char
  {
    if 'a' <= c <= 'z' then (c as int - 32) as char else c
  }

  /** `toUpperCase` restricted to ASCII letters. */
  function Maiusculas(s: string): (r: string)
    ensures |r| == |s|
    ensures forall i | 0 <= i < |s| :: r[i] == MaiusculaAscii(s[i])
  {
    if s == [] then [] else Maiusculas(s[..|s| - 1]) + [MaiusculaAscii(s[|s| - 1])]
  }

  /** `id.slice(0, 8)`. */
  function Fragmento(id: Id): (f: string)
    ensures |f| == if |id| <= TAMANHO_FRAGMENTO then |id| else TAMANHO_FRAGMENTO
    ensures f <= id
  {
    if |id| <= TAMANHO_FRAGMENTO then id else id[..TAMANHO_FRAGMENTO]
  }

  /**
    The payment code for sale `id` generated at time `agora` (milliseconds):
    it starts with "PAY-" and holds at least one character after the prefix
    and the separator.
  */
  function Codigo(id: Id, agora: nat): (c: string)
    ensures |c| > |PREFIXO| + 1
    ensures c[..|PREFIXO|] == PREFIXO
  {
    var resto := Fragmento(id) + "-" + Maiusculas(Base36(agora));
    assert (PREFIXO + resto)[..|PREFIXO|] == PREFIXO;
    PREFIXO + resto
  }

  // ----- reading a code back -----

  /** Value of an upper-case base-36 digit (0 for any other character). */
  function ValorDigito(c: char): nat
  {
    if '0' <= c <= '9' then c as int - '0' as int
    else if 'A' <= c <= 'Z' then c as int - 'A' as int + 10
    else 0
  }

  /** Value of an upper-case base-36 numeral. */
  function ValorBase36(s: string): nat
  {
    if s == [] then 0 else ValorBase36(s[..|s| - 1]) * 36 + ValorDigito(s[|s| - 1])
  }

  /** Index of the last '-' in `s`, if any. */
  function UltimoHifen(s: string): (r: Option<nat>)
    ensures r.Some? ==> r.value < |s| && s[r.value] == '-'
  {
    if s == [] then None
    else if s[|s| - 1] == '-' then Some(|s| - 1)
    else UltimoHifen(s[..|s| - 1])
  }

  /** Splits a code into its id fragment and its timestamp. */
  function Decompor(c: string): Option<(string, nat)>
  {
    if |c| < |PREFIXO| || c[..|PREFIXO|] != PREFIXO then None
    else
      match UltimoHifen(c)
      case None => None
      case Some(k) =>
        if k < |PREFIXO| then None
        else Some((c[|PREFIXO|..k], ValorBase36(c[k + 1..])))
  }

  // ----- lemmas -----

  lemma {:induction false} ValorDigitoMaiuscula(d: nat)
    requires d < 36
    ensures ValorDigito(MaiusculaAscii(Digito(d))) == d
  {
  }

  lemma MaiusculasConcat(a: string, b: string)
    ensures Maiusculas(a + b) == Maiusculas(a) + Maiusculas(b)
  {
  }

  lemma ValorBase36Acrescimo(s: string, c: char)
    ensures ValorBase36(s + [c]) == ValorBase36(s) * 36 + ValorDigito(c)
  {
    assert (s + [c])[..|s + [c]| - 1] == s;
  }

  /** The upper-cased numeral of `n` is that of `n / 36` followed by its last digit. */
  lemma MaiusculasBase36Passo(n: nat)
    requires n >= 36
    ensures Maiusculas(Base36(n)) == Maiusculas(Base36(n / 36)) + [MaiusculaAscii(Digito(n % 36))]
  {
    MaiusculasConcat(Base36(n / 36), [Digito(n % 36)]);
  }

  /** A one-digit numeral reads back as its value. */
  lemma Base36InversaDigito(n: nat)
    requires n < 36
    ensures ValorBase36(Maiusculas(Base36(n))) == n
  {
    var c := MaiusculaAscii(Digito(n));
    assert Base36(n) == [Digito(n)];
    assert Maiusculas([Digito(n)]) == [c];
    ValorDigitoMaiuscula(n);
    assert [c][..0] == [];
  }

  /** Reading an upper-cased base-36 numeral gives back the number written. */
  lemma {:induction false} Base36Inversa(n: nat)
    ensures ValorBase36(Maiusculas(Base36(n))) == n
    decreases n
  {
    if n < 36 {
      Base36InversaDigito(n);
    } else {
      var q, d := n / 36, n % 36;
      var m, c := Maiusculas(Base36(q)), MaiusculaAscii(Digito(d));
      ValorDigitoMaiuscula(d);
      MaiusculasBase36Passo(n);
      ValorBase36Acrescimo(m, c);
      Base36Inversa(q);
      assert ValorBase36(m + [c]) == q * 36 + d;
    }
  }

  /** The digits of a code are upper-case base-36 digits, never a '-'. */
  lemma DigitosMaiusculos(n: nat)
    ensures forall c | c in Maiusculas(Base36(n)) :: '0' <= c <= '9' || 'A' <= c <= 'Z'
  {
    var s := Base36(n);
    forall c | c in Maiusculas(s) ensures '0' <= c <= '9' || 'A' <= c <= 'Z' {
      var i :| 0 <= i < |s| && Maiusculas(s)[i] == c;
    }
  }

  lemma {:induction false} UltimoHifenSufixo(a: string, b: string)
    requires '-' !in b
    ensures UltimoHifen(a + ['-'] + b) == Some(|a|)
    decreases |b|
  {
    var s := a + ['-'] + b;
    if b != [] {
      assert s[|s| - 1] == b[|b| - 1];
      assert s[..|s| - 1] == a + ['-'] + b[..|b| - 1];
      UltimoHifenSufixo(a, b[..|b| - 1]);
    }
  }

  /** A string shaped like a code parses into its fragment and the value of its digits. */
  lemma DecomporForma(f: string, digitos: string)
    requires '-' !in digitos
    ensures Decompor(PREFIXO + f + ['-'] + digitos) == Some((f, ValorBase36(digitos)))
  {
    var c := PREFIXO + f + ['-'] + digitos;
    UltimoHifenSufixo(PREFIXO + f, digitos);
    assert c[..|PREFIXO|] == PREFIXO;
    assert c[|PREFIXO|..|PREFIXO| + |f|] == f;
    assert c[|PREFIXO| + |f| + 1..] == digitos;
  }

  /** A code can be read back into the id fragment and the timestamp that built it. */
  lemma CodigoDecompoe(id: Id, agora: nat)
    ensures Decompor(Codigo(id, agora)) == Some((Fragmento(id), agora))
  {
    var digitos := Maiusculas(Base36(agora));
    DigitosMaiusculos(agora);
    assert '-' !in digitos;
    assert Codigo(id, agora) == PREFIXO + Fragmento(id) + ['-'] + digitos;
    DecomporForma(Fragmento(id), digitos);
    Base36Inversa(agora);
  }

  /** Two codes are equal only when they carry the same id fragment and the same timestamp. */
  lemma CodigoInjetivo(id1: Id, t1: nat, id2: Id, t2: nat)
    ensures Codigo(id1, t1) == Codigo(id2, t2) <==> Fragmento(id1) == Fragmento(id2) && t1 == t2
  {
    CodigoDecompoe(id1, t1);
    CodigoDecompoe(id2, t2);
  }
}
