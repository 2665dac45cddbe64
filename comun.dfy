/** Shared vocabulary of the model: Java's nullable values as `Option`, the two
    exception kinds the services throw as `Error`, the string checks the services
    use (`isBlank`, `StringUtils.hasText`, case-insensitive comparison, `LIKE
    '%term%'`), a filter and an ordering over table rows, and integer-to-text
    conversion for the `StringBuilder.append(Integer)` calls. */
module Comun {

  datatype Option<+T> = None | Some(value: T)

  /** The exception kinds the modelled services throw. `NotFound` stands for
      `ResourceNotFoundException`, `Business` for `BusinessException`,
      `Arithmetic` for `java.lang.ArithmeticException` (a `BigDecimal`
      division by zero), `Constraint` for the database refusing a row that
      breaks a `unique` column. */
  datatype Error = NotFound | Business | Arithmetic | Constraint

  datatype Result<+T> = Success(value: T) | Failure(error: Error)

  /** A Java `Boolean` filter argument: `null` imposes nothing, a value imposes
      equality. */
  predicate Coincide<T(==)>(filtro: Option<T>, valor: T)
  {
    filtro.None? || filtro.value == valor
  }

  // ---------------------------------------------------------------------------
  // Text

  /** The characters `Character.isWhitespace` accepts: the ASCII controls
      and space, and the Unicode space, line and paragraph separators other
      than the non-breaking ones (U+00A0, U+2007, U+202F). */
  predicate EsEspacio(c: char)
  {
    || c == ' ' || c == '\t' || c == '\n' || c == '\r' || c == '\U{B}' || c == '\U{C}'
    || ('\U{1C}' <= c <= '\U{1F}')
    || c == '\U{1680}' || ('\U{2000}' <= c <= '\U{2006}') || ('\U{2008}' <= c <= '\U{200A}')
    || c == '\U{2028}' || c == '\U{2029}' || c == '\U{205F}' || c == '\U{3000}'
  }

  /** `s.isBlank()`: empty or only whitespace. */
  predicate EnBlanco(s: string)
  {
    forall i :: 0 <= i < |s| ==> EsEspacio(s[i])
  }

  /** `StringUtils.hasText(s)`, also `s != null && !s.isBlank()`. */
  predicate TieneTexto(s: Option<string>)
  {
    s.Some? && !EnBlanco(s.value)
  }

  /** The separators beyond ASCII that count as blank, and the
      non-breaking spaces that do not: a name holding a non-breaking space
      always has text. */
  lemma EspaciosUnicode()
    ensures EsEspacio('\U{1680}') && EsEspacio('\U{2000}') && EsEspacio('\U{200A}')
    ensures EsEspacio('\U{2028}') && EsEspacio('\U{2029}') && EsEspacio('\U{205F}') && EsEspacio('\U{3000}')
    ensures !EsEspacio('\U{A0}') && !EsEspacio('\U{2007}') && !EsEspacio('\U{202F}')
    ensures forall s: string :: '\U{A0}' in s ==> TieneTexto(Some(s))
  {
    forall s: string | '\U{A0}' in s ensures TieneTexto(Some(s)) {
      var i :| 0 <= i < |s| && s[i] == '\U{A0}';
      assert !EsEspacio(s[i]);
    }
  }

  /** The value a partial update leaves in a column: the new one when
      present. */
  function Nuevo<T>(nuevo: Option<T>, actual: T): T
  {
    if nuevo.Some? then nuevo.value else actual
  }

  /** The value a partial update leaves in a nullable column. */
  function NuevoOpcional<T>(nuevo: Option<T>, actual: Option<T>): Option<T>
  {
    if nuevo.Some? then nuevo else actual
  }

  /** The value a partial update leaves in a text column it writes only when
      the new value has text. */
  function NuevoConTexto(nuevo: Option<string>, actual: Option<string>): Option<string>
  {
    if TieneTexto(nuevo) then nuevo else actual
  }

  function MinusculaChar(c: char): (d: char)
    ensures 'A' <= c <= 'Z' ==> 'a' <= d <= 'z'
    ensures !('A' <= c <= 'Z') ==> d == c
  {
    if 'A' <= c <= 'Z' then (c as int + 32) as char else c
  }

  /** SQL `LOWER` and Java's case folding, restricted to ASCII letters. */
  function Minusculas(s: string): (r: string)
    ensures |r| == |s|
    ensures forall i :: 0 <= i < |s| ==> r[i] == MinusculaChar(s[i])
  {
    if s == [] then [] else [MinusculaChar(s[0])] + Minusculas(s[1..])
  }

  /** Case-insensitive equality (`equalsIgnoreCase`, `LOWER(a) = LOWER(b)`). */
  predicate IgualSinMayusculas(a: string, b: string)
  {
    Minusculas(a) == Minusculas(b)
  }

  /** `t` occurs in `s` as a contiguous block. */
  predicate Contiene(s: string, t: string)
    decreases |s|
  {
    if |t| > |s| then false
    else if s[..|t|] == t then true
    else Contiene(s[1..], t)
  }

  lemma {:induction false} ContieneEn(s: string, t: string, k: nat)
    requires k + |t| <= |s| && s[k..k + |t|] == t
    ensures Contiene(s, t)
    decreases k
  {
    if s[..|t|] != t {
      assert k > 0;
      assert s[1..][k - 1..k - 1 + |t|] == s[k..k + |t|];
      ContieneEn(s[1..], t, k - 1);
    }
  }

  lemma {:induction false} ContieneDa(s: string, t: string) returns (k: nat)
    requires Contiene(s, t)
    ensures k + |t| <= |s| && s[k..k + |t|] == t
    decreases |s|
  {
    if s[..|t|] == t {
      k := 0;
    } else {
      var k' := ContieneDa(s[1..], t);
      k := k' + 1;
      assert s[k..k + |t|] == s[1..][k'..k' + |t|];
    }
  }

  /** `t` occurs in `s` at position `k`. */
  predicate OcurreEn(s: string, t: string, k: int)
  {
    0 <= k && k + |t| <= |s| && s[k..k + |t|] == t
  }

  /** `Contiene` is substring occurrence: both directions. */
  lemma ContieneSiOcurre(s: string, t: string)
    ensures Contiene(s, t) <==> exists k :: OcurreEn(s, t, k)
  {
    if Contiene(s, t) {
      var k := ContieneDa(s, t);
      assert OcurreEn(s, t, k);
    }
    if exists k :: OcurreEn(s, t, k) {
      var k :| OcurreEn(s, t, k);
      ContieneEn(s, t, k);
    }
  }

  /** `LOWER(col) LIKE LOWER(CONCAT('%', term, '%'))` on a non-null column. */
  predicate ContieneSinMayusculas(s: string, term: string)
  {
    Contiene(Minusculas(s), Minusculas(term))
  }

  /** The same test on a nullable column: SQL makes `NULL LIKE ...` unknown,
      and an unknown row is not selected. */
  predicate ColumnaContiene(s: Option<string>, term: string)
  {
    s.Some? && ContieneSinMayusculas(s.value, term)
  }

  // ---------------------------------------------------------------------------
  // Decimal text of an integer (`StringBuilder.append(int)`)

  function DigitoChar(d: int): (c: char)
    requires 0 <= d < 10
    ensures '0' <= c <= '9'
  {
    (48 + d) as char
  }

  function NatATexto(n: nat): (s: string)
    ensures |s| >= 1
    ensures forall i :: 0 <= i < |s| ==> '0' <= s[i] <= '9'
    decreases n
  {
    if n < 10 then [DigitoChar(n)] else NatATexto(n / 10) + [DigitoChar(n % 10)]
  }

  function EnteroATexto(n: int): (s: string)
    ensures |s| >= 1
    ensures n < 0 <==> s[0] == '-'
  {
    if n < 0 then "-" + NatATexto(-n) else NatATexto(n)
  }

  // ---------------------------------------------------------------------------
  // Filtering rows in table order (`WHERE` clauses and stream `filter`)

  function Filtrar<T(!new)>(s: seq<T>, p: T -> bool): (r: seq<T>)
    ensures |r| <= |s|
    ensures forall x :: x in r <==> x in s && p(x)
    ensures forall i :: 0 <= i < |r| ==> p(r[i])
  {
    if s == [] then []
    else (if p(s[0]) then [s[0]] else []) + Filtrar(s[1..], p)
  }

  lemma {:induction false} FiltrarConcat<T(!new)>(a: seq<T>, b: seq<T>, p: T -> bool)
    ensures Filtrar(a + b, p) == Filtrar(a, p) + Filtrar(b, p)
    decreases |a|
  {
    if a == [] {
      assert a + b == b;
    } else {
      assert (a + b)[1..] == a[1..] + b;
      FiltrarConcat(a[1..], b, p);
    }
  }

  /** Filtering a table grown by one row keeps the earlier result and adds
      the new row when it passes. */
  lemma FiltrarAlFinal<T(!new)>(s: seq<T>, x: T, p: T -> bool)
    ensures Filtrar(s + [x], p) == Filtrar(s, p) + (if p(x) then [x] else [])
  {
    FiltrarConcat(s, [x], p);
    assert [x][1..] == [];
  }

  /** Number of rows a filter keeps (`COUNT(*) ... WHERE`, stream `count`). */
  function Contar<T(!new)>(s: seq<T>, p: T -> bool): (n: nat)
    ensures n == |Filtrar(s, p)|
    ensures n <= |s|
  {
    if s == [] then 0 else (if p(s[0]) then 1 else 0) + Contar(s[1..], p)
  }

  /** Rows that satisfy `p` and rows that satisfy its negation `q` together
      make up the table. */
  lemma {:induction false} ContarComplemento<T(!new)>(s: seq<T>, p: T -> bool, q: T -> bool)
    requires forall x :: q(x) == !p(x)
    ensures Contar(s, p) + Contar(s, q) == |s|
  {
    if s != [] {
      ContarComplemento(s[1..], p, q);
    }
  }

  /** The first position whose row satisfies `p`, or -1 when none does
      (`findById`, stream `findFirst`). */
  function Indice<T>(s: seq<T>, p: T -> bool): (i: int)
    ensures -1 <= i < |s|
    ensures 0 <= i ==> p(s[i]) && forall k :: 0 <= k < i ==> !p(s[k])
    ensures i == -1 <==> forall k :: 0 <= k < |s| ==> !p(s[k])
  {
    if s == [] then -1
    else if p(s[0]) then 0
    else
      var j := Indice(s[1..], p);
      if j == -1 then -1 else j + 1
  }

  /** Whether some row satisfies `p` (`existsBy...`, `COUNT(...) > 0`,
      stream `anyMatch`). */
  function Existe<T>(s: seq<T>, p: T -> bool): (b: bool)
    ensures b <==> exists i :: 0 <= i < |s| && p(s[i])
  {
    Indice(s, p) >= 0
  }

  lemma {:induction false} ContarPositivo<T(!new)>(s: seq<T>, p: T -> bool, i: int)
    requires 0 <= i < |s| && p(s[i])
    ensures Contar(s, p) > 0
  {
    assert s[i] in Filtrar(s, p);
  }

  /** `COALESCE(MAX(column), 0)` over a nullable integer column: the
      largest value present, or 0 when no row holds one. */
  function MaximoOCero<T>(s: seq<T>, columna: T -> Option<int>): (m: int)
    ensures forall i :: 0 <= i < |s| && columna(s[i]).Some? ==> columna(s[i]).value <= m
    ensures (exists i :: 0 <= i < |s| && columna(s[i]).Some?) ==>
      exists i :: 0 <= i < |s| && columna(s[i]) == Some(m)
    ensures (forall i :: 0 <= i < |s| ==> columna(s[i]).None?) ==> m == 0
  {
    if s == [] then 0
    else
      var resto := MaximoOCero(s[1..], columna);
      var hayResto := exists i :: 0 <= i < |s[1..]| && columna(s[1..][i]).Some?;
      if columna(s[0]).None? then resto
      else if !hayResto || columna(s[0]).value >= resto then
        columna(s[0]).value
      else
        resto
  }

  /** The last position of `id` among the first `n` entries of `ids`, or
      -1 when it does not occur there. */
  function UltimaPosicion(ids: seq<int>, n: nat, id: int): (j: int)
    requires n <= |ids|
    ensures -1 <= j < n
    ensures 0 <= j ==> ids[j] == id && forall k :: j < k < n ==> ids[k] != id
    ensures j == -1 <==> forall k :: 0 <= k < n ==> ids[k] != id
    decreases n
  {
    if n == 0 then -1
    else if ids[n - 1] == id then n - 1
    else UltimaPosicion(ids, n - 1, id)
  }

  // ---------------------------------------------------------------------------
  // Removing one row (a hard `DELETE`)

  /** The table without its row at position `i`, the others in order. */
  function SinPosicion<T>(s: seq<T>, i: int): (r: seq<T>)
    requires 0 <= i < |s|
    ensures |r| == |s| - 1
    ensures forall k :: 0 <= k < i ==> r[k] == s[k]
    ensures forall k :: i <= k < |r| ==> r[k] == s[k + 1]
  {
    s[..i] + s[i + 1..]
  }

  /** In a table whose keys increase, removing a row leaves exactly the rows
      with another key, their keys still increasing. */
  lemma {:induction false} SinPosicionClaves<T>(s: seq<T>, i: int, clave: T -> int)
    requires 0 <= i < |s|
    requires forall a, b :: 0 <= a < b < |s| ==> clave(s[a]) < clave(s[b])
    ensures forall x :: x in SinPosicion(s, i) <==> x in s && clave(x) != clave(s[i])
    ensures forall a, b :: 0 <= a < b < |s| - 1 ==> clave(SinPosicion(s, i)[a]) < clave(SinPosicion(s, i)[b])
  {
    var r := SinPosicion(s, i);
    forall x ensures x in r <==> x in s && clave(x) != clave(s[i]) {
      if x in r {
        var k :| 0 <= k < |r| && r[k] == x;
        if k < i {
          assert s[k] == x;
        } else {
          assert s[k + 1] == x;
        }
      }
      if x in s && clave(x) != clave(s[i]) {
        var k :| 0 <= k < |s| && s[k] == x;
        if k < i {
          assert r[k] == x;
        } else {
          assert k != i && r[k - 1] == x;
        }
      }
    }
    forall a, b | 0 <= a < b < |r| ensures clave(r[a]) < clave(r[b]) {
      var a' := if a < i then a else a + 1;
      var b' := if b < i then b else b + 1;
      assert r[a] == s[a'] && r[b] == s[b'];
    }
  }

  // ---------------------------------------------------------------------------
  // Ordering (`ORDER BY`): insertion sort under a total preorder

  ghost predicate PreordenTotal<T(!new)>(le: (T, T) -> bool)
  {
    && (forall a, b :: le(a, b) || le(b, a))
    && (forall a, b, c :: le(a, b) && le(b, c) ==> le(a, c))
  }

  /** `ORDER BY column ASC` on a nullable integer column, a NULL after
      every number. */
  predicate NulosAlFinal(a: Option<int>, b: Option<int>)
  {
    match a
    case None => b.None?
    case Some(x) => b.None? || x <= b.value
  }

  /** `ORDER BY column ASC` on a text column: lexicographic order by
      character code. */
  predicate TextoAntes(a: string, b: string)
  {
    a == [] || (b != [] && (a[0] < b[0] || (a[0] == b[0] && TextoAntes(a[1..], b[1..]))))
  }

  lemma {:induction false} TextoAntesTotal(a: string, b: string)
    ensures TextoAntes(a, b) || TextoAntes(b, a)
    decreases |a|
  {
    if a != [] && b != [] && a[0] == b[0] {
      TextoAntesTotal(a[1..], b[1..]);
    }
  }

  lemma {:induction false} TextoAntesTransitivo(a: string, b: string, c: string)
    requires TextoAntes(a, b) && TextoAntes(b, c)
    ensures TextoAntes(a, c)
    decreases |a|
  {
    if a != [] && a[0] == b[0] && b[0] == c[0] {
      TextoAntesTransitivo(a[1..], b[1..], c[1..]);
    }
  }

  /** `ORDER BY ordenVisualizacion ASC, nombre ASC`. */
  predicate PosicionYNombreAntes(oa: Option<int>, na: string, ob: Option<int>, nb: string)
  {
    if oa == ob then TextoAntes(na, nb) else NulosAlFinal(oa, ob)
  }

  lemma PosicionYNombreTotal(oa: Option<int>, na: string, ob: Option<int>, nb: string)
    ensures PosicionYNombreAntes(oa, na, ob, nb) || PosicionYNombreAntes(ob, nb, oa, na)
  {
    TextoAntesTotal(na, nb);
  }

  lemma PosicionYNombreTransitivo(oa: Option<int>, na: string, ob: Option<int>, nb: string, oc: Option<int>, nc: string)
    requires PosicionYNombreAntes(oa, na, ob, nb) && PosicionYNombreAntes(ob, nb, oc, nc)
    ensures PosicionYNombreAntes(oa, na, oc, nc)
  {
    if oa == ob == oc {
      TextoAntesTransitivo(na, nb, nc);
    }
  }

  predicate Ordenada<T>(s: seq<T>, le: (T, T) -> bool)
  {
    forall i, j :: 0 <= i < j < |s| ==> le(s[i], s[j])
  }

  function Insertar<T>(x: T, s: seq<T>, le: (T, T) -> bool): (r: seq<T>)
    ensures multiset(r) == multiset(s) + multiset{x}
    ensures |r| == |s| + 1
  {
    if s == [] then [x]
    else if le(x, s[0]) then [x] + s
    else
      assert s == [s[0]] + s[1..];
      [s[0]] + Insertar(x, s[1..], le)
  }

  lemma {:induction false} InsertarOrdena<T(!new)>(x: T, s: seq<T>, le: (T, T) -> bool)
    requires PreordenTotal(le)
    requires Ordenada(s, le)
    ensures Ordenada(Insertar(x, s, le), le)
    decreases |s|
  {
    if s != [] && !le(x, s[0]) {
      assert le(s[0], x);
      InsertarOrdena(x, s[1..], le);
      var r := Insertar(x, s, le);
      var t := Insertar(x, s[1..], le);
      assert r == [s[0]] + t;
      forall i, j | 0 <= i < j < |r| ensures le(r[i], r[j]) {
        if i == 0 {
          // every element of t is x or an element of s[1..], all above s[0]
          assert r[j] in multiset(t);
          assert r[j] == x || r[j] in multiset(s[1..]);
          if r[j] != x {
            assert r[j] in s[1..];
            var k :| 0 <= k < |s[1..]| && s[1..][k] == r[j];
            assert s[0] == s[0] && s[k + 1] == r[j];
          }
        }
      }
    }
  }

  /** The rows of `s` in the order `le` asks for. */
  function Ordenar<T>(s: seq<T>, le: (T, T) -> bool): (r: seq<T>)
    ensures multiset(r) == multiset(s)
    ensures |r| == |s|
  {
    if s == [] then []
    else
      assert s == [s[0]] + s[1..];
      Insertar(s[0], Ordenar(s[1..], le), le)
  }

  lemma {:induction false} OrdenarOrdena<T(!new)>(s: seq<T>, le: (T, T) -> bool)
    requires PreordenTotal(le)
    ensures Ordenada(Ordenar(s, le), le)
    decreases |s|
  {
    if s != [] {
      OrdenarOrdena(s[1..], le);
      InsertarOrdena(s[0], Ordenar(s[1..], le), le);
    }
  }

  lemma MultisetMismosElementos<T>(a: seq<T>, b: seq<T>)
    requires multiset(a) == multiset(b)
    ensures forall x :: x in a <==> x in b
  {
    forall x ensures x in a <==> x in b {
      assert x in a <==> x in multiset(a);
      assert x in b <==> x in multiset(b);
    }
  }
}
