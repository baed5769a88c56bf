/**
 * The builder of the WHERE conditions and their `$n` arguments inside List
 * of internal/infrastructure/repository/postgres/ticket_repository.go.
 */
module PostgresWhere {
  import opened Decimal
  import opened TicketDomain
  import opened TicketStore

  /** `$%d`: the placeholder of argument number `n`. */
  function Placeholder(n: int): string {
    "$" + IntText(n)
  }

  /** `strings.Join`. */
  function Join(parts: seq<string>, sep: string): string {
    if |parts| == 0 then ""
    else if |parts| == 1 then parts[0]
    else parts[0] + sep + Join(parts[1..], sep)
  }

  /** The argument numbers `de`, `de + 1`, ..., `de + n - 1`. */
  function Numeros(de: int, n: nat): (r: seq<int>)
    ensures |r| == n
    ensures forall i :: 0 <= i < n ==> r[i] == de + i
  {
    seq(n, i requires 0 <= i < n => de + i)
  }

  /** The placeholders of the numbers `ns`, in order. */
  function Placeholders(ns: seq<int>): (r: seq<string>)
    ensures |r| == |ns|
    ensures forall i :: 0 <= i < |ns| ==> r[i] == Placeholder(ns[i])
  {
    seq(|ns|, i requires 0 <= i < |ns| => Placeholder(ns[i]))
  }

  /** One `categoria ILIKE $n` per number of `ns`, in order. */
  function CategoriaIlikes(ns: seq<int>): (r: seq<string>)
    ensures |r| == |ns|
    ensures forall i :: 0 <= i < |ns| ==> r[i] == "categoria ILIKE " + Placeholder(ns[i])
  {
    seq(|ns|, i requires 0 <= i < |ns| => "categoria ILIKE " + Placeholder(ns[i]))
  }

  /** One condition of the WHERE clause, with the argument numbers it refers to. */
  datatype Condicao =
    | StatusEm(numeros: seq<int>)
    | CategoriaComo(numeros: seq<int>)
    | ResponsavelIgual(numero: int)
    | AbertoPorIgual(numero: int)
  {
    /** The SQL text List writes for this condition. */
    function Texto(): string {
      match this
      case StatusEm(ns) => "status = ANY(ARRAY[" + Join(Placeholders(ns), ",") + "])"
      case CategoriaComo(ns) => "(" + Join(CategoriaIlikes(ns), " OR ") + ")"
      case ResponsavelIgual(n) => "responsavel = " + Placeholder(n)
      case AbertoPorIgual(n) => "aberto_por = " + Placeholder(n)
    }

    /** The argument numbers, in the order they appear in the text. */
    function Numeros(): seq<int> {
      match this
      case StatusEm(ns) => ns
      case CategoriaComo(ns) => ns
      case ResponsavelIgual(n) => [n]
      case AbertoPorIgual(n) => [n]
    }
  }

  /** The status condition: one placeholder per status, numbered from 1. */
  function CondicaoStatus(f: TicketFiltros): seq<Condicao> {
    if |f.status| > 0 then [StatusEm(Numeros(1, |f.status|))] else []
  }

  /** The category condition: one placeholder per category, numbered after the statuses. */
  function CondicaoCategoria(f: TicketFiltros): seq<Condicao> {
    if |f.categoria| > 0 then [CategoriaComo(Numeros(1 + |f.status|, |f.categoria|))] else []
  }

  /** The assignee condition, numbered after the categories. */
  function CondicaoResponsavel(f: TicketFiltros): seq<Condicao> {
    if f.responsavel != "" then [ResponsavelIgual(1 + |f.status| + |f.categoria|)] else []
  }

  /** The opener condition, numbered last. */
  function CondicaoAbertoPor(f: TicketFiltros): seq<Condicao> {
    var antes := |f.status| + |f.categoria| + (if f.responsavel != "" then 1 else 0);
    if f.abertoPor != "" then [AbertoPorIgual(1 + antes)] else []
  }

  /** The conditions List builds for a filter, in order: statuses, categories, assignee, opener. */
  function Condicoes(f: TicketFiltros): seq<Condicao> {
    CondicaoStatus(f) + CondicaoCategoria(f) + CondicaoResponsavel(f) + CondicaoAbertoPor(f)
  }

  /** The query arguments, in the order of their numbers. */
  function Argumentos(f: TicketFiltros): seq<string> {
    f.status + f.categoria +
    (if f.responsavel != "" then [f.responsavel] else []) +
    (if f.abertoPor != "" then [f.abertoPor] else [])
  }

  /** The text of each condition. */
  function Textos(cs: seq<Condicao>): (r: seq<string>)
    ensures |r| == |cs|
    ensures forall i :: 0 <= i < |cs| ==> r[i] == cs[i].Texto()
  {
    seq(|cs|, i requires 0 <= i < |cs| => cs[i].Texto())
  }

  /** The argument numbers of the conditions, in the order they appear in the query. */
  function TodosNumeros(cs: seq<Condicao>): seq<int> {
    if cs == [] then [] else cs[0].Numeros() + TodosNumeros(cs[1..])
  }

  /** What List appends to the SELECT: nothing without conditions, else ` WHERE ` and the conditions joined by ` AND `. */
  function ClausulaWhere(where: seq<string>): string {
    if |where| > 0 then " WHERE " + Join(where, " AND ") else ""
  }

  // ---------------------------------------------------------------------------
  // What the builder promises

  lemma {:induction false} TodosNumerosAppend(cs: seq<Condicao>, ds: seq<Condicao>)
    ensures TodosNumeros(cs + ds) == TodosNumeros(cs) + TodosNumeros(ds)
    decreases |cs|
  {
    if cs == [] {
      assert cs + ds == ds;
    } else {
      assert (cs + ds)[1..] == cs[1..] + ds;
      assert (cs + ds)[0] == cs[0];
      TodosNumerosAppend(cs[1..], ds);
      var a, b, c := cs[0].Numeros(), TodosNumeros(cs[1..]), TodosNumeros(ds);
      assert a + (b + c) == (a + b) + c;
    }
  }

  lemma NumerosConcat(de: int, n: nat, m: nat)
    ensures Numeros(de, n) + Numeros(de + n, m) == Numeros(de, n + m)
  {
  }

  /** Two runs of conditions numbered one after the other number one run. */
  lemma NumberedAppend(cs: seq<Condicao>, ds: seq<Condicao>, de: int, n: nat, m: nat)
    requires TodosNumeros(cs) == Numeros(de, n)
    requires TodosNumeros(ds) == Numeros(de + n, m)
    ensures TodosNumeros(cs + ds) == Numeros(de, n + m)
  {
    TodosNumerosAppend(cs, ds);
    NumerosConcat(de, n, m);
  }

  /** A piece of at most one condition numbers `de`, ..., `de + n - 1`. */
  lemma TodosNumerosPiece(cs: seq<Condicao>, de: int, n: nat)
    requires |cs| <= 1
    requires cs == [] ==> n == 0
    requires cs != [] ==> cs[0].Numeros() == Numeros(de, n)
    ensures TodosNumeros(cs) == Numeros(de, n)
  {
    if cs != [] {
      assert cs[1..] == [];
    }
  }

  /** Each of the four pieces numbers its own run of arguments. */
  lemma PiecesNumbered(f: TicketFiltros)
    ensures TodosNumeros(CondicaoStatus(f)) == Numeros(1, |f.status|)
    ensures TodosNumeros(CondicaoCategoria(f)) == Numeros(1 + |f.status|, |f.categoria|)
    ensures var nr := if f.responsavel != "" then 1 else 0;
      TodosNumeros(CondicaoResponsavel(f)) == Numeros(1 + |f.status| + |f.categoria|, nr)
    ensures var nr := if f.responsavel != "" then 1 else 0;
      var na := if f.abertoPor != "" then 1 else 0;
      TodosNumeros(CondicaoAbertoPor(f)) == Numeros(1 + |f.status| + |f.categoria| + nr, na)
  {
    var ns, nc := |f.status|, |f.categoria|;
    var nr := if f.responsavel != "" then 1 else 0;
    var na := if f.abertoPor != "" then 1 else 0;
    TodosNumerosPiece(CondicaoStatus(f), 1, ns);
    TodosNumerosPiece(CondicaoCategoria(f), 1 + ns, nc);
    assert Numeros(1 + ns + nc, 1) == [1 + ns + nc];
    TodosNumerosPiece(CondicaoResponsavel(f), 1 + ns + nc, nr);
    assert Numeros(1 + ns + nc + nr, 1) == [1 + ns + nc + nr];
    TodosNumerosPiece(CondicaoAbertoPor(f), 1 + ns + nc + nr, na);
  }

  /** Three runs numbered one after the other number one run from 1. */
  lemma ThreeRuns(s: seq<Condicao>, c: seq<Condicao>, r: seq<Condicao>, ns: nat, nc: nat, nr: nat)
    requires TodosNumeros(s) == Numeros(1, ns)
    requires TodosNumeros(c) == Numeros(1 + ns, nc)
    requires TodosNumeros(r) == Numeros(1 + ns + nc, nr)
    ensures TodosNumeros(s + c + r) == Numeros(1, ns + nc + nr)
  {
    NumberedAppend(s, c, 1, ns, nc);
    NumberedAppend(s + c, r, 1, ns + nc, nr);
  }

  /** Four runs numbered one after the other number one run from 1. */
  lemma FourRuns(s: seq<Condicao>, c: seq<Condicao>, r: seq<Condicao>, a: seq<Condicao>, ns: nat, nc: nat, nr: nat, na: nat)
    requires TodosNumeros(s) == Numeros(1, ns)
    requires TodosNumeros(c) == Numeros(1 + ns, nc)
    requires TodosNumeros(r) == Numeros(1 + ns + nc, nr)
    requires TodosNumeros(a) == Numeros(1 + ns + nc + nr, na)
    ensures TodosNumeros(s + c + r + a) == Numeros(1, ns + nc + nr + na)
  {
    ThreeRuns(s, c, r, ns, nc, nr);
    NumberedAppend(s + c + r, a, 1, ns + nc + nr, na);
  }

  /**
   * The placeholders in the conditions are `$1`, `$2`, ... in order of
   * appearance, one per argument, so placeholder `$k` is bound to argument k.
   */
  lemma PlaceholdersConsecutive(f: TicketFiltros)
    ensures TodosNumeros(Condicoes(f)) == Numeros(1, |Argumentos(f)|)
  {
    PiecesNumbered(f);
    FourRuns(CondicaoStatus(f), CondicaoCategoria(f), CondicaoResponsavel(f), CondicaoAbertoPor(f),
      |f.status|, |f.categoria|, if f.responsavel != "" then 1 else 0, if f.abertoPor != "" then 1 else 0);
  }

  /** Every status and every category value has a placeholder of its own. */
  lemma OnePlaceholderPerValue(f: TicketFiltros)
    ensures |f.status| > 0 ==> Condicoes(f)[0] == StatusEm(Numeros(1, |f.status|))
    ensures |f.categoria| > 0 ==>
      var i := if |f.status| > 0 then 1 else 0;
      Condicoes(f)[i] == CategoriaComo(Numeros(1 + |f.status|, |f.categoria|))
  {
  }

  /** No WHERE is written exactly when no filter is set. */
  lemma NoFiltersNoWhere(f: TicketFiltros)
    ensures ClausulaWhere(Textos(Condicoes(f))) == "" <==>
      f.status == [] && f.categoria == [] && f.responsavel == "" && f.abertoPor == ""
  {
  }

  lemma TextosPiece(cs: seq<Condicao>)
    requires |cs| <= 1
    ensures Textos(cs) == if cs == [] then [] else [cs[0].Texto()]
  {
  }

  lemma TextosAppend(cs: seq<Condicao>, ds: seq<Condicao>)
    ensures Textos(cs + ds) == Textos(cs) + Textos(ds)
  {
  }

  // ---------------------------------------------------------------------------
  // The builder

  /** The WHERE texts of a filter, piece by piece: the status and category conditions, then the two single-value ones. */
  lemma WherePieces(f: TicketFiltros)
    ensures var ns, nc := |f.status|, |f.categoria|;
      var nr := if f.responsavel != "" then 1 else 0;
      Textos(Condicoes(f)) ==
        (if ns > 0 then [StatusEm(Numeros(1, ns)).Texto()] else []) +
        (if nc > 0 then [CategoriaComo(Numeros(1 + ns, nc)).Texto()] else []) +
        (if f.responsavel != "" then ["responsavel = " + Placeholder(1 + ns + nc)] else []) +
        (if f.abertoPor != "" then ["aberto_por = " + Placeholder(1 + ns + nc + nr)] else [])
  {
    var s, c, r, a := CondicaoStatus(f), CondicaoCategoria(f), CondicaoResponsavel(f), CondicaoAbertoPor(f);
    TextosAppend(s, c);
    TextosAppend(s + c, r);
    TextosAppend(s + c + r, a);
    TextosPiece(s);
    TextosPiece(c);
    TextosPiece(r);
    TextosPiece(a);
  }

  /** Placeholders numbered from `de`, joined by commas, are the text of the status condition. */
  lemma ArrayTexto(partes: seq<string>, de: int, n: nat)
    requires |partes| == n
    requires forall j :: 0 <= j < n ==> partes[j] == Placeholder(de + j)
    ensures "status = ANY(ARRAY[" + Join(partes, ",") + "])" == StatusEm(Numeros(de, n)).Texto()
  {
    assert partes == Placeholders(Numeros(de, n));
  }

  /** `categoria ILIKE` tests numbered from `de`, joined by `OR`, are the text of the category condition. */
  lemma IlikesTexto(partes: seq<string>, de: int, n: nat)
    requires |partes| == n
    requires forall j :: 0 <= j < n ==> partes[j] == "categoria ILIKE " + Placeholder(de + j)
    ensures "(" + Join(partes, " OR ") + ")" == CategoriaComo(Numeros(de, n)).Texto()
  {
    var numeros := Numeros(de, n);
    var esperado := CategoriaIlikes(numeros);
    forall j | 0 <= j < n
      ensures partes[j] == esperado[j]
    {
      assert numeros[j] == de + j;
    }
    assert partes == esperado;
  }

  /**
   * The status filter of List: when statuses are given, one placeholder per
   * status, numbered from `argCount`, in one `ANY(ARRAY[...])` condition, and
   * each status appended to the arguments.
   */
  method FiltroStatus(status: seq<string>, where: seq<string>, args: seq<string>, argCount: int)
    returns (novoWhere: seq<string>, novosArgs: seq<string>, proximo: int)
    ensures novoWhere == where + (if |status| > 0 then [StatusEm(Numeros(argCount, |status|)).Texto()] else [])
    ensures novosArgs == args + status
    ensures proximo == argCount + |status|
  {
    novoWhere, novosArgs, proximo := where, args, argCount;
    if |status| > 0 {
      var statusStrings := new string[|status|];
      var i := 0;
      while i < |status|
        invariant 0 <= i <= |status|
        invariant proximo == argCount + i
        invariant novosArgs == args + status[..i]
        invariant forall j :: 0 <= j < i ==> statusStrings[j] == Placeholder(argCount + j)
      {
        statusStrings[i] := Placeholder(proximo);
        novosArgs := novosArgs + [status[i]];
        proximo := proximo + 1;
        i := i + 1;
      }
      assert status[..i] == status;
      ArrayTexto(statusStrings[..], argCount, |status|);
      novoWhere := novoWhere + ["status = ANY(ARRAY[" + Join(statusStrings[..], ",") + "])"];
    } else {
      assert args + status == args;
    }
  }

  /**
   * The category filter of List: when categories are given, one
   * `categoria ILIKE` per category, numbered from `argCount`, joined by `OR`
   * in one condition, and each category appended to the arguments.
   */
  method FiltroCategoria(categorias: seq<Categoria>, where: seq<string>, args: seq<string>, argCount: int)
    returns (novoWhere: seq<string>, novosArgs: seq<string>, proximo: int)
    ensures novoWhere == where + (if |categorias| > 0 then [CategoriaComo(Numeros(argCount, |categorias|)).Texto()] else [])
    ensures novosArgs == args + categorias
    ensures proximo == argCount + |categorias|
  {
    novoWhere, novosArgs, proximo := where, args, argCount;
    if |categorias| > 0 {
      var categStrings := new string[|categorias|];
      var i := 0;
      while i < |categorias|
        invariant 0 <= i <= |categorias|
        invariant proximo == argCount + i
        invariant novosArgs == args + categorias[..i]
        invariant forall j :: 0 <= j < i ==> categStrings[j] == "categoria ILIKE " + Placeholder(argCount + j)
      {
        categStrings[i] := "categoria ILIKE " + Placeholder(proximo);
        novosArgs := novosArgs + [categorias[i]];
        proximo := proximo + 1;
        i := i + 1;
      }
      assert categorias[..i] == categorias;
      IlikesTexto(categStrings[..], argCount, |categorias|);
      novoWhere := novoWhere + ["(" + Join(categStrings[..], " OR ") + ")"];
    } else {
      assert args + categorias == args;
    }
  }

  /** One `column = $n` filter of List: nothing when the value is empty, else one condition and one argument more. */
  method FiltroIgual(coluna: string, valor: string, where: seq<string>, args: seq<string>, argCount: int)
    returns (novoWhere: seq<string>, novosArgs: seq<string>, proximo: int)
    ensures novoWhere == where + (if valor != "" then [coluna + Placeholder(argCount)] else [])
    ensures novosArgs == args + (if valor != "" then [valor] else [])
    ensures proximo == argCount + (if valor != "" then 1 else 0)
  {
    novoWhere, novosArgs, proximo := where, args, argCount;
    if valor != "" {
      novoWhere := novoWhere + [coluna + Placeholder(proximo)];
      novosArgs := novosArgs + [valor];
      proximo := proximo + 1;
    } else {
      assert where + [] == where && args + [] == args;
    }
  }

  /**
   * The builder of List: the four filters in order; `argCount` is the number
   * the next placeholder would take.
   */
  method MontarWhere(f: TicketFiltros) returns (where: seq<string>, args: seq<string>, argCount: int)
    ensures where == Textos(Condicoes(f))
    ensures args == Argumentos(f)
    ensures argCount == |args| + 1
  {
    where, args, argCount := FiltroStatus(f.status, [], [], 1);
    where, args, argCount := FiltroCategoria(f.categoria, where, args, argCount);
    where, args, argCount := FiltroIgual("responsavel = ", f.responsavel, where, args, argCount);
    where, args, argCount := FiltroIgual("aberto_por = ", f.abertoPor, where, args, argCount);
    WherePieces(f);
    assert [] + (if |f.status| > 0 then [StatusEm(Numeros(1, |f.status|)).Texto()] else []) ==
      (if |f.status| > 0 then [StatusEm(Numeros(1, |f.status|)).Texto()] else []);
    assert [] + f.status == f.status;
  }
}
