/**
 * The listing use case of internal/application/usecases/ticket/listar.go:
 * normalise the page request, build the filters, call List once, cut the
 * requested page out of the result and summarise each ticket on it.
 */
module Listar {
  import opened Wrappers
  import opened TicketDomain
  import opened TicketStore
  import opened GoInt

  /** Optional filters are None when the Go pointer is nil; the page numbers are Go ints, so any value may arrive. */
  datatype ListarTicketsInput = ListarTicketsInput(
    status: Option<string>,
    categoria: Option<Categoria>,
    responsavel: Option<string>,
    pagina: int,
    itensPorPagina: int)

  /** One line of the listing; the opening date is the instant itself, its text rendering is not modelled. */
  datatype TicketResumoOutput = TicketResumoOutput(
    id: string,
    titulo: string,
    status: Status,
    categoria: Categoria,
    urgencia: int,
    gravidade: int,
    abertoPor: string,
    responsavel: string,
    dataAbertura: int)

  datatype ListarTicketsOutput = ListarTicketsOutput(
    tickets: seq<TicketResumoOutput>,
    total: int,
    totalPaginas: int,
    paginaAtual: int)

  /** The page size used when the caller asks for fewer than one item per page. */
  const ItensPorPaginaPadrao: nat := 10

  /** A page number below 1 becomes 1. */
  function PaginaNormalizada(pagina: int): (r: int)
    ensures r >= 1
    ensures pagina >= 1 ==> r == pagina
    ensures pagina < 1 ==> r == 1
  {
    if pagina < 1 then 1 else pagina
  }

  /** A page size below 1 becomes the default of 10. */
  function ItensNormalizados(itens: int): (r: int)
    ensures r >= 1
    ensures itens >= 1 ==> r == itens
    ensures itens < 1 ==> r == ItensPorPaginaPadrao
  {
    if itens < 1 then ItensPorPaginaPadrao else itens
  }

  /** The filters handed to List: each given filter once, the others empty. */
  function Filtros(input: ListarTicketsInput): TicketFiltros {
    TicketFiltros(
      if input.status.Some? then [input.status.value] else [],
      if input.categoria.Some? then [input.categoria.value] else [],
      if input.responsavel.Some? then input.responsavel.value else "",
      "")
  }

  /** The first index of page `pagina` (1-based) of size `itens`. */
  function Inicio(pagina: int, itens: int): int {
    (pagina - 1) * itens
  }

  /** The page cut out of the listed tickets, empty past the end. */
  function Pagina<T>(tickets: seq<T>, pagina: int, itens: int): seq<T>
    requires pagina >= 1 && itens >= 1
  {
    var inicio := Inicio(pagina, itens);
    var fim := if inicio + itens > |tickets| then |tickets| else inicio + itens;
    if inicio < |tickets| then tickets[inicio..fim] else []
  }

  /** The number of pages, as the Go integer division computes it. */
  function TotalPaginas(total: int, itens: int): int
    requires itens >= 1
  {
    (total + itens - 1) / itens
  }

  /** The summary of one ticket. */
  function Resumo(t: TicketState): TicketResumoOutput {
    TicketResumoOutput(t.id, t.titulo, t.status, t.categoria, t.urgencia, t.gravidade,
                       t.abertoPor, t.responsavel, t.dataAbertura)
  }

  /** The summaries of a page, in its order. */
  function Resumos(tickets: seq<TicketState>): (r: seq<TicketResumoOutput>)
    ensures |r| == |tickets|
    ensures forall i :: 0 <= i < |r| ==> r[i] == Resumo(tickets[i])
  {
    seq(|tickets|, i requires 0 <= i < |tickets| => Resumo(tickets[i]))
  }

  /** The output the use case builds from what List returned. */
  function Listagem(input: ListarTicketsInput, listado: Result<seq<TicketState>, Error>): Result<ListarTicketsOutput, Error> {
    var tickets :- listado;
    var pagina := PaginaNormalizada(input.pagina);
    var itens := ItensNormalizados(input.itensPorPagina);
    var naPagina := Pagina(tickets, pagina, itens);
    Success(ListarTicketsOutput(Resumos(naPagina), |tickets|, TotalPaginas(|tickets|, itens), pagina))
  }

  // ---------------------------------------------------------------------------
  // What the listing promises

  /** The filters carry exactly the filters given, each at most once. */
  lemma FiltrosExact(input: ListarTicketsInput)
    ensures var f := Filtros(input);
      |f.status| <= 1 && |f.categoria| <= 1 &&
      (f.status == [] <==> input.status.None?) &&
      (input.status.Some? ==> f.status == [input.status.value]) &&
      (f.categoria == [] <==> input.categoria.None?) &&
      (input.categoria.Some? ==> f.categoria == [input.categoria.value]) &&
      (input.responsavel.None? ==> f.responsavel == "") &&
      (input.responsavel.Some? ==> f.responsavel == input.responsavel.value) &&
      f.abertoPor == ""
  {
  }

  /** The page count is the ceiling of total / size: every ticket is on a page and no page is empty. */
  lemma TotalPaginasIsCeiling(total: nat, itens: int)
    requires itens >= 1
    ensures TotalPaginas(total, itens) >= 0
    ensures var n := TotalPaginas(total, itens); (n - 1) * itens < total <= n * itens || total == 0 == n
    ensures TotalPaginas(total, itens) == 0 <==> total == 0
    ensures TotalPaginas(total, itens) <= total
  {
    var n := TotalPaginas(total, itens);
    assert (total + itens - 1) == n * itens + (total + itens - 1) % itens;
    if n >= 1 {
      MulMonotone(1, itens, n - 1);
    }
  }

  /** A page holds the tickets from its first index on, at most `itens` of them, in the listed order. */
  lemma PaginaContents<T>(tickets: seq<T>, pagina: int, itens: int)
    requires pagina >= 1 && itens >= 1
    ensures var p := Pagina(tickets, pagina, itens);
      var inicio := Inicio(pagina, itens);
      |p| <= itens &&
      (inicio < |tickets| ==> |p| == (if inicio + itens <= |tickets| then itens else |tickets| - inicio)) &&
      forall j :: 0 <= j < |p| ==> 0 <= inicio + j < |tickets| && p[j] == tickets[inicio + j]
  {
  }

  /** A requested page is non-empty exactly when its number is at most the page count. */
  lemma PaginaNonEmptyIff<T>(tickets: seq<T>, pagina: int, itens: int)
    requires pagina >= 1 && itens >= 1
    ensures Pagina(tickets, pagina, itens) != [] <==> pagina <= TotalPaginas(|tickets|, itens)
  {
    var n := TotalPaginas(|tickets|, itens);
    var inicio := Inicio(pagina, itens);
    assert inicio < |tickets| <==> pagina <= n by {
      InicioBelowTotalIff(|tickets|, pagina, itens);
    }
    PaginaContents(tickets, pagina, itens);
  }

  /** A page starts inside the listing exactly when its number is at most the page count. */
  lemma InicioBelowTotalIff(total: nat, pagina: int, itens: int)
    requires pagina >= 1 && itens >= 1
    ensures Inicio(pagina, itens) < total <==> pagina <= TotalPaginas(total, itens)
  {
    TotalPaginasIsCeiling(total, itens);
    var n := TotalPaginas(total, itens);
    if pagina <= n {
      assert (pagina - 1) * itens <= (n - 1) * itens by {
        MulMonotone(pagina - 1, n - 1, itens);
      }
    } else {
      assert n * itens <= (pagina - 1) * itens by {
        MulMonotone(n, pagina - 1, itens);
      }
    }
  }

  lemma MulMonotone(a: int, b: int, c: int)
    requires a <= b && c >= 0
    ensures a * c <= b * c
  {
  }

  /** Pages 1 to `k` put end to end. */
  function Paginas<T>(tickets: seq<T>, itens: int, k: nat): seq<T>
    requires itens >= 1
  {
    if k == 0 then [] else Paginas(tickets, itens, k - 1) + Pagina(tickets, k, itens)
  }

  /** Pages 1 to `k` are the first `k * itens` tickets (or all of them). */
  lemma {:induction false} PaginasPrefix<T>(tickets: seq<T>, itens: int, k: nat)
    requires itens >= 1
    ensures Paginas(tickets, itens, k) == tickets[..if k * itens <= |tickets| then k * itens else |tickets|]
  {
    if k > 0 {
      PaginasPrefix(tickets, itens, k - 1);
      var antes := if (k - 1) * itens <= |tickets| then (k - 1) * itens else |tickets|;
      var depois := if k * itens <= |tickets| then k * itens else |tickets|;
      assert Inicio(k, itens) == (k - 1) * itens;
      assert k * itens == (k - 1) * itens + itens;
      if (k - 1) * itens < |tickets| {
        assert Pagina(tickets, k, itens) == tickets[antes..depois];
        assert tickets[..antes] + tickets[antes..depois] == tickets[..depois];
      } else {
        assert Pagina(tickets, k, itens) == [];
        assert antes == depois;
      }
    }
  }

  /** Reading every page in order gives back the whole listing, each ticket once. */
  lemma PagesCoverListing<T>(tickets: seq<T>, itens: int)
    requires itens >= 1
    ensures Paginas(tickets, itens, TotalPaginas(|tickets|, itens)) == tickets
  {
    TotalPaginasIsCeiling(|tickets|, itens);
    PaginasPrefix(tickets, itens, TotalPaginas(|tickets|, itens));
  }

  /** The summaries of one page: at most a page's worth, some exactly when the page exists, each of the ticket at its place. */
  lemma ResumosDaPagina(tickets: seq<TicketState>, pagina: int, itens: int)
    requires pagina >= 1 && itens >= 1
    ensures var linhas := Resumos(Pagina(tickets, pagina, itens));
      |linhas| <= itens &&
      (linhas != [] <==> pagina <= TotalPaginas(|tickets|, itens)) &&
      forall j :: 0 <= j < |linhas| ==>
        0 <= Inicio(pagina, itens) + j < |tickets| && linhas[j] == Resumo(tickets[Inicio(pagina, itens) + j])
  {
    var p := Pagina(tickets, pagina, itens);
    var inicio := Inicio(pagina, itens);
    PaginaContents(tickets, pagina, itens);
    PaginaNonEmptyIff(tickets, pagina, itens);
    var linhas := Resumos(p);
    forall j | 0 <= j < |linhas|
      ensures 0 <= inicio + j < |tickets| && linhas[j] == Resumo(tickets[inicio + j])
    {
      assert linhas[j] == Resumo(p[j]);
      assert p[j] == tickets[inicio + j];
    }
  }

  /**
   * The output on a successful List: the counts describe the whole result, the
   * current page is the normalised request and each line summarises the
   * ticket at its place in the result.
   */
  lemma ListagemOutput(input: ListarTicketsInput, tickets: seq<TicketState>)
    ensures var r := Listagem(input, Success(tickets));
      var pagina := PaginaNormalizada(input.pagina);
      var itens := ItensNormalizados(input.itensPorPagina);
      r.Success? && r.value.total == |tickets| && r.value.paginaAtual == pagina &&
      r.value.totalPaginas == TotalPaginas(|tickets|, itens) &&
      |r.value.tickets| <= itens &&
      (r.value.tickets != [] <==> pagina <= r.value.totalPaginas) &&
      forall j :: 0 <= j < |r.value.tickets| ==>
        0 <= Inicio(pagina, itens) + j < |tickets| && r.value.tickets[j] == Resumo(tickets[Inicio(pagina, itens) + j])
  {
    var pagina := PaginaNormalizada(input.pagina);
    var itens := ItensNormalizados(input.itensPorPagina);
    var p := Pagina(tickets, pagina, itens);
    assert Listagem(input, Success(tickets)) ==
      Success(ListarTicketsOutput(Resumos(p), |tickets|, TotalPaginas(|tickets|, itens), pagina));
    ResumosDaPagina(tickets, pagina, itens);
  }

  // ---------------------------------------------------------------------------
  // The paging as written, in 64-bit arithmetic

  /**
   * Execute's paging exactly as written, with Go's wrapping `int`: `inicio` is
   * `(pagina - 1) * itens` and `fim` is `inicio + itens` clamped to the total.
   * None is the panic of slicing from a negative start.
   */
  function PaginaComoEscrita<T>(tickets: seq<T>, pagina: int, itens: int): Option<seq<T>>
    requires 1 <= pagina <= MaxInt64 && 1 <= itens <= MaxInt64 && |tickets| <= MaxInt64
  {
    var total := |tickets|;
    var inicio := Wrap64(Wrap64(pagina - 1) * itens);
    var fimBruto := Wrap64(inicio + itens);
    var fim := if fimBruto > total then total else fimBruto;
    if inicio < total then
      if 0 <= inicio <= fim then Some(tickets[inicio..fim]) else None
    else Some([])
  }

  /** The page count exactly as written: `(total + itens - 1) / itens` on Go ints. */
  function TotalPaginasComoEscrito(total: int, itens: int): int
    requires 1 <= itens
  {
    TruncDiv(Wrap64(Wrap64(total + itens) - 1), itens)
  }

  /** While `pagina * itens` fits in an int, the written paging cuts the intended page. */
  lemma PaginaComoEscritaSemEstouro<T>(tickets: seq<T>, pagina: int, itens: int)
    requires 1 <= pagina <= MaxInt64 && 1 <= itens <= MaxInt64 && |tickets| <= MaxInt64
    requires pagina * itens <= MaxInt64
    ensures PaginaComoEscrita(tickets, pagina, itens) == Some(Pagina(tickets, pagina, itens))
  {
    assert (pagina - 1) * itens + itens == pagina * itens;
    assert 0 <= (pagina - 1) * itens;
  }

  /** While `total + itens - 1` fits in an int, the written page count is the intended one. */
  lemma TotalPaginasComoEscritoSemEstouro(total: nat, itens: int)
    requires 1 <= itens && total + itens - 1 <= MaxInt64
    ensures TotalPaginasComoEscrito(total, itens) == TotalPaginas(total, itens)
  {
  }

  /** Page 2^62 + 1 of size 2 starts at (2^62) * 2 = 2^63, which wraps to -2^63: slicing there panics. */
  lemma PaginaEnormeEntraEmPanico<T>(t: T)
    ensures PaginaComoEscrita([t], 0x4000_0000_0000_0001, 2) == None
    ensures Pagina([t], 0x4000_0000_0000_0001, 2) == []
  {
    assert Wrap64(0x4000_0000_0000_0000 * 2) == MinInt64;
  }

  /**
   * Page 2^62 + 1 of size 4 starts at (2^62) * 4 = 2^64, which wraps to 0: of
   * three tickets, a page past the single page returns all three.
   */
  lemma PaginaEnormeVoltaAoInicio<T>(a: T, b: T, c: T)
    ensures TotalPaginas(3, 4) == 1
    ensures PaginaComoEscrita([a, b, c], 0x4000_0000_0000_0001, 4) == Some([a, b, c])
    ensures Pagina([a, b, c], 0x4000_0000_0000_0001, 4) == []
  {
    assert Wrap64(0x4000_0000_0000_0000 * 4) == 0;
    assert Wrap64(0 + 4) == 4;
    assert [a, b, c][0..3] == [a, b, c];
  }

  /** Two tickets, pages of MaxInt64: `total + itens - 1` wraps to MinInt64 and the page count comes out -1. */
  lemma TotalPaginasNegativo()
    ensures TotalPaginasComoEscrito(2, MaxInt64) == -1
    ensures TotalPaginas(2, MaxInt64) == 1
  {
    assert Wrap64(2 + MaxInt64) == MinInt64 + 1;
  }

  /**
   * The corrected page count, in operations that never leave an int64:
   * `total / itens`, plus one when a remainder is left.
   */
  lemma TotalPaginasCorrigidoExato(total: nat, itens: int)
    requires itens >= 1
    ensures TruncDiv(total, itens) + (if TruncMod(total, itens) == 0 then 0 else 1) == TotalPaginas(total, itens)
  {
    var q := total / itens;
    var m := total % itens;
    assert total == q * itens + m;
    if m == 0 {
      DivUnique(total + itens - 1, itens, q, itens - 1);
    } else {
      assert total + itens - 1 == (q + 1) * itens + (m - 1);
      DivUnique(total + itens - 1, itens, q + 1, m - 1);
    }
  }

  lemma DivUnique(x: int, d: int, q: int, m: int)
    requires d >= 1 && x == q * d + m && 0 <= m < d
    ensures x / d == q
  {
    var q2 := x / d;
    var m2 := x % d;
    assert (q - q2) * d == m2 - m;
    if q > q2 {
      MulMonotone(1, q - q2, d);
    } else if q < q2 {
      MulMonotone(1, q2 - q, d);
    }
  }

  // ---------------------------------------------------------------------------
  // The use case

  /**
   * The manual paging of Execute and its page count, corrected so that no
   * intermediate leaves an int64: the page count is computed first and a page
   * past it is empty without computing its start. Every arithmetic step wraps
   * as Go's does, and none of them wraps.
   */
  method Paginar(tickets: seq<TicketState>, pagina: int, itens: int) returns (paginados: seq<TicketState>, totalPaginas: int)
    requires 1 <= pagina <= MaxInt64 && 1 <= itens <= MaxInt64 && |tickets| <= MaxInt64
    ensures paginados == Pagina(tickets, pagina, itens)
    ensures totalPaginas == TotalPaginas(|tickets|, itens)
  {
    var total := |tickets|;
    TotalPaginasCorrigidoExato(total, itens);
    TotalPaginasIsCeiling(total, itens);
    totalPaginas := TruncDiv(total, itens);
    if TruncMod(total, itens) != 0 {
      totalPaginas := Wrap64(totalPaginas + 1);
    }
    if pagina > totalPaginas {
      InicioBelowTotalIff(total, pagina, itens);
      paginados := [];
    } else {
      InicioSemEstouro(total, pagina, itens);
      var inicio := Wrap64(Wrap64(pagina - 1) * itens);
      var fim := total;
      if itens < Wrap64(total - inicio) {
        fim := Wrap64(inicio + itens);
      }
      paginados := tickets[inicio..fim];
    }
  }

  /** A page within the page count starts inside the listing, and computing its start does not wrap. */
  lemma InicioSemEstouro(total: nat, pagina: int, itens: int)
    requires 1 <= pagina <= MaxInt64 && 1 <= itens && total <= MaxInt64
    requires pagina <= TotalPaginas(total, itens)
    ensures 0 <= Inicio(pagina, itens) < total
    ensures Wrap64(Wrap64(pagina - 1) * itens) == Inicio(pagina, itens)
  {
    InicioBelowTotalIff(total, pagina, itens);
    assert 0 <= (pagina - 1) * itens;
  }

  /** The conversion loop of Execute: one summary per ticket of the page, in order. */
  method Resumir(paginados: seq<TicketState>) returns (linhas: seq<TicketResumoOutput>)
    ensures linhas == Resumos(paginados)
  {
    linhas := [];
    var i := 0;
    while i < |paginados|
      invariant 0 <= i <= |paginados|
      invariant |linhas| == i
      invariant forall j :: 0 <= j < i ==> linhas[j] == Resumo(paginados[j])
    {
      linhas := linhas + [Resumo(paginados[i])];
      i := i + 1;
    }
  }

  /**
   * Execute: one call of `list` with the filters the input gives; its error is
   * passed on, otherwise the output is `Listagem` of its result. The page
   * numbers are Go ints and a listing is a Go slice, so all of them fit in an
   * int64.
   */
  method Execute(list: TicketFiltros -> Result<seq<TicketState>, Error>, input: ListarTicketsInput)
    returns (r: Result<ListarTicketsOutput, Error>)
    requires InInt64(input.pagina) && InInt64(input.itensPorPagina)
    requires forall f :: list(f).Success? ==> |list(f).value| <= MaxInt64
    ensures r == Listagem(input, list(Filtros(input)))
  {
    var pagina := input.pagina;
    var itens := input.itensPorPagina;
    if pagina < 1 {
      pagina := 1;
    }
    if itens < 1 {
      itens := 10;
    }
    var status: seq<string> := [];
    var categoria: seq<Categoria> := [];
    var responsavel := "";
    if input.status.Some? {
      status := status + [input.status.value];
    }
    if input.categoria.Some? {
      categoria := categoria + [input.categoria.value];
    }
    if input.responsavel.Some? {
      responsavel := input.responsavel.value;
    }
    assert TicketFiltros(status, categoria, responsavel, "") == Filtros(input);
    var listado := list(TicketFiltros(status, categoria, responsavel, ""));
    if listado.Failure? {
      return Failure(listado.error);
    }
    var tickets := listado.value;
    var paginados, totalPaginas := Paginar(tickets, pagina, itens);
    var linhas := Resumir(paginados);
    r := Success(ListarTicketsOutput(linhas, |tickets|, totalPaginas, pagina));
  }
}
