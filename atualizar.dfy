/**
 * The field-update use case of internal/application/usecases/ticket/atualizar.go:
 * load, refuse a closed ticket, run the setters for the fields given, merge
 * the optional data, then one Update.
 */
module AtualizarTicket {
  import opened Wrappers
  import opened TicketDomain
  import opened TicketLifecycle
  import opened TicketStore

  /** A field the caller leaves out is None (a nil pointer in the Go input). */
  datatype AtualizarTicketInput = AtualizarTicketInput(
    id: string,
    titulo: Option<string>,
    descricao: Option<string>,
    categoria: Option<Categoria>,
    urgencia: Option<int>,
    gravidade: Option<int>,
    merchant: Option<string>,
    noxID: Option<string>,
    cpf: Option<string>,
    plataforma: Option<string>,
    contato: Option<string>,
    usuarioID: string)

  /** The output; the opening date is the instant itself, its text rendering is not modelled. */
  datatype AtualizarTicketOutput = AtualizarTicketOutput(
    id: string,
    titulo: string,
    status: Status,
    categoria: Categoria,
    urgencia: int,
    gravidade: int,
    dataAbertura: int,
    abertoPor: string,
    responsavel: string)

  /** Whether SetTitulo, SetDescricao and SetCategoria accept their value; ticket.go does not define them. */
  datatype Vereditos = Vereditos(titulo: bool, descricao: bool, categoria: bool)

  /** A nil pointer dereferenced as the empty string. */
  function OuVazio(o: Option<string>): string {
    match o
    case None => ""
    case Some(s) => s
  }

  /** The given value, or the current one when the field is left out. */
  function OuAtual<T>(novo: Option<T>, atual: T): T {
    if novo.Some? then novo.value else atual
  }

  /** The three setters of atualizar.go that ticket.go does not define, each only when its field is given. */
  function ComTextos(t: TicketState, input: AtualizarTicketInput, v: Vereditos): Result<TicketState, Error> {
    if input.titulo.Some? && !v.titulo then Failure(ErrCampoRecusado("titulo"))
    else if input.descricao.Some? && !v.descricao then Failure(ErrCampoRecusado("descricao"))
    else if input.categoria.Some? && !v.categoria then Failure(ErrCampoRecusado("categoria"))
    else Success(t.(titulo := OuAtual(input.titulo, t.titulo),
                    descricao := OuAtual(input.descricao, t.descricao),
                    categoria := OuAtual(input.categoria, t.categoria)))
  }

  /** SetUrgencia then SetGravidade, each only when its value is given. */
  function ComNiveis(t: TicketState, input: AtualizarTicketInput, agora: int,
                     modUrgencia: string, modGravidade: string): Result<TicketState, Error>
  {
    var comUrgencia :-
      if input.urgencia.None? then Success(t)
      else if !InRange(input.urgencia.value) then Failure(ErrUrgenciaInvalida)
      else Success(ComUrgencia(t, input.urgencia.value, input.usuarioID, agora, modUrgencia));
    if input.gravidade.None? then Success(comUrgencia)
    else if !InRange(input.gravidade.value) then Failure(ErrGravidadeInvalida)
    else Success(ComGravidade(comUrgencia, input.gravidade.value, input.usuarioID, agora, modGravidade))
  }

  /**
   * What the use case does to the loaded ticket `t`, in the order of the Go
   * code, or the first error. `agora` is the clock reading; `modUrgencia` and
   * `modGravidade` are the ids of the two possible audit records.
   */
  function TicketAtualizado(t: TicketState, input: AtualizarTicketInput, v: Vereditos,
                            agora: int, modUrgencia: string, modGravidade: string): Result<TicketState, Error>
  {
    if t.status.IsTerminal() then Failure(ErrTicketEncerrado)
    else
      var textos :- ComTextos(t, input, v);
      var niveis :- ComNiveis(textos, input, agora, modUrgencia, modGravidade);
      Success(ComInformacaoAdicional(niveis, OuVazio(input.merchant), OuVazio(input.noxID),
                                     OuVazio(input.cpf), OuVazio(input.plataforma), OuVazio(input.contato)))
  }

  /** The output built from the stored ticket. */
  function Resumo(t: TicketState): AtualizarTicketOutput {
    AtualizarTicketOutput(t.id, t.titulo, t.status, t.categoria, t.urgencia, t.gravidade,
                          t.dataAbertura, t.abertoPor, t.responsavel)
  }

  // ---------------------------------------------------------------------------
  // What the update promises

  /** A `finalizado` or `cancelado` ticket is refused before any field changes. */
  lemma ClosedTicketRefused(t: TicketState, input: AtualizarTicketInput, v: Vereditos,
                            agora: int, modUrgencia: string, modGravidade: string)
    requires t.status.IsTerminal()
    ensures TicketAtualizado(t, input, v, agora, modUrgencia, modGravidade) == Failure(ErrTicketEncerrado)
  {
  }

  /** The use case fails exactly when the ticket is closed, a setter refuses, or an urgency or severity is out of range. */
  lemma UpdateFailsIff(t: TicketState, input: AtualizarTicketInput, v: Vereditos,
                       agora: int, modUrgencia: string, modGravidade: string)
    ensures TicketAtualizado(t, input, v, agora, modUrgencia, modGravidade).Failure? <==>
      t.status.IsTerminal() ||
      (input.titulo.Some? && !v.titulo) || (input.descricao.Some? && !v.descricao) ||
      (input.categoria.Some? && !v.categoria) ||
      (input.urgencia.Some? && !InRange(input.urgencia.value)) ||
      (input.gravidade.Some? && !InRange(input.gravidade.value))
  {
  }

  /** SetUrgencia and SetGravidade change those two values and append one record each, nothing else. */
  lemma NiveisEffect(t: TicketState, input: AtualizarTicketInput, agora: int,
                     modUrgencia: string, modGravidade: string)
    requires ComNiveis(t, input, agora, modUrgencia, modGravidade).Success?
    ensures var r := ComNiveis(t, input, agora, modUrgencia, modGravidade).value;
      r.(urgencia := t.urgencia, gravidade := t.gravidade, modificacoes := t.modificacoes) == t &&
      r.urgencia == OuAtual(input.urgencia, t.urgencia) &&
      r.gravidade == OuAtual(input.gravidade, t.gravidade) &&
      |r.modificacoes| == |t.modificacoes| + (if input.urgencia.Some? then 1 else 0) + (if input.gravidade.Some? then 1 else 0) &&
      r.modificacoes[..|t.modificacoes|] == t.modificacoes
  {
    var r := ComNiveis(t, input, agora, modUrgencia, modGravidade).value;
    assert r.modificacoes[..|t.modificacoes|] == t.modificacoes;
  }

  /**
   * On success: the given fields take the given values and the others keep
   * theirs; an optional datum given non-empty is stored, an absent or empty
   * one leaves its field alone; status, opener,
   * opening date, assignee, dates, durations and observations never change;
   * the audit history grows by one record per urgency or severity given.
   */
  lemma UpdateEffect(t: TicketState, input: AtualizarTicketInput, v: Vereditos,
                     agora: int, modUrgencia: string, modGravidade: string)
    requires TicketAtualizado(t, input, v, agora, modUrgencia, modGravidade).Success?
    ensures var r := TicketAtualizado(t, input, v, agora, modUrgencia, modGravidade).value;
      r.id == t.id && r.subcategoria == t.subcategoria &&
      r.abertoPor == t.abertoPor && r.dataAbertura == t.dataAbertura &&
      r.titulo == OuAtual(input.titulo, t.titulo) &&
      r.descricao == OuAtual(input.descricao, t.descricao) &&
      r.categoria == OuAtual(input.categoria, t.categoria) &&
      r.urgencia == OuAtual(input.urgencia, t.urgencia) &&
      r.gravidade == OuAtual(input.gravidade, t.gravidade) &&
      r.merchant == (if input.merchant.Some? && input.merchant.value != "" then input.merchant else t.merchant) &&
      r.noxID == (if input.noxID.Some? && input.noxID.value != "" then input.noxID else t.noxID) &&
      r.cpf == (if input.cpf.Some? && input.cpf.value != "" then input.cpf else t.cpf) &&
      r.plataforma == (if input.plataforma.Some? && input.plataforma.value != "" then input.plataforma else t.plataforma) &&
      r.contato == (if input.contato.Some? && input.contato.value != "" then input.contato.value else t.contato) &&
      r.status == t.status && r.responsavel == t.responsavel &&
      r.dataInicio == t.dataInicio && r.dataConclusao == t.dataConclusao &&
      r.duracaoTotal == t.duracaoTotal && r.duracaoExecucao == t.duracaoExecucao &&
      r.observacoes == t.observacoes &&
      |r.modificacoes| == |t.modificacoes| + (if input.urgencia.Some? then 1 else 0) + (if input.gravidade.Some? then 1 else 0) &&
      r.modificacoes[..|t.modificacoes|] == t.modificacoes
  {
    var textos := ComTextos(t, input, v).value;
    NiveisEffect(textos, input, agora, modUrgencia, modGravidade);
    var niveis := ComNiveis(textos, input, agora, modUrgencia, modGravidade).value;
    var novo := ComInformacaoAdicional(niveis, OuVazio(input.merchant), OuVazio(input.noxID),
                                       OuVazio(input.cpf), OuVazio(input.plataforma), OuVazio(input.contato));
    assert TicketAtualizado(t, input, v, agora, modUrgencia, modGravidade) == Success(novo);
  }

  /** SetUrgencia and SetGravidade keep the aggregate's invariant. */
  lemma NiveisKeepWellformed(t: TicketState, input: AtualizarTicketInput, agora: int,
                             modUrgencia: string, modGravidade: string)
    requires Wellformed(t)
    requires ComNiveis(t, input, agora, modUrgencia, modGravidade).Success?
    ensures Wellformed(ComNiveis(t, input, agora, modUrgencia, modGravidade).value)
  {
    var comUrgencia := t;
    if input.urgencia.Some? {
      UrgenciaKeepsWellformed(t, input.urgencia.value, input.usuarioID, agora, modUrgencia);
      comUrgencia := Step(t, NovaUrgencia(input.urgencia.value, input.usuarioID, agora, modUrgencia)).value;
    }
    if input.gravidade.Some? {
      GravidadeKeepsWellformed(comUrgencia, input.gravidade.value, input.usuarioID, agora, modGravidade);
      assert ComNiveis(t, input, agora, modUrgencia, modGravidade).value ==
        Step(comUrgencia, NovaGravidade(input.gravidade.value, input.usuarioID, agora, modGravidade)).value;
    } else {
      assert ComNiveis(t, input, agora, modUrgencia, modGravidade).value == comUrgencia;
    }
  }

  /** The updated ticket still satisfies the aggregate's invariant. */
  lemma UpdateKeepsWellformed(t: TicketState, input: AtualizarTicketInput, v: Vereditos,
                              agora: int, modUrgencia: string, modGravidade: string)
    requires Wellformed(t)
    requires TicketAtualizado(t, input, v, agora, modUrgencia, modGravidade).Success?
    ensures Wellformed(TicketAtualizado(t, input, v, agora, modUrgencia, modGravidade).value)
  {
    var textos := ComTextos(t, input, v).value;
    WellformedIgnoresTexts(t, textos);
    NiveisKeepWellformed(textos, input, agora, modUrgencia, modGravidade);
    var niveis := ComNiveis(textos, input, agora, modUrgencia, modGravidade).value;
    var novo := ComInformacaoAdicional(niveis, OuVazio(input.merchant), OuVazio(input.noxID),
                                       OuVazio(input.cpf), OuVazio(input.plataforma), OuVazio(input.contato));
    assert TicketAtualizado(t, input, v, agora, modUrgencia, modGravidade) == Success(novo);
    WellformedIgnoresTexts(niveis, novo);
  }

  // ---------------------------------------------------------------------------
  // The use case

  /** The three text setters on the loaded ticket. */
  method AplicarTextos(t: Ticket, input: AtualizarTicketInput, v: Vereditos) returns (err: Option<Error>)
    modifies t
    ensures match ComTextos(old(t.State()), input, v)
      case Failure(e) => err == Some(e)
      case Success(novo) => err == None && t.State() == novo
  {
    err := None;
    ghost var inicial := t.State();
    if input.titulo.Some? {
      err := t.SetTitulo(input.titulo.value, input.usuarioID, v.titulo);
      if err.Some? {
        return;
      }
    }
    if input.descricao.Some? {
      err := t.SetDescricao(input.descricao.value, input.usuarioID, v.descricao);
      if err.Some? {
        return;
      }
    }
    assert t.State() == inicial.(titulo := OuAtual(input.titulo, inicial.titulo),
                                 descricao := OuAtual(input.descricao, inicial.descricao));
    if input.categoria.Some? {
      err := t.SetCategoria(input.categoria.value, input.usuarioID, v.categoria);
    }
  }

  /** SetUrgencia and SetGravidade on the loaded ticket. */
  method AplicarNiveis(t: Ticket, input: AtualizarTicketInput, agora: int, modUrgencia: string, modGravidade: string)
    returns (err: Option<Error>)
    modifies t
    ensures match ComNiveis(old(t.State()), input, agora, modUrgencia, modGravidade)
      case Failure(e) => err == Some(e)
      case Success(novo) => err == None && t.State() == novo
  {
    err := None;
    if input.urgencia.Some? {
      err := t.SetUrgencia(input.urgencia.value, input.usuarioID, agora, modUrgencia);
      if err.Some? {
        return;
      }
    }
    if input.gravidade.Some? {
      err := t.SetGravidade(input.gravidade.value, input.usuarioID, agora, modGravidade);
    }
  }

  /** The object steps of Execute on the loaded ticket, from the closed-ticket guard to SetInformacaoAdicional. */
  method Aplicar(t: Ticket, input: AtualizarTicketInput, v: Vereditos,
                 agora: int, modUrgencia: string, modGravidade: string) returns (err: Option<Error>)
    modifies t
    ensures match TicketAtualizado(old(t.State()), input, v, agora, modUrgencia, modGravidade)
      case Failure(e) => err == Some(e)
      case Success(novo) => err == None && t.State() == novo
  {
    if t.status == Finalizado || t.status == Cancelado {
      return Some(ErrTicketEncerrado);
    }
    err := AplicarTextos(t, input, v);
    if err.Some? {
      return;
    }
    err := AplicarNiveis(t, input, agora, modUrgencia, modGravidade);
    if err.Some? {
      return;
    }
    t.SetInformacaoAdicional(OuVazio(input.merchant), OuVazio(input.noxID), OuVazio(input.cpf),
                             OuVazio(input.plataforma), OuVazio(input.contato));
  }

  /**
   * Execute: a missing ticket or any refusal leaves the store untouched;
   * otherwise exactly one Update, of the ticket `TicketAtualizado` gives, and
   * the output describes it.
   */
  method Execute(repo: Repository, input: AtualizarTicketInput, v: Vereditos,
                 agora: int, modUrgencia: string, modGravidade: string)
    returns (r: Result<AtualizarTicketOutput, Error>)
    requires repo.Valid()
    modifies repo
    ensures repo.Valid()
    ensures input.id !in old(repo.tickets) ==>
      r == Failure(ErrNaoEncontrado) && repo.tickets == old(repo.tickets) && repo.escritas == old(repo.escritas)
    ensures input.id in old(repo.tickets) ==>
      match TicketAtualizado(old(repo.tickets)[input.id], input, v, agora, modUrgencia, modGravidade)
      case Failure(e) =>
        r == Failure(e) && repo.tickets == old(repo.tickets) && repo.escritas == old(repo.escritas)
      case Success(novo) =>
        repo.tickets == old(repo.tickets)[input.id := novo] &&
        repo.escritas == old(repo.escritas) + [Atualizado(input.id)] &&
        r == Success(Resumo(novo))
  {
    var carregado := repo.GetByID(input.id);
    if carregado.Failure? {
      return Failure(carregado.error);
    }
    var t := carregado.value;
    var err := Aplicar(t, input, v, agora, modUrgencia, modGravidade);
    if err.Some? {
      return Failure(err.value);
    }
    UpdateKeepsWellformed(repo.tickets[input.id], input, v, agora, modUrgencia, modGravidade);
    repo.Update(t);
    r := Success(Resumo(t.State()));
  }
}
