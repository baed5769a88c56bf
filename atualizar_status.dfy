/**
 * The status-change use case of
 * internal/application/usecases/ticket/atualizar_status.go: load, dispatch
 * on the requested status to IniciarAtendimento, Concluir or Cancelar, then
 * one Update.
 */
module AtualizarStatus {
  import opened Wrappers
  import opened TicketDomain
  import opened TicketLifecycle
  import opened TicketStore

  /** The requested status is the Go string type `ticket.Status`, so any text may arrive. */
  datatype AtualizarStatusTicketInput = AtualizarStatusTicketInput(
    id: string,
    status: string,
    usuarioID: string,
    responsavel: Option<string>)

  /** The output; a date the ticket does not have is None (the empty string in Go), its text rendering is not modelled. */
  datatype AtualizarStatusTicketOutput = AtualizarStatusTicketOutput(
    id: string,
    status: string,
    responsavel: string,
    dataInicio: Option<int>,
    dataConclusao: Option<int>)

  /** The mutator the requested status selects, or the error the dispatch stops with. */
  function OperacaoPedida(input: AtualizarStatusTicketInput, agora: int, modID: string): Result<Operacao, Error> {
    if input.status == EmCurso.Text() then
      if input.responsavel.None? then Failure(ErrResponsavelObrigatorio)
      else Success(Inicio(input.responsavel.value, agora, modID))
    else if input.status == Finalizado.Text() then Success(Conclusao(input.usuarioID, agora, modID))
    else if input.status == Cancelado.Text() then Success(Cancelamento(input.usuarioID, agora, modID))
    else Failure(ErrStatusInvalido)
  }

  /** What the use case does to the loaded ticket `t`, or the error it stops with. */
  function StatusAtualizado(t: TicketState, input: AtualizarStatusTicketInput, agora: int, modID: string): Result<TicketState, Error> {
    var op :- OperacaoPedida(input, agora, modID);
    Step(t, op)
  }

  /** The output built from the input and the stored ticket. */
  function Resumo(input: AtualizarStatusTicketInput, t: TicketState): AtualizarStatusTicketOutput {
    AtualizarStatusTicketOutput(input.id, input.status, t.responsavel, t.dataInicio, t.dataConclusao)
  }

  // ---------------------------------------------------------------------------
  // What the status change promises

  /**
   * The change succeeds exactly when the requested text names one of the three
   * reachable statuses, an assignee comes with `em_curso`, and the status
   * machine has that edge; the ticket then holds the requested status.
   */
  lemma StatusChangeIff(t: TicketState, input: AtualizarStatusTicketInput, agora: int, modID: string)
    ensures var r := StatusAtualizado(t, input, agora, modID);
      r.Success? <==>
        StatusFromText(input.status).Some? && StatusFromText(input.status).value != Aberto &&
        (input.status == EmCurso.Text() ==> input.responsavel.Some?) &&
        Transicao(t.status, StatusFromText(input.status).value)
    ensures var r := StatusAtualizado(t, input, agora, modID);
      r.Success? ==> r.value.status.Text() == input.status && MesmaIdentidade(t, r.value)
  {
  }

  /** Which error a refused change reports. */
  lemma StatusChangeErrors(t: TicketState, input: AtualizarStatusTicketInput, agora: int, modID: string)
    ensures StatusFromText(input.status).None? || input.status == Aberto.Text() ==>
      StatusAtualizado(t, input, agora, modID) == Failure(ErrStatusInvalido)
    ensures input.status == EmCurso.Text() && input.responsavel.None? ==>
      StatusAtualizado(t, input, agora, modID) == Failure(ErrResponsavelObrigatorio)
    ensures input.status == EmCurso.Text() && input.responsavel.Some? && t.status != Aberto ==>
      StatusAtualizado(t, input, agora, modID) == Failure(ErrNaoAberto)
    ensures input.status == Finalizado.Text() && t.status != EmCurso ==>
      StatusAtualizado(t, input, agora, modID) == Failure(ErrNaoEmAtendimento)
    ensures input.status == Cancelado.Text() && t.status.IsTerminal() ==>
      StatusAtualizado(t, input, agora, modID) == Failure(ErrJaEncerrado)
  {
  }

  /**
   * The dates the output reports on a well-formed ticket: a start carries the
   * start date and no closing date; a conclusion carries both; a cancellation
   * carries no closing date.
   */
  lemma StatusChangeDates(t: TicketState, input: AtualizarStatusTicketInput, agora: int, modID: string)
    requires Wellformed(t)
    requires StatusAtualizado(t, input, agora, modID).Success?
    ensures var o := Resumo(input, StatusAtualizado(t, input, agora, modID).value);
      o.status == input.status &&
      (input.status == EmCurso.Text() ==>
        o.dataInicio == Some(agora) && o.dataConclusao.None? && o.responsavel == input.responsavel.value) &&
      (input.status == Finalizado.Text() ==>
        o.dataInicio.Some? && o.dataConclusao == Some(agora) && o.responsavel == t.responsavel) &&
      (input.status == Cancelado.Text() ==>
        o.dataInicio == t.dataInicio && o.dataConclusao.None? && o.responsavel == t.responsavel)
  {
    var op := OperacaoPedida(input, agora, modID).value;
    if op.Conclusao? {
      // The start date of a concluded ticket comes from the invariant.
      ConclusaoKeepsWellformed(t, op.usuarioID, agora, modID);
    } else {
      StepDates(t, op);
    }
  }

  /** The changed ticket still satisfies the aggregate's invariant. */
  lemma StatusChangeKeepsWellformed(t: TicketState, input: AtualizarStatusTicketInput, agora: int, modID: string)
    requires Wellformed(t)
    requires StatusAtualizado(t, input, agora, modID).Success?
    ensures Wellformed(StatusAtualizado(t, input, agora, modID).value)
  {
    StepPreservesWellformed(t, OperacaoPedida(input, agora, modID).value);
  }

  // ---------------------------------------------------------------------------
  // The use case

  /** The switch of Execute on the loaded ticket. */
  method Aplicar(t: Ticket, input: AtualizarStatusTicketInput, agora: int, modID: string) returns (err: Option<Error>)
    modifies t
    ensures match StatusAtualizado(old(t.State()), input, agora, modID)
      case Failure(e) => err == Some(e)
      case Success(novo) => err == None && t.State() == novo
  {
    if input.status == EmCurso.Text() {
      if input.responsavel.None? {
        return Some(ErrResponsavelObrigatorio);
      }
      err := t.IniciarAtendimento(input.responsavel.value, agora, modID);
    } else if input.status == Finalizado.Text() {
      err := t.Concluir(input.usuarioID, agora, modID);
    } else if input.status == Cancelado.Text() {
      err := t.Cancelar(input.usuarioID, agora, modID);
    } else {
      err := Some(ErrStatusInvalido);
    }
  }

  /**
   * Execute: a missing ticket, an unknown status, a missing assignee or a
   * refused transition leave the store untouched; otherwise exactly one
   * Update, of the ticket `StatusAtualizado` gives.
   */
  method Execute(repo: Repository, input: AtualizarStatusTicketInput, agora: int, modID: string)
    returns (r: Result<AtualizarStatusTicketOutput, Error>)
    requires repo.Valid()
    modifies repo
    ensures repo.Valid()
    ensures input.id !in old(repo.tickets) ==>
      r == Failure(ErrNaoEncontrado) && repo.tickets == old(repo.tickets) && repo.escritas == old(repo.escritas)
    ensures input.id in old(repo.tickets) ==>
      match StatusAtualizado(old(repo.tickets)[input.id], input, agora, modID)
      case Failure(e) =>
        r == Failure(e) && repo.tickets == old(repo.tickets) && repo.escritas == old(repo.escritas)
      case Success(novo) =>
        repo.tickets == old(repo.tickets)[input.id := novo] &&
        repo.escritas == old(repo.escritas) + [Atualizado(input.id)] &&
        r == Success(Resumo(input, novo))
  {
    var carregado := repo.GetByID(input.id);
    if carregado.Failure? {
      return Failure(carregado.error);
    }
    var t := carregado.value;
    var err := Aplicar(t, input, agora, modID);
    if err.Some? {
      return Failure(err.value);
    }
    StatusChangeKeepsWellformed(repo.tickets[input.id], input, agora, modID);
    repo.Update(t);
    r := Success(Resumo(input, t.State()));
  }
}
