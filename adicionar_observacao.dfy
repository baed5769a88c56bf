/**
 * The observation use case of
 * internal/application/usecases/ticket/adicionar_observacao.go: refuse an
 * empty text, load, append one observation, read it back as the last of the
 * list, then one Update. There is no status guard: a closed ticket takes
 * observations too.
 */
module AdicionarObservacao {
  import opened Wrappers
  import opened TicketDomain
  import opened TicketLifecycle
  import opened TicketStore

  datatype AdicionarObservacaoInput = AdicionarObservacaoInput(
    id: string,
    descricao: string,
    usuarioID: string)

  /** The output; `id` is the ticket's id, as in the Go code, and the date is the instant itself. */
  datatype AdicionarObservacaoOutput = AdicionarObservacaoOutput(
    id: string,
    ticketID: string,
    usuarioID: string,
    descricao: string,
    dataCriacao: int)

  /** The observation the use case appends; `obsID` and `agora` are the fresh id and the clock reading. */
  function NovaObservacao(t: TicketState, input: AdicionarObservacaoInput, obsID: string, agora: int): Observacao {
    Observacao(obsID, t.id, input.usuarioID, input.descricao, agora)
  }

  /**
   * The observation is appended at the end and nothing else of the ticket
   * changes, whatever its status; the last element read back is the new one.
   */
  lemma ObservacaoAppended(t: TicketState, input: AdicionarObservacaoInput, obsID: string, agora: int)
    ensures var r := ComObservacao(t, input.descricao, input.usuarioID, obsID, agora);
      r.(observacoes := t.observacoes) == t &&
      |r.observacoes| == |t.observacoes| + 1 &&
      r.observacoes[..|t.observacoes|] == t.observacoes &&
      r.observacoes[|r.observacoes| - 1] == NovaObservacao(t, input, obsID, agora) &&
      r.observacoes[|r.observacoes| - 1].ticketID == t.id
  {
    var r := ComObservacao(t, input.descricao, input.usuarioID, obsID, agora);
    assert r.observacoes[..|t.observacoes|] == t.observacoes;
  }

  /** The ticket with its new observation still satisfies the aggregate's invariant. */
  lemma ObservacaoKeepsWellformed(t: TicketState, input: AdicionarObservacaoInput, obsID: string, agora: int)
    requires Wellformed(t)
    ensures Wellformed(ComObservacao(t, input.descricao, input.usuarioID, obsID, agora))
  {
    StepPreservesWellformed(t, TicketDomain.NovaObservacao(input.descricao, input.usuarioID, obsID, agora));
  }

  /**
   * Execute: an empty text is refused before the lookup and a missing ticket
   * after it, with nothing written; otherwise exactly one Update of the ticket
   * with the observation appended, and the output echoes that observation.
   */
  method Execute(repo: Repository, input: AdicionarObservacaoInput, obsID: string, agora: int)
    returns (r: Result<AdicionarObservacaoOutput, Error>)
    requires repo.Valid()
    modifies repo
    ensures repo.Valid()
    ensures input.descricao == "" ==>
      r == Failure(ErrDescricaoVazia) && repo.tickets == old(repo.tickets) && repo.escritas == old(repo.escritas)
    ensures input.descricao != "" && input.id !in old(repo.tickets) ==>
      r == Failure(ErrNaoEncontrado) && repo.tickets == old(repo.tickets) && repo.escritas == old(repo.escritas)
    ensures input.descricao != "" && input.id in old(repo.tickets) ==>
      var t := old(repo.tickets)[input.id];
      repo.tickets == old(repo.tickets)[input.id := ComObservacao(t, input.descricao, input.usuarioID, obsID, agora)] &&
      repo.escritas == old(repo.escritas) + [Atualizado(input.id)] &&
      r == Success(AdicionarObservacaoOutput(input.id, input.id, input.usuarioID, input.descricao, agora))
  {
    if input.descricao == "" {
      return Failure(ErrDescricaoVazia);
    }
    var carregado := repo.GetByID(input.id);
    if carregado.Failure? {
      return Failure(carregado.error);
    }
    var t := carregado.value;
    t.AdicionarObservacao(input.descricao, input.usuarioID, obsID, agora);
    var nova := t.observacoes[|t.observacoes| - 1];
    ObservacaoKeepsWellformed(repo.tickets[input.id], input, obsID, agora);
    repo.Update(t);
    r := Success(AdicionarObservacaoOutput(input.id, input.id, input.usuarioID, nova.descricao, nova.dataCriacao));
  }
}
