/**
 * The create use case of internal/application/usecases/ticket/criar_ticket.go:
 * range checks, construction, optional data, an immediate start when an
 * assignee is given, then one Create.
 */
module CriarTicket {
  import opened Wrappers
  import opened TicketDomain
  import opened TicketLifecycle
  import opened TicketStore

  datatype CriarTicketInput = CriarTicketInput(
    titulo: string,
    descricao: string,
    categoria: Categoria,
    subcategoria: Subcategoria,
    abertoPor: string,
    urgencia: int,
    gravidade: int,
    merchant: string,
    noxID: string,
    cpf: string,
    plataforma: string,
    contato: string,
    responsavel: string)

  /** The output; the opening date is the instant itself, its text rendering is not modelled. */
  datatype CriarTicketOutput = CriarTicketOutput(
    id: string,
    status: Status,
    dataAbertura: int,
    abertoPor: string,
    titulo: string,
    categoria: Categoria,
    subcategoria: Subcategoria)

  /**
   * The ticket the use case hands to Create, or the error it stops with.
   * `id`, `agora` and `modID` are the fresh id, the clock reading and the
   * id of the status record.
   */
  function TicketCriado(input: CriarTicketInput, id: string, agora: int, modID: string): (r: Result<TicketState, Error>)
    ensures !InRange(input.urgencia) ==> r == Failure(ErrUrgenciaInvalida)
    ensures InRange(input.urgencia) && !InRange(input.gravidade) ==> r == Failure(ErrGravidadeInvalida)
    ensures InRange(input.urgencia) && InRange(input.gravidade) ==>
      var novo := NovoTicket(id, input.titulo, input.descricao, input.categoria, input.subcategoria, input.abertoPor, agora);
      (r.Failure? <==> novo.Failure?) && (novo.Failure? ==> r.error == novo.error)
    ensures r.Success? ==>
      var t := r.value;
      t.id == id && t.titulo == input.titulo && t.descricao == input.descricao &&
      t.categoria == input.categoria && t.subcategoria == input.subcategoria &&
      t.abertoPor == input.abertoPor && t.dataAbertura == agora &&
      t.urgencia == input.urgencia && t.gravidade == input.gravidade &&
      t.merchant == (if input.merchant != "" then Some(input.merchant) else None) &&
      t.noxID == (if input.noxID != "" then Some(input.noxID) else None) &&
      t.cpf == (if input.cpf != "" then Some(input.cpf) else None) &&
      t.plataforma == (if input.plataforma != "" then Some(input.plataforma) else None) &&
      t.contato == input.contato && t.responsavel == input.responsavel &&
      t.observacoes == [] &&
      (input.responsavel == "" ==> t.status == Aberto && t.modificacoes == [] && t.dataInicio == None) &&
      (input.responsavel != "" ==>
        t.status == EmCurso && t.dataInicio == Some(agora) &&
        t.modificacoes == [Modificacao(modID, id, input.responsavel, "status", "aberto", "em_curso", agora)])
  {
    if input.urgencia < 1 || input.urgencia > 5 then Failure(ErrUrgenciaInvalida)
    else if input.gravidade < 1 || input.gravidade > 5 then Failure(ErrGravidadeInvalida)
    else
      match NovoTicket(id, input.titulo, input.descricao, input.categoria, input.subcategoria, input.abertoPor, agora)
      case Failure(e) => Failure(e)
      case Success(novo) => Success(Completado(novo, input, agora, modID))
  }

  /** A fresh `aberto` ticket given the input's urgency, severity and optional data, then started when an assignee is named. */
  function Completado(novo: TicketState, input: CriarTicketInput, agora: int, modID: string): TicketState
    requires novo.status == Aberto
  {
    var comInfo := ComInformacaoAdicional(novo.(urgencia := input.urgencia, gravidade := input.gravidade),
                                          input.merchant, input.noxID, input.cpf, input.plataforma, input.contato);
    if input.responsavel == "" then comInfo
    else ComInicio(comInfo, input.responsavel, agora, modID)
  }

  /** The ticket the use case builds satisfies the aggregate's invariant. */
  lemma TicketCriadoWellformed(input: CriarTicketInput, id: string, agora: int, modID: string)
    requires TicketCriado(input, id, agora, modID).Success?
    ensures Wellformed(TicketCriado(input, id, agora, modID).value)
  {
    NovoTicketWellformed(id, input.titulo, input.descricao, input.categoria, input.subcategoria, input.abertoPor, agora);
    var novo := NovoTicket(id, input.titulo, input.descricao, input.categoria, input.subcategoria, input.abertoPor, agora).value;
    var comInfo := ComInformacaoAdicional(novo.(urgencia := input.urgencia, gravidade := input.gravidade),
                                          input.merchant, input.noxID, input.cpf, input.plataforma, input.contato);
    assert Wellformed(comInfo);
    assert Completado(novo, input, agora, modID) == (if input.responsavel == "" then comInfo
      else ComInicio(comInfo, input.responsavel, agora, modID));
    if input.responsavel != "" {
      StepPreservesWellformed(comInfo, Inicio(input.responsavel, agora, modID));
    }
  }

  /** The object steps of Execute after NovoTicket: direct assignments, SetInformacaoAdicional, IniciarAtendimento. */
  method Completar(novo: TicketState, input: CriarTicketInput, agora: int, modID: string) returns (t: Ticket)
    requires novo.status == Aberto
    ensures fresh(t)
    ensures t.State() == Completado(novo, input, agora, modID)
  {
    t := new Ticket.FromState(novo);
    t.urgencia := input.urgencia;
    t.gravidade := input.gravidade;
    assert t.State() == novo.(urgencia := input.urgencia, gravidade := input.gravidade);
    t.SetInformacaoAdicional(input.merchant, input.noxID, input.cpf, input.plataforma, input.contato);
    if input.responsavel != "" {
      var err := t.IniciarAtendimento(input.responsavel, agora, modID);
      // A fresh ticket is `aberto`, so the start cannot be refused here.
      assert err.None?;
    }
  }

  /**
   * Execute: on a validation error nothing is written; otherwise exactly one
   * Create of the built ticket, refused only when the id is taken, and the
   * output describes the stored ticket.
   */
  method Execute(repo: Repository, input: CriarTicketInput, id: string, agora: int, modID: string)
    returns (r: Result<CriarTicketOutput, Error>)
    requires repo.Valid()
    modifies repo
    ensures repo.Valid()
    ensures match TicketCriado(input, id, agora, modID)
      case Failure(e) =>
        r == Failure(e) && repo.tickets == old(repo.tickets) && repo.escritas == old(repo.escritas)
      case Success(novo) =>
        if id in old(repo.tickets) then
          r == Failure(ErrIdDuplicado) && repo.tickets == old(repo.tickets) && repo.escritas == old(repo.escritas)
        else
          repo.tickets == old(repo.tickets)[id := novo] && repo.escritas == old(repo.escritas) + [Criado(id)] &&
          r == Success(CriarTicketOutput(id, novo.status, agora, novo.abertoPor, novo.titulo, novo.categoria, novo.subcategoria))
  {
    if input.urgencia < 1 || input.urgencia > 5 {
      return Failure(ErrUrgenciaInvalida);
    }
    if input.gravidade < 1 || input.gravidade > 5 {
      return Failure(ErrGravidadeInvalida);
    }
    var novo := NovoTicket(id, input.titulo, input.descricao, input.categoria, input.subcategoria, input.abertoPor, agora);
    if novo.Failure? {
      return Failure(novo.error);
    }
    var t := Completar(novo.value, input, agora, modID);
    TicketCriadoWellformed(input, id, agora, modID);
    var err := repo.Create(t);
    if err.Some? {
      return Failure(err.value);
    }
    r := Success(CriarTicketOutput(t.id, t.status, t.dataAbertura, t.abertoPor, t.titulo, t.categoria, t.subcategoria));
  }
}
