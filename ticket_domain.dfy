/**
 * The ticket aggregate of internal/domain/ticket/ticket.go: its status
 * machine, its audit records and the mutators that drive it.
 *
 * Times are nanoseconds since an arbitrary epoch and durations are
 * nanoseconds, as Go's `time.Time` and `time.Duration`. The clock
 * (`time.Now`) and the id source (`uuid.New`) are parameters: `agora` is the
 * instant of the operation and `modID` / `obsID` the fresh id it draws.
 */
module TicketDomain {
  import opened Wrappers
  import opened Decimal

  /** The four statuses; `Text` is the string the Go constants hold. */
  datatype Status = Aberto | EmCurso | Finalizado | Cancelado {
    function Text(): string {
      match this
      case Aberto => "aberto"
      case EmCurso => "em_curso"
      case Finalizado => "finalizado"
      case Cancelado => "cancelado"
    }

    predicate IsTerminal() {
      this == Finalizado || this == Cancelado
    }
  }

  /** The status whose text is `s`, if any. */
  function StatusFromText(s: string): (r: Option<Status>)
    ensures r.Some? ==> r.value.Text() == s
    ensures r.None? ==> s != "aberto" && s != "em_curso" && s != "finalizado" && s != "cancelado"
  {
    if s == "aberto" then Some(Aberto)
    else if s == "em_curso" then Some(EmCurso)
    else if s == "finalizado" then Some(Finalizado)
    else if s == "cancelado" then Some(Cancelado)
    else None
  }

  /** `Categoria` and `Subcategoria` are Go string types; any text may reach the entity. */
  type Categoria = string
  type Subcategoria = string

  /** The error values returned by the entity, the use cases and the store. */
  datatype Error =
    | ErrUrgenciaInvalida
    | ErrGravidadeInvalida
    | ErrTituloObrigatorio
    | ErrDescricaoObrigatoria
    | ErrCategoriaObrigatoria
    | ErrAbertoPorObrigatorio
    | ErrNaoAberto             // IniciarAtendimento on a ticket that is not `aberto`
    | ErrNaoEmAtendimento      // Concluir on a ticket that is not `em_curso`
    | ErrJaEncerrado           // Cancelar on a `finalizado` or `cancelado` ticket
    | ErrCampoRecusado(campo: string)  // a title/description/category setter refused its value
    | ErrTicketEncerrado       // the update use case on a `finalizado` or `cancelado` ticket
    | ErrResponsavelObrigatorio
    | ErrStatusInvalido
    | ErrDescricaoVazia
    | ErrNaoEncontrado
    | ErrIdDuplicado

  datatype Observacao = Observacao(
    id: string,
    ticketID: string,
    usuarioID: string,
    descricao: string,
    dataCriacao: int)

  datatype Modificacao = Modificacao(
    id: string,
    ticketID: string,
    usuarioID: string,
    campoModificado: string,
    valorAnterior: string,
    valorNovo: string,
    dataModificacao: int)

  /**
   * The value of a ticket at one moment: the fields of the Go struct, with
   * `*string` and `*time.Time` as Option.
   */
  datatype TicketState = TicketState(
    id: string,
    titulo: string,
    merchant: Option<string>,
    noxID: Option<string>,
    cpf: Option<string>,
    status: Status,
    categoria: Categoria,
    subcategoria: Subcategoria,
    descricao: string,
    urgencia: int,
    gravidade: int,
    abertoPor: string,
    responsavel: string,
    contato: string,
    plataforma: Option<string>,
    dataAbertura: int,
    dataInicio: Option<int>,
    dataConclusao: Option<int>,
    duracaoTotal: int,
    duracaoExecucao: int,
    observacoes: seq<Observacao>,
    modificacoes: seq<Modificacao>)

  predicate InRange(v: int) {
    1 <= v <= 5
  }

  /**
   * NovoTicket: refuses an empty title, description, category or opener (in
   * that order of checks); otherwise a fresh `aberto` ticket with urgency and
   * severity 1, no optional data, no dates but the opening one, and empty
   * histories.
   */
  function NovoTicket(id: string, titulo: string, descricao: string, categoria: Categoria,
                      subcategoria: Subcategoria, abertoPor: string, agora: int): (r: Result<TicketState, Error>)
    ensures r.Failure? <==> titulo == "" || descricao == "" || categoria == "" || abertoPor == ""
    ensures titulo == "" ==> r == Failure(ErrTituloObrigatorio)
    ensures titulo != "" && descricao == "" ==> r == Failure(ErrDescricaoObrigatoria)
    ensures titulo != "" && descricao != "" && categoria == "" ==> r == Failure(ErrCategoriaObrigatoria)
    ensures titulo != "" && descricao != "" && categoria != "" && abertoPor == "" ==> r == Failure(ErrAbertoPorObrigatorio)
    ensures r.Success? ==>
      var t := r.value;
      t.id == id && t.titulo == titulo && t.descricao == descricao && t.categoria == categoria &&
      t.subcategoria == subcategoria && t.abertoPor == abertoPor && t.dataAbertura == agora &&
      t.status == Aberto && t.urgencia == 1 && t.gravidade == 1 && t.responsavel == "" &&
      t.merchant == None && t.noxID == None && t.cpf == None && t.plataforma == None &&
      t.contato == "" && t.dataInicio == None && t.dataConclusao == None &&
      t.duracaoTotal == 0 && t.duracaoExecucao == 0 &&
      t.observacoes == [] && t.modificacoes == []
  {
    if titulo == "" then Failure(ErrTituloObrigatorio)
    else if descricao == "" then Failure(ErrDescricaoObrigatoria)
    else if categoria == "" then Failure(ErrCategoriaObrigatoria)
    else if abertoPor == "" then Failure(ErrAbertoPorObrigatorio)
    else Success(TicketState(
      id, titulo, None, None, None, Aberto, categoria, subcategoria, descricao, 1, 1,
      abertoPor, "", "", None, agora, None, None, 0, 0, [], []))
  }

  /** An optional field set only by a non-empty argument. */
  function Overwrite(current: Option<string>, arg: string): Option<string> {
    if arg != "" then Some(arg) else current
  }

  /** A required text field set only by a non-empty argument. */
  function OverwriteText(current: string, arg: string): string {
    if arg != "" then arg else current
  }

  /** SetInformacaoAdicional on a value: each optional field follows `Overwrite`, and so does the contact. */
  function ComInformacaoAdicional(t: TicketState, merchant: string, noxID: string, cpf: string,
                                  plataforma: string, contato: string): TicketState
  {
    t.(merchant := Overwrite(t.merchant, merchant),
       noxID := Overwrite(t.noxID, noxID),
       cpf := Overwrite(t.cpf, cpf),
       plataforma := Overwrite(t.plataforma, plataforma),
       contato := OverwriteText(t.contato, contato))
  }

  /** registrarModificacao: one audit record appended at the end of the history. */
  function Registrada(t: TicketState, campo: string, anterior: string, novo: string,
                      usuarioID: string, agora: int, modID: string): TicketState
  {
    t.(modificacoes := t.modificacoes + [Modificacao(modID, t.id, usuarioID, campo, anterior, novo, agora)])
  }

  /** The effect of IniciarAtendimento once its guard passed. */
  function ComInicio(t: TicketState, responsavel: string, agora: int, modID: string): TicketState {
    var iniciado := t.(status := EmCurso, responsavel := responsavel, dataInicio := Some(agora));
    Registrada(iniciado, "status", Aberto.Text(), EmCurso.Text(), responsavel, agora, modID)
  }

  /** The effect of Concluir once its guard passed. */
  function ComConclusao(t: TicketState, usuarioID: string, agora: int, modID: string): TicketState {
    var concluido := t.(
      status := Finalizado,
      dataConclusao := Some(agora),
      duracaoTotal := agora - t.dataAbertura,
      duracaoExecucao := if t.dataInicio.Some? then agora - t.dataInicio.value else t.duracaoExecucao);
    Registrada(concluido, "status", t.status.Text(), Finalizado.Text(), usuarioID, agora, modID)
  }

  /** The effect of Cancelar once its guard passed. */
  function ComCancelamento(t: TicketState, usuarioID: string, agora: int, modID: string): TicketState {
    Registrada(t.(status := Cancelado), "status", t.status.Text(), Cancelado.Text(), usuarioID, agora, modID)
  }

  /** The effect of SetUrgencia on a value in range. */
  function ComUrgencia(t: TicketState, urgencia: int, usuarioID: string, agora: int, modID: string): TicketState {
    Registrada(t.(urgencia := urgencia), "urgencia", IntText(t.urgencia), IntText(urgencia), usuarioID, agora, modID)
  }

  /** The effect of SetGravidade on a value in range. */
  function ComGravidade(t: TicketState, gravidade: int, usuarioID: string, agora: int, modID: string): TicketState {
    Registrada(t.(gravidade := gravidade), "gravidade", IntText(t.gravidade), IntText(gravidade), usuarioID, agora, modID)
  }

  /** The effect of AdicionarObservacao. */
  function ComObservacao(t: TicketState, descricao: string, usuarioID: string, obsID: string, agora: int): TicketState {
    t.(observacoes := t.observacoes + [Observacao(obsID, t.id, usuarioID, descricao, agora)])
  }

  /** One call of a mutator of the entity, with its outside inputs (clock, fresh id). */
  datatype Operacao =
    | Inicio(responsavel: string, agora: int, modID: string)
    | Conclusao(usuarioID: string, agora: int, modID: string)
    | Cancelamento(usuarioID: string, agora: int, modID: string)
    | NovaUrgencia(urgencia: int, usuarioID: string, agora: int, modID: string)
    | NovaGravidade(gravidade: int, usuarioID: string, agora: int, modID: string)
    | InformacaoAdicional(merchant: string, noxID: string, cpf: string, plataforma: string, contato: string)
    | NovaObservacao(descricao: string, usuarioID: string, obsID: string, agora: int)
  {
    /** The status this operation moves a ticket to, for the three transitions. */
    function Alvo(): Option<Status> {
      match this
      case Inicio(_, _, _) => Some(EmCurso)
      case Conclusao(_, _, _) => Some(Finalizado)
      case Cancelamento(_, _, _) => Some(Cancelado)
      case _ => None
    }
  }

  /** The edges of the status machine. */
  predicate Transicao(de: Status, para: Status) {
    (de == Aberto && para == EmCurso) ||
    (de == EmCurso && para == Finalizado) ||
    (de != Finalizado && de != Cancelado && para == Cancelado)
  }

  /** The fields no mutator of the entity touches. */
  predicate MesmaIdentidade(a: TicketState, b: TicketState) {
    a.id == b.id && a.titulo == b.titulo && a.descricao == b.descricao &&
    a.categoria == b.categoria && a.subcategoria == b.subcategoria &&
    a.abertoPor == b.abertoPor && a.dataAbertura == b.dataAbertura
  }

  /**
   * What each mutator of ticket.go does to a ticket value: the guard, then the
   * new fields and the audit record. A failure carries no ticket: the caller
   * keeps the old one.
   */
  function Step(t: TicketState, op: Operacao): (r: Result<TicketState, Error>)
    ensures op.Alvo().Some? ==> (r.Success? <==> Transicao(t.status, op.Alvo().value))
    ensures op.Alvo().Some? && r.Success? ==> r.value.status == op.Alvo().value
    ensures op.Alvo().None? ==> (r.Success? ==> r.value.status == t.status)
    ensures r.Success? ==> MesmaIdentidade(t, r.value)
  {
    match op
    case Inicio(responsavel, agora, modID) =>
      if t.status != Aberto then Failure(ErrNaoAberto)
      else Success(ComInicio(t, responsavel, agora, modID))
    case Conclusao(usuarioID, agora, modID) =>
      if t.status != EmCurso then Failure(ErrNaoEmAtendimento)
      else Success(ComConclusao(t, usuarioID, agora, modID))
    case Cancelamento(usuarioID, agora, modID) =>
      if t.status == Finalizado || t.status == Cancelado then Failure(ErrJaEncerrado)
      else Success(ComCancelamento(t, usuarioID, agora, modID))
    case NovaUrgencia(urgencia, usuarioID, agora, modID) =>
      if urgencia < 1 || urgencia > 5 then Failure(ErrUrgenciaInvalida)
      else Success(ComUrgencia(t, urgencia, usuarioID, agora, modID))
    case NovaGravidade(gravidade, usuarioID, agora, modID) =>
      if gravidade < 1 || gravidade > 5 then Failure(ErrGravidadeInvalida)
      else Success(ComGravidade(t, gravidade, usuarioID, agora, modID))
    case InformacaoAdicional(merchant, noxID, cpf, plataforma, contato) =>
      Success(ComInformacaoAdicional(t, merchant, noxID, cpf, plataforma, contato))
    case NovaObservacao(descricao, usuarioID, obsID, agora) =>
      Success(ComObservacao(t, descricao, usuarioID, obsID, agora))
  }

  /** The ticket aggregate, whose pointer-receiver methods change its fields in place. */
  class Ticket {
    const id: string
    var titulo: string
    var merchant: Option<string>
    var noxID: Option<string>
    var cpf: Option<string>
    var status: Status
    var categoria: Categoria
    const subcategoria: Subcategoria
    var descricao: string
    var urgencia: int
    var gravidade: int
    const abertoPor: string
    var responsavel: string
    var contato: string
    var plataforma: Option<string>
    const dataAbertura: int
    var dataInicio: Option<int>
    var dataConclusao: Option<int>
    var duracaoTotal: int
    var duracaoExecucao: int
    var observacoes: seq<Observacao>
    var modificacoes: seq<Modificacao>

    /** The current value of every field. */
    function State(): TicketState
      reads this
    {
      TicketState(id, titulo, merchant, noxID, cpf, status, categoria, subcategoria, descricao,
                  urgencia, gravidade, abertoPor, responsavel, contato, plataforma, dataAbertura,
                  dataInicio, dataConclusao, duracaoTotal, duracaoExecucao, observacoes, modificacoes)
    }

    /** A ticket object holding the given value (what `&Ticket{...}` and a repository load build). */
    constructor FromState(s: TicketState)
      ensures State() == s
    {
      id, titulo, merchant, noxID, cpf := s.id, s.titulo, s.merchant, s.noxID, s.cpf;
      status, categoria, subcategoria, descricao := s.status, s.categoria, s.subcategoria, s.descricao;
      urgencia, gravidade, abertoPor, responsavel := s.urgencia, s.gravidade, s.abertoPor, s.responsavel;
      contato, plataforma, dataAbertura := s.contato, s.plataforma, s.dataAbertura;
      dataInicio, dataConclusao := s.dataInicio, s.dataConclusao;
      duracaoTotal, duracaoExecucao := s.duracaoTotal, s.duracaoExecucao;
      observacoes, modificacoes := s.observacoes, s.modificacoes;
    }

    /** SetInformacaoAdicional: a field is overwritten only by a non-empty argument, never cleared. */
    method SetInformacaoAdicional(merchant: string, noxID: string, cpf: string, plataforma: string, contato: string)
      modifies this
      ensures State() == ComInformacaoAdicional(old(State()), merchant, noxID, cpf, plataforma, contato)
    {
      if merchant != "" {
        AtribuirMerchant(Some(merchant));
      }
      if noxID != "" {
        AtribuirNoxID(Some(noxID));
      }
      if cpf != "" {
        AtribuirCPF(Some(cpf));
      }
      if plataforma != "" {
        AtribuirPlataforma(Some(plataforma));
      }
      if contato != "" {
        AtribuirContato(contato);
      }
    }

    /** IniciarAtendimento: only from `aberto`; records the assignee, the start time and one status record. */
    method IniciarAtendimento(responsavel: string, agora: int, modID: string) returns (err: Option<Error>)
      modifies this
      ensures err.None? <==> old(status) == Aberto
      ensures err.None? ==> State() == ComInicio(old(State()), responsavel, agora, modID)
      ensures err.Some? ==> err.value == ErrNaoAberto && State() == old(State())
    {
      if status != Aberto {
        return Some(ErrNaoAberto);
      }
      AtribuirStatus(EmCurso);
      AtribuirResponsavel(responsavel);
      AtribuirDataInicio(Some(agora));
      RegistrarModificacao("status", Aberto.Text(), EmCurso.Text(), responsavel, agora, modID);
      err := None;
    }

    /** Concluir: only from `em_curso`; sets the finish time and both durations, and one status record. */
    method Concluir(usuarioID: string, agora: int, modID: string) returns (err: Option<Error>)
      modifies this
      ensures err.None? <==> old(status) == EmCurso
      ensures err.None? ==> State() == ComConclusao(old(State()), usuarioID, agora, modID)
      ensures err.Some? ==> err.value == ErrNaoEmAtendimento && State() == old(State())
    {
      if status != EmCurso {
        return Some(ErrNaoEmAtendimento);
      }
      var statusAnterior := status;
      AtribuirStatus(Finalizado);
      AtribuirDataConclusao(Some(agora));
      AtribuirDuracaoTotal(agora - dataAbertura);
      if dataInicio.Some? {
        AtribuirDuracaoExecucao(agora - dataInicio.value);
      }
      RegistrarModificacao("status", statusAnterior.Text(), Finalizado.Text(), usuarioID, agora, modID);
      err := None;
    }

    /** Cancelar: from any non-terminal status; dates and durations are left alone. */
    method Cancelar(usuarioID: string, agora: int, modID: string) returns (err: Option<Error>)
      modifies this
      ensures err.None? <==> !old(status).IsTerminal()
      ensures err.None? ==> State() == ComCancelamento(old(State()), usuarioID, agora, modID)
      ensures err.Some? ==> err.value == ErrJaEncerrado && State() == old(State())
    {
      if status == Finalizado || status == Cancelado {
        return Some(ErrJaEncerrado);
      }
      var statusAnterior := status;
      status := Cancelado;
      RegistrarModificacao("status", statusAnterior.Text(), Cancelado.Text(), usuarioID, agora, modID);
      err := None;
    }

    /** AdicionarObservacao: appends one observation; the entity itself accepts any text. */
    method AdicionarObservacao(descricao: string, usuarioID: string, obsID: string, agora: int)
      modifies this
      ensures State() == ComObservacao(old(State()), descricao, usuarioID, obsID, agora)
      ensures observacoes == old(observacoes) + [Observacao(obsID, id, usuarioID, descricao, agora)]
    {
      var observacao := Observacao(obsID, id, usuarioID, descricao, agora);
      observacoes := observacoes + [observacao];
    }

    /** SetUrgencia: refuses values outside [1,5]; otherwise one record with the decimal old and new values. */
    method SetUrgencia(urgencia: int, usuarioID: string, agora: int, modID: string) returns (err: Option<Error>)
      modifies this
      ensures err.None? <==> InRange(urgencia)
      ensures err.None? ==> State() == ComUrgencia(old(State()), urgencia, usuarioID, agora, modID)
      ensures err.Some? ==> err.value == ErrUrgenciaInvalida && State() == old(State())
    {
      if urgencia < 1 || urgencia > 5 {
        return Some(ErrUrgenciaInvalida);
      }
      var valorAnterior := this.urgencia;
      this.urgencia := urgencia;
      RegistrarModificacao("urgencia", IntText(valorAnterior), IntText(urgencia), usuarioID, agora, modID);
      err := None;
    }

    /** SetGravidade: refuses values outside [1,5]; otherwise one record with the decimal old and new values. */
    method SetGravidade(gravidade: int, usuarioID: string, agora: int, modID: string) returns (err: Option<Error>)
      modifies this
      ensures err.None? <==> InRange(gravidade)
      ensures err.None? ==> State() == ComGravidade(old(State()), gravidade, usuarioID, agora, modID)
      ensures err.Some? ==> err.value == ErrGravidadeInvalida && State() == old(State())
    {
      if gravidade < 1 || gravidade > 5 {
        return Some(ErrGravidadeInvalida);
      }
      var valorAnterior := this.gravidade;
      this.gravidade := gravidade;
      RegistrarModificacao("gravidade", IntText(valorAnterior), IntText(gravidade), usuarioID, agora, modID);
      err := None;
    }

    // One-field writes: each mutator above changes the ticket through these, one
    // field at a time, as the Go methods assign one struct field per statement.

    method AtribuirStatus(v: Status)
      modifies this
      ensures State() == old(State()).(status := v)
    {
      status := v;
    }

    method AtribuirResponsavel(v: string)
      modifies this
      ensures State() == old(State()).(responsavel := v)
    {
      responsavel := v;
    }

    method AtribuirDataInicio(v: Option<int>)
      modifies this
      ensures State() == old(State()).(dataInicio := v)
    {
      dataInicio := v;
    }

    method AtribuirDataConclusao(v: Option<int>)
      modifies this
      ensures State() == old(State()).(dataConclusao := v)
    {
      dataConclusao := v;
    }

    method AtribuirDuracaoTotal(v: int)
      modifies this
      ensures State() == old(State()).(duracaoTotal := v)
    {
      duracaoTotal := v;
    }

    method AtribuirDuracaoExecucao(v: int)
      modifies this
      ensures State() == old(State()).(duracaoExecucao := v)
    {
      duracaoExecucao := v;
    }

    method AtribuirMerchant(v: Option<string>)
      modifies this
      ensures State() == old(State()).(merchant := v)
    {
      merchant := v;
    }

    method AtribuirNoxID(v: Option<string>)
      modifies this
      ensures State() == old(State()).(noxID := v)
    {
      noxID := v;
    }

    method AtribuirCPF(v: Option<string>)
      modifies this
      ensures State() == old(State()).(cpf := v)
    {
      cpf := v;
    }

    method AtribuirPlataforma(v: Option<string>)
      modifies this
      ensures State() == old(State()).(plataforma := v)
    {
      plataforma := v;
    }

    method AtribuirContato(v: string)
      modifies this
      ensures State() == old(State()).(contato := v)
    {
      contato := v;
    }

    /** registrarModificacao: appends one audit record owned by this ticket. */
    method RegistrarModificacao(campo: string, valorAnterior: string, valorNovo: string,
                                usuarioID: string, agora: int, modID: string)
      modifies this
      ensures State() == Registrada(old(State()), campo, valorAnterior, valorNovo, usuarioID, agora, modID)
    {
      var modificacao := Modificacao(modID, id, usuarioID, campo, valorAnterior, valorNovo, agora);
      modificacoes := modificacoes + [modificacao];
    }

    /**
     * SetTitulo, SetDescricao and SetCategoria are called by the update use
     * case but are not defined in ticket.go. Their verdict is a parameter
     * (`aceito`); an accepted value is stored, a refused one changes nothing.
     * They never touch the status and add no audit record.
     */
    method SetTitulo(titulo: string, usuarioID: string, aceito: bool) returns (err: Option<Error>)
      modifies this
      ensures aceito ==> err == None && State() == old(State()).(titulo := titulo)
      ensures !aceito ==> err == Some(ErrCampoRecusado("titulo")) && State() == old(State())
    {
      if !aceito {
        return Some(ErrCampoRecusado("titulo"));
      }
      this.titulo := titulo;
      err := None;
    }

    method SetDescricao(descricao: string, usuarioID: string, aceito: bool) returns (err: Option<Error>)
      modifies this
      ensures aceito ==> err == None && State() == old(State()).(descricao := descricao)
      ensures !aceito ==> err == Some(ErrCampoRecusado("descricao")) && State() == old(State())
    {
      if !aceito {
        return Some(ErrCampoRecusado("descricao"));
      }
      this.descricao := descricao;
      err := None;
    }

    method SetCategoria(categoria: Categoria, usuarioID: string, aceito: bool) returns (err: Option<Error>)
      modifies this
      ensures aceito ==> err == None && State() == old(State()).(categoria := categoria)
      ensures !aceito ==> err == Some(ErrCampoRecusado("categoria")) && State() == old(State())
    {
      if !aceito {
        return Some(ErrCampoRecusado("categoria"));
      }
      this.categoria := categoria;
      err := None;
    }
  }
}
