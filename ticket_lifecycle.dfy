/**
 * What the mutators of ticket.go keep true of a ticket, one call at a time
 * and over any sequence of calls: the status machine only moves forward and
 * never leaves `finalizado` or `cancelado`, histories are append-only, every
 * status change leaves exactly one audit record, and the dates and durations
 * agree with the status.
 */
module TicketLifecycle {
  import opened Wrappers
  import opened Decimal
  import opened TicketDomain

  /** The status records of an audit history, in order. */
  function StatusTrail(mods: seq<Modificacao>): seq<Modificacao>
    decreases |mods|
  {
    if mods == [] then []
    else
      var last := mods[|mods| - 1];
      StatusTrail(mods[..|mods| - 1]) + (if last.campoModificado == "status" then [last] else [])
  }

  /** The status records form a walk of the status machine from `de` to `ate`. */
  predicate Path(de: Status, trail: seq<Modificacao>, ate: Status)
    decreases |trail|
  {
    if trail == [] then de == ate
    else
      trail[0].valorAnterior == de.Text() &&
      match StatusFromText(trail[0].valorNovo)
      case None => false
      case Some(proximo) => Transicao(de, proximo) && Path(proximo, trail[1..], ate)
  }

  /** Some status record moved the ticket into `em_curso`. */
  predicate PassouPorEmCurso(trail: seq<Modificacao>) {
    exists i :: 0 <= i < |trail| && trail[i].valorNovo == "em_curso"
  }

  /**
   * The invariant of a ticket built by NovoTicket and changed only by the
   * mutators: urgency and severity in [1,5]; the status records are a walk
   * of the status machine from `aberto` to the current status; the start date
   * is set exactly when the ticket went through `em_curso` and the finish
   * date exactly when it is `finalizado`; durations are zero until the finish
   * and then measure from the opening and from the start; every history
   * record belongs to the ticket.
   */
  predicate Wellformed(t: TicketState) {
    InRange(t.urgencia) && InRange(t.gravidade) && HistoricoDeStatus(t) && Datas(t) && Pertence(t)
  }

  /** The status records walk from `aberto` to the status, and the start date marks a visit to `em_curso`. */
  predicate HistoricoDeStatus(t: TicketState) {
    Path(Aberto, StatusTrail(t.modificacoes), t.status) &&
    (t.dataInicio.Some? <==> PassouPorEmCurso(StatusTrail(t.modificacoes)))
  }

  /** The finish date and the durations agree with the status. */
  predicate Datas(t: TicketState) {
    (t.dataConclusao.Some? <==> t.status == Finalizado) &&
    (t.status == Finalizado ==>
      t.dataInicio.Some? && t.dataConclusao.Some? &&
      t.duracaoTotal == t.dataConclusao.value - t.dataAbertura &&
      t.duracaoExecucao == t.dataConclusao.value - t.dataInicio.value) &&
    (t.status != Finalizado ==> t.duracaoTotal == 0 && t.duracaoExecucao == 0)
  }

  /** Every history record names the ticket it belongs to. */
  predicate Pertence(t: TicketState) {
    (forall i :: 0 <= i < |t.modificacoes| ==> t.modificacoes[i].ticketID == t.id) &&
    (forall i :: 0 <= i < |t.observacoes| ==> t.observacoes[i].ticketID == t.id)
  }

  /** The field an operation records in the audit history, if any. */
  function Campo(op: Operacao): Option<string> {
    match op
    case Inicio(_, _, _) => Some("status")
    case Conclusao(_, _, _) => Some("status")
    case Cancelamento(_, _, _) => Some("status")
    case NovaUrgencia(_, _, _, _) => Some("urgencia")
    case NovaGravidade(_, _, _, _) => Some("gravidade")
    case _ => None
  }

  /** A failed call keeps the old ticket, a successful one gives the new ticket. */
  function Apply(t: TicketState, op: Operacao): TicketState {
    match Step(t, op)
    case Success(novo) => novo
    case Failure(_) => t
  }

  /** The ticket after a sequence of mutator calls, each failure leaving it as it was. */
  function Replay(t: TicketState, ops: seq<Operacao>): TicketState
    decreases |ops|
  {
    if ops == [] then t else Replay(Apply(t, ops[0]), ops[1..])
  }

  /** How far along the status machine a status is. */
  function Rank(s: Status): nat {
    match s
    case Aberto => 0
    case EmCurso => 1
    case Finalizado => 2
    case Cancelado => 2
  }

  // ---------------------------------------------------------------------------
  // One call

  /**
   * Each audited call appends exactly one record, owned by the ticket, naming
   * the field and its old and new values as text; the other calls leave the
   * audit history alone. Observations grow only by an observation call.
   */
  lemma StepAudit(t: TicketState, op: Operacao)
    requires Step(t, op).Success?
    ensures var r := Step(t, op).value;
      |r.modificacoes| == |t.modificacoes| + (if Campo(op).Some? then 1 else 0) &&
      r.modificacoes[..|t.modificacoes|] == t.modificacoes &&
      (Campo(op).Some? ==>
        var m := r.modificacoes[|t.modificacoes|];
        m.ticketID == t.id && m.campoModificado == Campo(op).value &&
        (op.Alvo().Some? ==> m.valorAnterior == t.status.Text() && m.valorNovo == op.Alvo().value.Text()) &&
        (op.NovaUrgencia? ==> m.valorAnterior == IntText(t.urgencia) && m.valorNovo == IntText(op.urgencia) &&
                              m.usuarioID == op.usuarioID && r.urgencia == op.urgencia) &&
        (op.NovaGravidade? ==> m.valorAnterior == IntText(t.gravidade) && m.valorNovo == IntText(op.gravidade) &&
                               m.usuarioID == op.usuarioID && r.gravidade == op.gravidade)) &&
      |r.observacoes| == |t.observacoes| + (if op.NovaObservacao? then 1 else 0) &&
      r.observacoes[..|t.observacoes|] == t.observacoes
  {
    var r := Step(t, op).value;
    assert r.modificacoes[..|t.modificacoes|] == t.modificacoes;
    assert r.observacoes[..|t.observacoes|] == t.observacoes;
  }

  /** The old and new values of an urgency or severity record read back as the integers themselves. */
  lemma AuditValuesReadBack(t: TicketState, op: Operacao)
    requires Wellformed(t)
    requires op.NovaUrgencia? || op.NovaGravidade?
    requires Step(t, op).Success?
    ensures var m := Step(t, op).value.modificacoes[|t.modificacoes|];
      var antes := if op.NovaUrgencia? then t.urgencia else t.gravidade;
      var depois := if op.NovaUrgencia? then op.urgencia else op.gravidade;
      ScanInt(m.valorAnterior) == Some((antes, |m.valorAnterior|)) &&
      ScanInt(m.valorNovo) == Some((depois, |m.valorNovo|))
  {
    StepAudit(t, op);
    var m := Step(t, op).value.modificacoes[|t.modificacoes|];
    ScanIntText(if op.NovaUrgencia? then t.urgencia else t.gravidade, "");
    ScanIntText(if op.NovaUrgencia? then op.urgencia else op.gravidade, "");
    assert m.valorAnterior + "" == m.valorAnterior;
    assert m.valorNovo + "" == m.valorNovo;
  }

  /**
   * Dates: only the start sets `dataInicio` (to the call's instant); only the
   * finish sets `dataConclusao` and the durations; a cancellation touches none of them.
   */
  lemma StepDates(t: TicketState, op: Operacao)
    requires Step(t, op).Success?
    ensures var r := Step(t, op).value;
      (op.Inicio? ==> r.dataInicio == Some(op.agora) && r.responsavel == op.responsavel) &&
      (!op.Inicio? ==> r.dataInicio == t.dataInicio && r.responsavel == t.responsavel) &&
      (op.Conclusao? ==>
        r.dataConclusao == Some(op.agora) && r.duracaoTotal == op.agora - t.dataAbertura &&
        r.duracaoExecucao == (if t.dataInicio.Some? then op.agora - t.dataInicio.value else t.duracaoExecucao)) &&
      (!op.Conclusao? ==>
        r.dataConclusao == t.dataConclusao && r.duracaoTotal == t.duracaoTotal && r.duracaoExecucao == t.duracaoExecucao)
  {
  }

  /** No call moves a `finalizado` or `cancelado` ticket: the three transitions refuse, the rest keep the status. */
  lemma TerminalStepKeepsStatus(t: TicketState, op: Operacao)
    requires t.status.IsTerminal()
    ensures op.Alvo().Some? ==> Step(t, op).Failure?
    ensures Apply(t, op).status == t.status
  {
  }

  // ---------------------------------------------------------------------------
  // The invariant

  lemma {:induction false} StatusTrailAppend(mods: seq<Modificacao>, m: Modificacao)
    ensures StatusTrail(mods + [m]) == StatusTrail(mods) + (if m.campoModificado == "status" then [m] else [])
  {
    assert (mods + [m])[..|mods + [m]| - 1] == mods;
  }

  lemma {:induction false} PathAppend(de: Status, trail: seq<Modificacao>, meio: Status, m: Modificacao, ate: Status)
    requires Path(de, trail, meio)
    requires m.valorAnterior == meio.Text() && m.valorNovo == ate.Text() && Transicao(meio, ate)
    ensures Path(de, trail + [m], ate)
    decreases |trail|
  {
    assert StatusFromText(ate.Text()) == Some(ate);
    if trail != [] {
      var proximo := StatusFromText(trail[0].valorNovo).value;
      PathAppend(proximo, trail[1..], meio, m, ate);
      assert (trail + [m])[1..] == trail[1..] + [m];
    } else {
      assert ([m])[1..] == [];
    }
  }

  /** A walk that moved at all ends with a record into its final status, and never comes back to `aberto`. */
  lemma {:induction false} PathEnd(de: Status, trail: seq<Modificacao>, ate: Status)
    requires Path(de, trail, ate)
    ensures trail == [] <==> de == ate
    ensures trail != [] ==> trail[|trail| - 1].valorNovo == ate.Text() && ate != Aberto
    decreases |trail|
  {
    if trail != [] {
      var proximo := StatusFromText(trail[0].valorNovo).value;
      PathEnd(proximo, trail[1..], ate);
      if trail[1..] == [] {
        assert proximo == ate;
      }
    }
  }

  lemma PassouAppend(trail: seq<Modificacao>, m: Modificacao)
    ensures PassouPorEmCurso(trail + [m]) <==> PassouPorEmCurso(trail) || m.valorNovo == "em_curso"
  {
    var s := trail + [m];
    if PassouPorEmCurso(s) && m.valorNovo != "em_curso" {
      var i :| 0 <= i < |s| && s[i].valorNovo == "em_curso";
      assert i < |trail| && trail[i] == s[i];
    }
    if PassouPorEmCurso(trail) {
      var i :| 0 <= i < |trail| && trail[i].valorNovo == "em_curso";
      assert s[i] == trail[i];
    }
    if m.valorNovo == "em_curso" {
      assert s[|trail|] == m;
    }
  }

  /** A status record appended to a wellformed history extends the walk and the `em_curso` visit. */
  lemma StatusRecordKeepsTrail(t: TicketState, campo: string, anterior: string, novo: string,
                               usuarioID: string, agora: int, modID: string)
    ensures var r := Registrada(t, campo, anterior, novo, usuarioID, agora, modID);
      var m := Modificacao(modID, t.id, usuarioID, campo, anterior, novo, agora);
      StatusTrail(r.modificacoes) == StatusTrail(t.modificacoes) + (if campo == "status" then [m] else []) &&
      (PassouPorEmCurso(StatusTrail(r.modificacoes)) <==>
        PassouPorEmCurso(StatusTrail(t.modificacoes)) || (campo == "status" && novo == "em_curso"))
  {
    var m := Modificacao(modID, t.id, usuarioID, campo, anterior, novo, agora);
    StatusTrailAppend(t.modificacoes, m);
    if campo == "status" {
      PassouAppend(StatusTrail(t.modificacoes), m);
    } else {
      assert StatusTrail(t.modificacoes) + [] == StatusTrail(t.modificacoes);
    }
  }

  /** Appending a record that names the ticket keeps every record named. */
  lemma PertenceAppend(t: TicketState, r: TicketState)
    requires Pertence(t) && r.id == t.id
    requires |r.modificacoes| >= |t.modificacoes| && r.modificacoes[..|t.modificacoes|] == t.modificacoes
    requires |r.observacoes| >= |t.observacoes| && r.observacoes[..|t.observacoes|] == t.observacoes
    requires forall i :: |t.modificacoes| <= i < |r.modificacoes| ==> r.modificacoes[i].ticketID == t.id
    requires forall i :: |t.observacoes| <= i < |r.observacoes| ==> r.observacoes[i].ticketID == t.id
    ensures Pertence(r)
  {
    forall i | 0 <= i < |t.modificacoes|
      ensures r.modificacoes[i].ticketID == t.id
    {
      assert r.modificacoes[i] == r.modificacoes[..|t.modificacoes|][i];
    }
    forall i | 0 <= i < |t.observacoes|
      ensures r.observacoes[i].ticketID == t.id
    {
      assert r.observacoes[i] == r.observacoes[..|t.observacoes|][i];
    }
  }

  lemma PertenceAfterStep(t: TicketState, op: Operacao)
    requires Pertence(t)
    requires Step(t, op).Success?
    ensures Pertence(Step(t, op).value)
  {
    StepAudit(t, op);
  }

  lemma InicioKeepsWellformed(t: TicketState, responsavel: string, agora: int, modID: string)
    requires Wellformed(t) && t.status == Aberto
    ensures Wellformed(Step(t, Inicio(responsavel, agora, modID)).value)
  {
    var trail := StatusTrail(t.modificacoes);
    PathEnd(Aberto, trail, t.status);
    var iniciado := t.(status := EmCurso, responsavel := responsavel, dataInicio := Some(agora));
    StatusRecordKeepsTrail(iniciado, "status", "aberto", "em_curso", responsavel, agora, modID);
    PathAppend(Aberto, trail, Aberto, Modificacao(modID, t.id, responsavel, "status", "aberto", "em_curso", agora), EmCurso);
    PertenceAfterStep(t, Inicio(responsavel, agora, modID));
  }

  lemma ConclusaoKeepsWellformed(t: TicketState, usuarioID: string, agora: int, modID: string)
    requires Wellformed(t) && t.status == EmCurso
    ensures Wellformed(Step(t, Conclusao(usuarioID, agora, modID)).value)
  {
    var trail := StatusTrail(t.modificacoes);
    PathEnd(Aberto, trail, t.status);
    assert trail[|trail| - 1].valorNovo == "em_curso";
    assert PassouPorEmCurso(trail);
    var r := Step(t, Conclusao(usuarioID, agora, modID)).value;
    var concluido := t.(status := Finalizado, dataConclusao := Some(agora), duracaoTotal := r.duracaoTotal,
                        duracaoExecucao := r.duracaoExecucao);
    StatusRecordKeepsTrail(concluido, "status", "em_curso", "finalizado", usuarioID, agora, modID);
    PathAppend(Aberto, trail, EmCurso, Modificacao(modID, t.id, usuarioID, "status", "em_curso", "finalizado", agora), Finalizado);
    PertenceAfterStep(t, Conclusao(usuarioID, agora, modID));
  }

  lemma CancelamentoKeepsWellformed(t: TicketState, usuarioID: string, agora: int, modID: string)
    requires Wellformed(t) && !t.status.IsTerminal()
    ensures Wellformed(Step(t, Cancelamento(usuarioID, agora, modID)).value)
  {
    var trail := StatusTrail(t.modificacoes);
    StatusRecordKeepsTrail(t.(status := Cancelado), "status", t.status.Text(), "cancelado", usuarioID, agora, modID);
    PathAppend(Aberto, trail, t.status, Modificacao(modID, t.id, usuarioID, "status", t.status.Text(), "cancelado", agora), Cancelado);
    PertenceAfterStep(t, Cancelamento(usuarioID, agora, modID));
  }

  /** A record of a field other than the status leaves the status trail as it was. */
  lemma OtherRecordKeepsTrail(t: TicketState, campo: string, anterior: string, novo: string,
                              usuarioID: string, agora: int, modID: string)
    requires campo != "status"
    ensures StatusTrail(Registrada(t, campo, anterior, novo, usuarioID, agora, modID).modificacoes) == StatusTrail(t.modificacoes)
  {
    var m := Modificacao(modID, t.id, usuarioID, campo, anterior, novo, agora);
    StatusTrailAppend(t.modificacoes, m);
    assert StatusTrail(t.modificacoes) + [] == StatusTrail(t.modificacoes);
  }

  lemma UrgenciaKeepsWellformed(t: TicketState, urgencia: int, usuarioID: string, agora: int, modID: string)
    requires Wellformed(t) && InRange(urgencia)
    ensures Wellformed(Step(t, NovaUrgencia(urgencia, usuarioID, agora, modID)).value)
  {
    OtherRecordKeepsTrail(t.(urgencia := urgencia), "urgencia", IntText(t.urgencia), IntText(urgencia), usuarioID, agora, modID);
    PertenceAfterStep(t, NovaUrgencia(urgencia, usuarioID, agora, modID));
  }

  lemma GravidadeKeepsWellformed(t: TicketState, gravidade: int, usuarioID: string, agora: int, modID: string)
    requires Wellformed(t) && InRange(gravidade)
    ensures Wellformed(Step(t, NovaGravidade(gravidade, usuarioID, agora, modID)).value)
  {
    OtherRecordKeepsTrail(t.(gravidade := gravidade), "gravidade", IntText(t.gravidade), IntText(gravidade), usuarioID, agora, modID);
    PertenceAfterStep(t, NovaGravidade(gravidade, usuarioID, agora, modID));
  }

  /** Every successful call keeps the invariant. */
  lemma StepPreservesWellformed(t: TicketState, op: Operacao)
    requires Wellformed(t)
    requires Step(t, op).Success?
    ensures Wellformed(Step(t, op).value)
  {
    match op
    case Inicio(responsavel, agora, modID) => InicioKeepsWellformed(t, responsavel, agora, modID);
    case Conclusao(usuarioID, agora, modID) => ConclusaoKeepsWellformed(t, usuarioID, agora, modID);
    case Cancelamento(usuarioID, agora, modID) => CancelamentoKeepsWellformed(t, usuarioID, agora, modID);
    case NovaUrgencia(urgencia, usuarioID, agora, modID) => UrgenciaKeepsWellformed(t, urgencia, usuarioID, agora, modID);
    case NovaGravidade(gravidade, usuarioID, agora, modID) => GravidadeKeepsWellformed(t, gravidade, usuarioID, agora, modID);
    case InformacaoAdicional(_, _, _, _, _) =>
    case NovaObservacao(_, _, _, _) => PertenceAfterStep(t, op);
  }

  // ---------------------------------------------------------------------------
  // Any sequence of calls

  /** The invariant does not read the texts, the subcategory or the optional contact data. */
  lemma WellformedIgnoresTexts(a: TicketState, b: TicketState)
    requires a.id == b.id && a.dataAbertura == b.dataAbertura && a.status == b.status
    requires a.urgencia == b.urgencia && a.gravidade == b.gravidade
    requires a.dataInicio == b.dataInicio && a.dataConclusao == b.dataConclusao
    requires a.duracaoTotal == b.duracaoTotal && a.duracaoExecucao == b.duracaoExecucao
    requires a.modificacoes == b.modificacoes && a.observacoes == b.observacoes
    ensures Wellformed(a) <==> Wellformed(b)
  {
  }

  /** A ticket fresh from NovoTicket satisfies the invariant. */
  lemma NovoTicketWellformed(id: string, titulo: string, descricao: string, categoria: Categoria,
                             subcategoria: Subcategoria, abertoPor: string, agora: int)
    requires NovoTicket(id, titulo, descricao, categoria, subcategoria, abertoPor, agora).Success?
    ensures Wellformed(NovoTicket(id, titulo, descricao, categoria, subcategoria, abertoPor, agora).value)
  {
    assert StatusTrail([]) == [];
  }

  /** A call keeps the invariant whether it succeeds or fails. */
  lemma ApplyPreservesWellformed(t: TicketState, op: Operacao)
    requires Wellformed(t)
    ensures Wellformed(Apply(t, op))
  {
    if Step(t, op).Success? {
      StepPreservesWellformed(t, op);
    }
  }

  /** The invariant holds after any sequence of calls, whichever of them fail. */
  lemma {:induction false} ReplayPreservesWellformed(t: TicketState, ops: seq<Operacao>)
    requires Wellformed(t)
    ensures Wellformed(Replay(t, ops))
    decreases |ops|
  {
    if ops != [] {
      ApplyPreservesWellformed(t, ops[0]);
      ReplayPreservesWellformed(Apply(t, ops[0]), ops[1..]);
    }
  }

  /** Once `finalizado` or `cancelado`, a ticket keeps its status whatever is called on it. */
  lemma {:induction false} TerminalIsFinal(t: TicketState, ops: seq<Operacao>)
    requires t.status.IsTerminal()
    ensures Replay(t, ops).status == t.status
    decreases |ops|
  {
    if ops != [] {
      TerminalStepKeepsStatus(t, ops[0]);
      TerminalIsFinal(Apply(t, ops[0]), ops[1..]);
    }
  }

  /** The status never moves backwards along the machine. */
  lemma {:induction false} RankNeverDecreases(t: TicketState, ops: seq<Operacao>)
    ensures Rank(Replay(t, ops).status) >= Rank(t.status)
    ensures Rank(Replay(t, ops).status) == Rank(t.status) ==> (Replay(t, ops).status == t.status)
    decreases |ops|
  {
    if ops != [] {
      RankNeverDecreases(Apply(t, ops[0]), ops[1..]);
    }
  }

  /** Audit records and observations are only ever appended: earlier histories are prefixes of later ones. */
  lemma {:induction false} HistoryAppendOnly(t: TicketState, ops: seq<Operacao>)
    ensures var r := Replay(t, ops);
      |t.modificacoes| <= |r.modificacoes| && r.modificacoes[..|t.modificacoes|] == t.modificacoes &&
      |t.observacoes| <= |r.observacoes| && r.observacoes[..|t.observacoes|] == t.observacoes
    decreases |ops|
  {
    if ops != [] {
      var u := Apply(t, ops[0]);
      if Step(t, ops[0]).Success? {
        StepAudit(t, ops[0]);
      }
      HistoryAppendOnly(u, ops[1..]);
      var r := Replay(t, ops);
      assert r.modificacoes[..|t.modificacoes|] == r.modificacoes[..|u.modificacoes|][..|t.modificacoes|];
      assert r.observacoes[..|t.observacoes|] == r.observacoes[..|u.observacoes|][..|t.observacoes|];
    }
  }

  /** The identity fields (id, title, description, category, opener, opening date) survive every mutator. */
  lemma {:induction false} IdentityKept(t: TicketState, ops: seq<Operacao>)
    ensures MesmaIdentidade(t, Replay(t, ops))
    decreases |ops|
  {
    if ops != [] {
      IdentityKept(Apply(t, ops[0]), ops[1..]);
    }
  }
}
