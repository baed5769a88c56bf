# nox_tickets core in Dafny

A model of the core of nox_tickets, a support-ticket service written in Go. It covers:

- the ticket aggregate: its status machine `aberto` → `em_curso` → `finalizado`, with `cancelado` reachable from the first two; urgency and severity in [1, 5]; the dates and durations of an attendance; the audit history of modifications and the list of observations;
- the five use cases that drive it: create, update fields, change status, add an observation, list with manual paging;
- three helpers of the PostgreSQL repository: reading an `interval` column as `HH:MM:SS`, writing a duration in that form, and building the `WHERE` clause with numbered `$n` arguments.

Layout, one Dafny module per file:

- `wrappers.dfy`: `Option` and `Result`.
- `go_int.dfy`: Go's 64-bit `int`: its range, two's-complement wrap-around, and division and remainder truncated toward zero.
- `decimal.dfy`: `%d` / `%02d` text of integers and one `%d` verb of `fmt.Sscanf`, with round-trip lemmas.
- `ticket_domain.dfy`: the entity. `TicketState` is the value of a ticket. `Step` is the reference semantics of every mutator on values. The class `Ticket` holds the same fields and changes them in place; each method states its new `State()` through `Step`'s pieces. The eleven `Atribuir*` methods are one-field writers: each stands for one struct-field assignment inside a Go mutator, such as `t.Status = StatusEmCurso` in ticket.go, and models no operation of its own.
- `ticket_lifecycle.dfy`: the invariant `Wellformed` and its preservation by every mutator and by any sequence of calls. Also: terminal statuses are final, the status only moves forward, histories are append-only, and every status change leaves one audit record.
- `ticket_store.dfy`: the repository port as an in-memory class. Tickets are stored as values by id, and every write is logged.
- `criar_ticket.dfy`, `atualizar.dfy`, `atualizar_status.dfy`, `adicionar_observacao.dfy`, `listar.dfy`: the use cases. Each has a pure function of the loaded ticket, lemmas about it, and an imperative `Execute` proved against that function.
- `postgres_interval.dfy`, `postgres_where.dfy`: the repository helpers.

Time is modelled as integer nanoseconds, as `time.Time` and `time.Duration` hold it. The clock (`time.Now`) and fresh identifiers (`uuid.New`) are parameters of each operation: `agora`, `id`, `modID` and `obsID`.

Where the code and its documentation disagree, the model follows the code. Three places where this matters:

- the observation use case has no status guard, so a closed ticket still takes observations;
- the listing has no `ORDER BY`, so the page order is whatever `List` returns;
- the status-change output reports the requested status text.

## Model

| member | source | states |
|---|---|---|
| TicketDomain.StatusFromText | internal/domain/ticket/ticket.go:18-23 | a text names a status exactly when it is one of the four constants, and the status found spells that text |
| TicketDomain.NovoTicket | internal/domain/ticket/ticket.go:102-128 | fails exactly when title, description, category or opener is empty, with the error of the first empty one in that order; otherwise a fresh `aberto` ticket with urgency and severity 1, the opening instant, no assignee, contact, start or finish, no merchant, NOX id, CPF or platform, zero durations, and empty histories |
| TicketDomain.Step | internal/domain/ticket/ticket.go:131-244 | a transition succeeds exactly when the status machine has the edge and then lands on its target; the other calls keep the status; no call touches id, title, description, category, opener or opening date |
| TicketDomain.Ticket.FromState | internal/domain/ticket/ticket.go:77-100 | the object holds exactly the given field values |
| TicketDomain.Ticket.SetInformacaoAdicional | internal/domain/ticket/ticket.go:131-147 | each optional field is overwritten only by a non-empty argument and never cleared; nothing else changes |
| TicketDomain.Ticket.IniciarAtendimento | internal/domain/ticket/ticket.go:150-161 | succeeds exactly from `aberto`; then `em_curso`, the assignee, the start instant and one `status` record `aberto`→`em_curso`; on refusal the ticket is unchanged |
| TicketDomain.Ticket.Concluir | internal/domain/ticket/ticket.go:164-181 | succeeds exactly from `em_curso`; then `finalizado`, the finish instant, the total and execution durations and one `status` record; on refusal the ticket is unchanged |
| TicketDomain.Ticket.Cancelar | internal/domain/ticket/ticket.go:184-193 | succeeds exactly from a non-terminal status; then `cancelado` and one `status` record from the old status, with dates untouched; on refusal the ticket is unchanged |
| TicketDomain.Ticket.AdicionarObservacao | internal/domain/ticket/ticket.go:196-208 | appends exactly one observation owned by the ticket at the end of the list; nothing else changes |
| TicketDomain.Ticket.SetUrgencia | internal/domain/ticket/ticket.go:210-218 | succeeds exactly for a value in [1, 5]; then the value and one `urgencia` record of the old and new values as `%d` text; on refusal the ticket is unchanged |
| TicketDomain.Ticket.SetGravidade | internal/domain/ticket/ticket.go:220-228 | the same for severity |
| TicketDomain.Ticket.RegistrarModificacao | internal/domain/ticket/ticket.go:231-244 | appends one audit record owned by the ticket, with the field, both values, the user and the instant |
| TicketDomain.Ticket.SetTitulo | internal/application/usecases/ticket/atualizar.go:64-68 | an accepted title is stored and anything refused leaves the ticket unchanged; status and histories are never touched |
| TicketDomain.Ticket.SetDescricao | internal/application/usecases/ticket/atualizar.go:69-73 | the same for the description |
| TicketDomain.Ticket.SetCategoria | internal/application/usecases/ticket/atualizar.go:74-78 | the same for the category |
| TicketLifecycle.StepAudit | internal/domain/ticket/ticket.go:150-244 | each audited call appends exactly one record, owned by the ticket and naming the field and its old and new values; other calls leave the audit history alone; observations grow only by an observation call; earlier records are kept as a prefix |
| TicketLifecycle.AuditValuesReadBack | internal/domain/ticket/ticket.go:215-217 | the old and new values of an urgency or severity record scan back with `%d` as exactly those integers |
| TicketLifecycle.StepDates | internal/domain/ticket/ticket.go:150-193 | only the start sets the start date, to the call's instant; only the finish sets the finish date and the durations, measured from opening and from start; a cancellation touches none of them |
| TicketLifecycle.TerminalStepKeepsStatus | internal/domain/ticket/ticket.go:150-193 | on a `finalizado` or `cancelado` ticket every transition is refused and no call changes the status |
| TicketLifecycle.PathEnd | internal/domain/ticket/ticket.go:150-193 | a walk of status records is empty exactly when it did not move, and a non-empty one ends with a record into the current status, which is never `aberto` |
| TicketLifecycle.StatusRecordKeepsTrail | internal/domain/ticket/ticket.go:231-244 | an appended record joins the status trail exactly when its field is `status`, and the trail has visited `em_curso` exactly when it had before or the new record moves into `em_curso` |
| TicketLifecycle.PathAppend | internal/domain/ticket/ticket.go:150-193 | a walk of status records from one status to another, followed by a record for a transition of the machine out of its end, is a walk to the transition's target |
| TicketLifecycle.OtherRecordKeepsTrail | internal/domain/ticket/ticket.go:210-228 | an urgency or severity record leaves the status trail unchanged |
| TicketLifecycle.PertenceAfterStep | internal/domain/ticket/ticket.go:196-244 | after any call every audit record and observation still names its ticket |
| TicketLifecycle.InicioKeepsWellformed | internal/domain/ticket/ticket.go:150-161 | a start from `aberto` keeps the invariant |
| TicketLifecycle.ConclusaoKeepsWellformed | internal/domain/ticket/ticket.go:164-181 | a finish from `em_curso` keeps the invariant, including the durations measured from opening and from start |
| TicketLifecycle.CancelamentoKeepsWellformed | internal/domain/ticket/ticket.go:184-193 | a cancellation keeps the invariant |
| TicketLifecycle.UrgenciaKeepsWellformed | internal/domain/ticket/ticket.go:210-218 | an urgency change in range keeps the invariant |
| TicketLifecycle.GravidadeKeepsWellformed | internal/domain/ticket/ticket.go:220-228 | a severity change in range keeps the invariant |
| TicketLifecycle.StepPreservesWellformed | internal/domain/ticket/ticket.go:131-244 | every successful mutator call keeps the invariant |
| TicketLifecycle.WellformedIgnoresTexts | internal/domain/ticket/ticket.go:131-147 | the invariant does not depend on texts, subcategory, assignee or contact data, so SetInformacaoAdicional and the text setters cannot break it |
| TicketLifecycle.NovoTicketWellformed | internal/domain/ticket/ticket.go:102-128 | a ticket fresh from NovoTicket satisfies the invariant |
| TicketLifecycle.ApplyPreservesWellformed | internal/domain/ticket/ticket.go:131-244 | a call keeps the invariant whether it succeeds or fails |
| TicketLifecycle.ReplayPreservesWellformed | internal/domain/ticket/ticket.go:131-244 | any sequence of calls keeps the invariant |
| TicketLifecycle.TerminalIsFinal | internal/domain/ticket/ticket.go:184-186 | once `finalizado` or `cancelado`, no sequence of calls changes the status |
| TicketLifecycle.RankNeverDecreases | internal/domain/ticket/ticket.go:150-193 | over any sequence of calls the status never moves back along the machine, and equal rank means the same status |
| TicketLifecycle.HistoryAppendOnly | internal/domain/ticket/ticket.go:196-244 | over any sequence of calls earlier audit records and observations remain a prefix of the later ones |
| TicketLifecycle.IdentityKept | internal/domain/ticket/ticket.go:131-244 | over any sequence of calls id, title, description, category, opener and opening date never change |
| TicketStore.Repository.GetByID | internal/domain/ticket/repository.go:9-10 | succeeds exactly for a stored id and gives a fresh object holding the stored value; otherwise not-found |
| TicketStore.Repository.Create | internal/domain/ticket/repository.go:6-7 | stores the ticket under its id and logs one creation; an id already stored is refused with nothing changed |
| TicketStore.Repository.Update | internal/domain/ticket/repository.go:15-16 | overwrites the stored ticket with the object's value and logs one update |
| CriarTicket.TicketCriado | internal/application/usecases/ticket/criar_ticket.go:50-89 | range errors on urgency then severity come first, then NovoTicket's errors; a built ticket has the input's texts, levels and non-empty optional data; with an assignee it is `em_curso` with the start instant and exactly one status record, otherwise `aberto` with no record |
| CriarTicket.TicketCriadoWellformed | internal/application/usecases/ticket/criar_ticket.go:50-89 | the ticket the use case builds satisfies the aggregate's invariant |
| CriarTicket.Completar | internal/application/usecases/ticket/criar_ticket.go:71-89 | the object steps after NovoTicket give the ticket TicketCriado describes |
| CriarTicket.Execute | internal/application/usecases/ticket/criar_ticket.go:50-107 | on a validation error nothing is written; otherwise exactly one Create of the built ticket, and the output echoes the stored ticket |
| AtualizarTicket.ClosedTicketRefused | internal/application/usecases/ticket/atualizar.go:58-61 | a `finalizado` or `cancelado` ticket is refused before any field changes |
| AtualizarTicket.UpdateFailsIff | internal/application/usecases/ticket/atualizar.go:58-88 | the update fails exactly when the ticket is closed, a given text is refused, or a given urgency or severity is out of range |
| AtualizarTicket.NiveisEffect | internal/application/usecases/ticket/atualizar.go:79-88 | only urgency, severity and the audit history change; each given value is set and adds one record; the old records are a prefix |
| AtualizarTicket.UpdateEffect | internal/application/usecases/ticket/atualizar.go:63-118 | given fields take the given values and the others keep theirs; an optional datum given non-empty is stored, an absent or empty one leaves its field alone; status, dates, durations and observations never change; one audit record per urgency or severity given |
| AtualizarTicket.NiveisKeepWellformed | internal/application/usecases/ticket/atualizar.go:79-88 | the urgency and severity steps keep the aggregate's invariant |
| AtualizarTicket.UpdateKeepsWellformed | internal/application/usecases/ticket/atualizar.go:51-118 | the updated ticket still satisfies the aggregate's invariant |
| AtualizarTicket.AplicarTextos | internal/application/usecases/ticket/atualizar.go:64-78 | the text setters on the object do what ComTextos says, stopping at the first refusal |
| AtualizarTicket.AplicarNiveis | internal/application/usecases/ticket/atualizar.go:79-88 | SetUrgencia then SetGravidade on the object do what ComNiveis says |
| AtualizarTicket.Aplicar | internal/application/usecases/ticket/atualizar.go:58-118 | the object steps from the closed-ticket guard to SetInformacaoAdicional give TicketAtualizado of the loaded value |
| AtualizarTicket.Execute | internal/application/usecases/ticket/atualizar.go:51-137 | a missing ticket or any refusal writes nothing; otherwise exactly one Update of the ticket TicketAtualizado gives, and the output describes it |
| AtualizarStatus.StatusChangeIff | internal/application/usecases/ticket/atualizar_status.go:50-69 | the change succeeds exactly when the text names `em_curso`, `finalizado` or `cancelado`, an assignee comes with `em_curso`, and the machine has the edge; the ticket then holds the requested status and keeps its identity |
| AtualizarStatus.StatusChangeErrors | internal/application/usecases/ticket/atualizar_status.go:50-69 | which error each refusal reports: unknown or `aberto` status, missing assignee, and each entity guard |
| AtualizarStatus.StatusChangeDates | internal/application/usecases/ticket/atualizar_status.go:76-94 | on a well-formed ticket the output of a start carries the start instant and no finish date; a finish carries both dates; a cancellation carries no finish date |
| AtualizarStatus.StatusChangeKeepsWellformed | internal/application/usecases/ticket/atualizar_status.go:49-69 | the changed ticket still satisfies the aggregate's invariant |
| AtualizarStatus.Aplicar | internal/application/usecases/ticket/atualizar_status.go:50-69 | the switch on the object does what StatusAtualizado says of the loaded value |
| AtualizarStatus.Execute | internal/application/usecases/ticket/atualizar_status.go:42-95 | a missing ticket, an unknown status, a missing assignee or a refused transition writes nothing; otherwise exactly one Update of the changed ticket |
| AdicionarObservacao.ObservacaoAppended | internal/application/usecases/ticket/adicionar_observacao.go:54-62 | the observation is appended at the end whatever the status, nothing else changes, and the last element read back is the new observation |
| AdicionarObservacao.ObservacaoKeepsWellformed | internal/application/usecases/ticket/adicionar_observacao.go:54-65 | the ticket with its new observation still satisfies the aggregate's invariant |
| AdicionarObservacao.Execute | internal/application/usecases/ticket/adicionar_observacao.go:42-78 | an empty text is refused before the lookup and a missing ticket after it, with nothing written; otherwise exactly one Update with the observation appended, and the output echoes it |
| Listar.PaginaNormalizada | internal/application/usecases/ticket/listar.go:55-57 | a page below 1 becomes 1, and a valid page is kept |
| Listar.ItensNormalizados | internal/application/usecases/ticket/listar.go:58-60 | the page size is at least 1; a valid size is kept and any other becomes 10 |
| Listar.FiltrosExact | internal/application/usecases/ticket/listar.go:62-78 | the filters hold exactly the status and category given, each at most once, the assignee given or none, and never an opener |
| Listar.TotalPaginasIsCeiling | internal/application/usecases/ticket/listar.go:118-119 | the page count is the ceiling of total / size, zero exactly for an empty result, and never more than the total |
| Listar.PaginaContents | internal/application/usecases/ticket/listar.go:86-100 | a page holds at most a page's worth of tickets, in order, from its first index on, and a full page unless it is the last |
| Listar.PaginaNonEmptyIff | internal/application/usecases/ticket/listar.go:86-119 | a requested page is non-empty exactly when its number is at most the page count |
| Listar.InicioBelowTotalIff | internal/application/usecases/ticket/listar.go:88-97 | a page starts inside the result exactly when its number is at most the page count |
| Listar.PaginasPrefix | internal/application/usecases/ticket/listar.go:86-100 | pages 1 to k put end to end are the first k·size tickets |
| Listar.PagesCoverListing | internal/application/usecases/ticket/listar.go:86-119 | reading every page in order gives back the whole result, each ticket once |
| Listar.Resumos | internal/application/usecases/ticket/listar.go:102-116 | one summary per ticket, in order |
| Listar.ResumosDaPagina | internal/application/usecases/ticket/listar.go:86-116 | the summaries of a page: at most a page's worth, some exactly when the page exists, each of the ticket at its place in the result |
| Listar.ListagemOutput | internal/application/usecases/ticket/listar.go:53-127 | on success the total and page count describe the whole result, the current page is the normalised request, and each line summarises the ticket at its place |
| Listar.PaginaComoEscritaSemEstouro | internal/application/usecases/ticket/listar.go:86-100 | while page times size fits in an `int`, the paging as written in 64-bit arithmetic cuts the intended page and never panics |
| Listar.TotalPaginasComoEscritoSemEstouro | internal/application/usecases/ticket/listar.go:118-119 | while total + size − 1 fits in an `int`, the page count as written is the intended one |
| Listar.PaginaEnormeEntraEmPanico | internal/application/usecases/ticket/listar.go:88-97 | page 2^62+1 of size 2 starts at a wrapped negative index: the slice as written panics, where the intended page is empty |
| Listar.PaginaEnormeVoltaAoInicio | internal/application/usecases/ticket/listar.go:88-100 | page 2^62+1 of size 4 starts at a wrapped index 0: of three tickets on one page, the page as written returns all three, where the intended page is empty |
| Listar.TotalPaginasNegativo | internal/application/usecases/ticket/listar.go:119 | two tickets with pages of MaxInt64: the page count as written is −1, where the intended count is 1 |
| Listar.TotalPaginasCorrigidoExato | internal/application/usecases/ticket/listar.go:118-119 | `total / size`, plus one when a remainder is left, is the ceiling page count for every total and size |
| Listar.InicioSemEstouro | internal/application/usecases/ticket/listar.go:88 | a page within the page count starts inside the result, and computing its start in 64-bit arithmetic does not wrap |
| Listar.Paginar | internal/application/usecases/ticket/listar.go:86-119 | the corrected paging, whose every step wraps as Go's `int` does and none of them wraps, gives the intended page and the ceiling page count |
| Listar.Resumir | internal/application/usecases/ticket/listar.go:102-116 | the conversion loop gives one summary per ticket, in order |
| Listar.Execute | internal/application/usecases/ticket/listar.go:53-127 | for page numbers and sizes that fit in an `int`: one List with the input's filters; its error is passed on, otherwise the output is the listing of its result |
| Decimal.NatText | internal/domain/ticket/ticket.go:217 | `%d` of a natural number is non-empty digits with no leading zero |
| Decimal.NatTextValue | internal/domain/ticket/ticket.go:217 | the digits of `%d` read back as the number |
| Decimal.ScanInt | internal/infrastructure/repository/postgres/ticket_repository.go:21 | a `%d` verb consumes at least one character and never more than the text |
| Decimal.ScanDigits | internal/infrastructure/repository/postgres/ticket_repository.go:21 | a run of digits followed by a non-digit is read as its value and consumed whole |
| Decimal.ScanIntText | internal/domain/ticket/ticket.go:215-217 | `%d` of a non-negative int scans back to the int, stopping right after it |
| Decimal.ScanPad2 | internal/infrastructure/repository/postgres/ticket_repository.go:38 | `%02d` of a non-negative int scans back to the int, stopping right after it |
| PostgresInterval.LerInteiro | internal/infrastructure/repository/postgres/ticket_repository.go:21 | a verb that reads moves forward within the text; one that fails reports where it started |
| PostgresInterval.Escanear | internal/infrastructure/repository/postgres/ticket_repository.go:21 | a successful scan gives one number per `%d` verb; a failure is reported inside the text |
| PostgresInterval.EscanearTres | internal/infrastructure/repository/postgres/ticket_repository.go:21 | three numbers at their positions, with colons between them, are what `%d:%d:%d` reads |
| PostgresInterval.ParseZeroTexts | internal/infrastructure/repository/postgres/ticket_repository.go:15-17 | the empty text and `00:00:00` are zero, and `00:00:00` would also scan as zero |
| PostgresInterval.ParseCampos | internal/infrastructure/repository/postgres/ticket_repository.go:19-30 | outside the two short-cut texts the value is hours, minutes and seconds of the three numbers read |
| PostgresInterval.ParseFields | internal/infrastructure/repository/postgres/ticket_repository.go:14-31 | `H:M:S` written with `%d` reads back as H hours, M minutes and S seconds |
| PostgresInterval.ParseWholeSeconds | internal/infrastructure/repository/postgres/ticket_repository.go:26-30 | every value read is a whole number of seconds |
| PostgresInterval.ParseRejectsNonNumber | internal/infrastructure/repository/postgres/ticket_repository.go:21-24 | a non-empty text that starts with neither a digit nor a sign is refused at index 0 |
| PostgresInterval.ParseRejectsMissingColon | internal/infrastructure/repository/postgres/ticket_repository.go:21-24 | a first number not followed by `:` is refused at the index right after it |
| PostgresInterval.FormatShape | internal/infrastructure/repository/postgres/ticket_repository.go:34-39 | for a non-negative duration: whole hours with no leading zero, then minutes and seconds in [0, 59] with two digits each |
| PostgresInterval.SplitSeconds | internal/infrastructure/repository/postgres/ticket_repository.go:35-37 | whole hours, minutes within the hour and seconds within the minute add up to the whole seconds of the duration |
| PostgresInterval.FormatParseRoundTrip | internal/infrastructure/repository/postgres/ticket_repository.go:14-39 | writing a non-negative duration and reading it back gives it truncated to the whole second |
| PostgresWhere.Numeros | internal/infrastructure/repository/postgres/ticket_repository.go:195-198 | n consecutive argument numbers from the first one |
| PostgresWhere.Textos | internal/infrastructure/repository/postgres/ticket_repository.go:200-223 | one text per condition, in order |
| PostgresWhere.PiecesNumbered | internal/infrastructure/repository/postgres/ticket_repository.go:193-223 | each of the four filters numbers its own consecutive run of arguments, after the previous filters |
| PostgresWhere.PlaceholdersConsecutive | internal/infrastructure/repository/postgres/ticket_repository.go:186-223 | the placeholders are `$1`, `$2`, … in order of appearance, one per argument, so `$k` is bound to argument k |
| PostgresWhere.OnePlaceholderPerValue | internal/infrastructure/repository/postgres/ticket_repository.go:193-211 | given statuses make one `ANY(ARRAY[...])` condition numbered from 1; given categories make one `ILIKE` condition numbered right after them |
| PostgresWhere.NoFiltersNoWhere | internal/infrastructure/repository/postgres/ticket_repository.go:236-238 | no `WHERE` is written exactly when no filter is set |
| PostgresWhere.WherePieces | internal/infrastructure/repository/postgres/ticket_repository.go:193-223 | the condition texts are the status, category, assignee and opener pieces, each present exactly when its filter is set |
| PostgresWhere.ArrayTexto | internal/infrastructure/repository/postgres/ticket_repository.go:194-200 | placeholders numbered from n, joined by commas, form the status condition |
| PostgresWhere.IlikesTexto | internal/infrastructure/repository/postgres/ticket_repository.go:204-210 | `categoria ILIKE` tests numbered from n, joined by `OR`, form the category condition |
| PostgresWhere.FiltroStatus | internal/infrastructure/repository/postgres/ticket_repository.go:193-201 | with statuses: one condition more, numbered from the current count, each status appended to the arguments, and the count advanced by their number; without them nothing changes |
| PostgresWhere.FiltroCategoria | internal/infrastructure/repository/postgres/ticket_repository.go:203-211 | the same for categories |
| PostgresWhere.FiltroIgual | internal/infrastructure/repository/postgres/ticket_repository.go:213-223 | a non-empty value adds one `column = $n` condition, one argument and one to the count; an empty one changes nothing |
| PostgresWhere.MontarWhere | internal/infrastructure/repository/postgres/ticket_repository.go:186-223 | the builder produces exactly the conditions and arguments of the filter, and the count is one past the last argument |

## Findings

| source | as written | input that shows it | evidently intended | confidence | as-written member | corrected member |
|---|---|---|---|---|---|---|
| internal/application/usecases/ticket/listar.go:88-97 | `inicio := (input.Pagina - 1) * input.ItensPorPagina` wraps in `int`, and `tickets[inicio:fim]` is sliced whenever `inicio < total` | page 2^62+1, size 2, one ticket: `inicio` wraps to −2^63 and the slice panics | a page past the last one is empty | high, not executed | Listar.PaginaEnormeEntraEmPanico | Listar.Paginar |
| internal/application/usecases/ticket/listar.go:88-100 | the same wrapped start | page 2^62+1, size 4, three tickets: `inicio` wraps to 0 and the page returns all three tickets while the page count is 1 | a page past the last one is empty | high, not executed | Listar.PaginaEnormeVoltaAoInicio | Listar.Paginar |
| internal/application/usecases/ticket/listar.go:119 | `(total + input.ItensPorPagina - 1) / input.ItensPorPagina` wraps in `int` | two tickets, size MaxInt64: the sum wraps to MinInt64 and the count is −1 | the ceiling of total / size, here 1 | high, not executed | Listar.TotalPaginasNegativo | Listar.TotalPaginasCorrigidoExato |

The HTTP handler (internal/interfaces/http/handler/ticket_handler.go:239-250) accepts any positive `pagina` and `por_pagina` that `strconv.Atoi` reads, so these inputs reach the use case. `PaginaComoEscrita` and `TotalPaginasComoEscrito` model the code as written, in 64-bit arithmetic, and agree with the intended paging while nothing wraps (`PaginaComoEscritaSemEstouro`, `TotalPaginasComoEscritoSemEstouro`). `Paginar`, which `Execute` uses, computes the page count as `total / size` plus one for a remainder and returns an empty page past it, so no step leaves an `int`.

## Left out

- The clock is read once per operation. The Go mutators call `time.Now` separately for the change and for its audit record, so their instants may differ by a few nanoseconds.
- Fresh identifiers from `uuid.New` are parameters. The store refuses an id already taken, where the Go code relies on uuids being unique.
- The text rendering of output dates (`Format("2006-01-02 15:04:05")`) is not modelled. Outputs carry the instant itself; in the status-change output a missing date is `None`, where Go has `""`.
- Error texts are not modelled. Errors are named values, so `errors.New("urgência inválida")` in `SetUrgencia` and the exported `ErrUrgenciaInvalida` are the same value here.
- TicketDomain.Ticket.SetTitulo: ticket.go does not define SetTitulo, SetDescricao or SetCategoria. Their accept/refuse verdict is an input of the update use case, and an accepted call only stores its value.
- TicketStore.Repository: only GetByID, Create, Update and List are used by the modelled use cases. Delete, the observation and modification listings, ListarPorStatus and AtualizarStatus are not part of this model. SQL execution, transactions, row scanning and database errors are not modelled. Create and Update store the whole aggregate. The PostgreSQL Create inserts only the ticket row, and Update's behaviour on an unknown id (zero rows affected) is not modelled.
- Listar.Execute: the paging and page count are the corrected ones of `Paginar` (see Findings); for huge page numbers or sizes the Go code as written wraps, panics or reports a negative count, and Execute does not reproduce that. The repository's `List` is a function parameter. The rows it returns, and their order, are not modelled, since the query has no `ORDER BY`. Only the status, category and assignee filters are set by the use case. The other `TicketFiltros` fields (`DataInicio`, `DataFim`, `Urgencia`, `Gravidade`) are read by no code in the core and are not part of this model.
- Listar.Paginar: the corrected paging computes the page count first and cuts no page past it; the Go code as written computes the start first and wraps for huge page numbers (see Findings).
- Listar.TotalPaginasIsCeiling: stated for the intended page count on unbounded integers, which the corrected code computes; the Go expression as written wraps when total + size − 1 exceeds MaxInt64 (see Findings).
- Listar.PaginaNonEmptyIff: stated for the intended paging; as written, a huge page number wraps and may return tickets or panic (see Findings).
- Listar.PagesCoverListing: stated for the intended paging and page count, which the corrected code computes; not for Go's wrapped arithmetic (see Findings).
- Listar.ListagemOutput: describes the output of the corrected paging and page count, not Go's wrapped arithmetic for huge page numbers or sizes (see Findings).
- PostgresInterval.FormatDuration: the Go code goes through `float64` hours, minutes and seconds. It is modelled with exact integer truncation, which agrees while those floats are exact. Float rounding of very long durations is not modelled.
- PostgresInterval.FormatParseRoundTrip: stated for non-negative durations only. A negative duration writes negative minutes and seconds without padding; its round trip is not proved.
- PostgresInterval.ParseInterval: `fmt.Sscanf` is modelled as an optional sign followed by decimal digits for each `%d` and an exact `:` literal, with trailing text ignored. Not modelled: the skipping of leading spaces, the `int64` range check of `%d` (a run of digits too large for an `int` is an error in Go and is read whole here), and the error texts of `Sscanf`. A failure reports only the index where matching stopped.
- PostgresInterval.ParseRejectsNonNumber: `Sscanf` skips spaces before a number, so a text starting with spaces and then a digit is read by Go; this model refuses it at index 0.
- PostgresInterval.Duracao: integers are unbounded. The `int64` overflow of `time.Duration(hours)*time.Hour` for huge hour counts is not modelled.
- PostgresWhere.MontarWhere: the arguments are strings. Go's `[]interface{}` holds the same values, as `ticket.Status`, `string(c)` and `string`.
- The HTTP layer, the server, the database connection and the fetch-by-id use case (buscar.go) are not part of this model.
