/**
 * The ticket repository of internal/domain/ticket/repository.go as an
 * in-memory store: tickets by id, kept as values, the way a database keeps
 * rows. A load hands out a fresh object; only Create and Update write, and
 * every write is logged so that a use case can promise how often it wrote.
 */
module TicketStore {
  import opened Wrappers
  import opened TicketDomain
  import opened TicketLifecycle

  /** The filters of `TicketFiltros` that the listing reads; a status is the Go string type, so any text. */
  datatype TicketFiltros = TicketFiltros(
    status: seq<string>,
    categoria: seq<Categoria>,
    responsavel: string,
    abertoPor: string)

  /** One write to the store. */
  datatype Escrita = Criado(id: string) | Atualizado(id: string)

  class Repository {
    var tickets: map<string, TicketState>
    var escritas: seq<Escrita>

    /** Every ticket is stored under its own id and satisfies the aggregate's invariant. */
    ghost predicate Valid()
      reads this
    {
      forall id | id in tickets :: tickets[id].id == id && Wellformed(tickets[id])
    }

    constructor ()
      ensures tickets == map[] && escritas == []
      ensures Valid()
    {
      tickets := map[];
      escritas := [];
    }

    /** GetByID: a fresh object holding the stored value, or not-found. */
    method GetByID(id: string) returns (r: Result<Ticket, Error>)
      ensures r.Success? <==> id in tickets
      ensures r.Failure? ==> r.error == ErrNaoEncontrado
      ensures r.Success? ==> fresh(r.value) && r.value.State() == tickets[id]
    {
      if id !in tickets {
        return Failure(ErrNaoEncontrado);
      }
      var t := new Ticket.FromState(tickets[id]);
      return Success(t);
    }

    /** Create: stores a new ticket; an id already taken is refused and nothing changes. */
    method Create(t: Ticket) returns (err: Option<Error>)
      modifies this
      ensures err.Some? <==> t.id in old(tickets)
      ensures err.Some? ==> err.value == ErrIdDuplicado && tickets == old(tickets) && escritas == old(escritas)
      ensures err.None? ==> tickets == old(tickets)[t.id := t.State()] && escritas == old(escritas) + [Criado(t.id)]
    {
      if t.id in tickets {
        return Some(ErrIdDuplicado);
      }
      tickets := tickets[t.id := t.State()];
      escritas := escritas + [Criado(t.id)];
      err := None;
    }

    /** Update: overwrites the stored ticket with the object's value; an id not stored is left alone. */
    method Update(t: Ticket)
      modifies this
      ensures tickets == if t.id in old(tickets) then old(tickets)[t.id := t.State()] else old(tickets)
      ensures escritas == old(escritas) + [Atualizado(t.id)]
    {
      if t.id in tickets {
        tickets := tickets[t.id := t.State()];
      }
      escritas := escritas + [Atualizado(t.id)];
    }
  }
}
