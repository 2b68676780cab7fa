/**
 Ticket creation. The service counts the stored tickets and, in a second database call, inserts a
 ticket numbered one higher; requests interleave freely between the two calls, and the unique
 index on `ticketNumber` refuses a number that is already stored.
 */
module Tickets {
  import opened Outcomes
  import Decimal

  const TICKET_WIDTH: nat := 5

  datatype Ticket = Ticket(number: string, status: string, messages: seq<string>)

  datatype Error = DuplicateKey | NotFound

  /** `pending` maps each request between its two calls to the count it has read. */
  datatype State = State(tickets: seq<Ticket>, pending: map<nat, nat>)

  datatype Action =
    | Count(request: nat)
    | Insert(request: nat)
    | UpdateStatus(ticket: nat, status: string)
    | AddMessage(ticket: nat, content: string)

  function TicketNumber(n: nat): string {
    "TKT-" + Decimal.Render(n, TICKET_WIDTH)
  }

  predicate Stored(tickets: seq<Ticket>, number: string) {
    exists i :: 0 <= i < |tickets| && tickets[i].number == number
  }

  function Step(s: State, a: Action): State {
    match a
    case Count(r) => s.(pending := s.pending[r := |s.tickets|])
    case Insert(r) =>
      if r !in s.pending then s
      else
        var number := TicketNumber(s.pending[r] + 1);
        var rest := s.(pending := s.pending - {r});
        if Stored(s.tickets, number) then rest
        else rest.(tickets := s.tickets + [Ticket(number, "Open", [])])
    case UpdateStatus(i, status) =>
      if i >= |s.tickets| then s
      else s.(tickets := s.tickets[i := s.tickets[i].(status := status)])
    case AddMessage(i, content) =>
      if i >= |s.tickets| then s
      else s.(tickets := s.tickets[i := s.tickets[i].(messages := s.tickets[i].messages + [content])])
  }

  function Run(s: State, actions: seq<Action>): State {
    if actions == [] then s else Step(Run(s, actions[..|actions| - 1]), actions[|actions| - 1])
  }

  const EMPTY := State([], map[])

  /** The stored numbers are 1..n, in the order of insertion, and nobody has read more than n. */
  ghost predicate GapFree(s: State) {
    && (forall i :: 0 <= i < |s.tickets| ==> s.tickets[i].number == TicketNumber(i + 1))
    && (forall r :: r in s.pending ==> s.pending[r] <= |s.tickets|)
  }

  lemma TicketNumberInjective(m: nat, n: nat)
    ensures TicketNumber(m) == TicketNumber(n) <==> m == n
  {
    Decimal.RenderInjective(m, n, TICKET_WIDTH);
    assert TicketNumber(m)[4..] == Decimal.Render(m, TICKET_WIDTH);
    assert TicketNumber(n)[4..] == Decimal.Render(n, TICKET_WIDTH);
  }

  /** `TKT-` and the number, in five digits while it fits and in as many as it needs after that. */
  lemma TicketNumberIs(n: nat)
    ensures var number, digits := TicketNumber(n), Decimal.ToString(n);
            && number[..4] == "TKT-"
            && |number| == 4 + (if |digits| < 5 then 5 else |digits|)
            && number[|number| - |digits|..] == digits
            && forall i :: 4 <= i < |number| - |digits| ==> number[i] == '0'
  {
    Decimal.RenderIs(n, TICKET_WIDTH);
    assert TicketNumber(n)[4..] == Decimal.Render(n, TICKET_WIDTH);
  }

  lemma StoredExactly(s: State, n: nat)
    requires GapFree(s)
    ensures Stored(s.tickets, TicketNumber(n)) <==> 1 <= n <= |s.tickets|
  {
    if 1 <= n <= |s.tickets| {
      assert s.tickets[n - 1].number == TicketNumber(n);
    }
    forall i | 0 <= i < |s.tickets| && s.tickets[i].number == TicketNumber(n)
      ensures n == i + 1
    {
      TicketNumberInjective(i + 1, n);
    }
  }

  lemma InsertKeepsGapFree(s: State, r: nat)
    requires GapFree(s) && r in s.pending
    ensures GapFree(Step(s, Insert(r))) && |s.tickets| <= |Step(s, Insert(r)).tickets|
  {
    var n := s.pending[r] + 1;
    StoredExactly(s, n);
    if !Stored(s.tickets, TicketNumber(n)) {
      assert n == |s.tickets| + 1;
    }
  }

  lemma StepKeepsGapFree(s: State, a: Action)
    requires GapFree(s)
    ensures GapFree(Step(s, a))
    ensures |s.tickets| <= |Step(s, a).tickets|
  {
    if a.Insert? && a.request in s.pending {
      InsertKeepsGapFree(s, a.request);
    }
  }

  /** However requests interleave, n stored tickets carry exactly the numbers 1..n, in order. */
  lemma {:induction false} NumbersAreGapFree(actions: seq<Action>)
    ensures GapFree(Run(EMPTY, actions))
  {
    if actions != [] {
      NumbersAreGapFree(actions[..|actions| - 1]);
      StepKeepsGapFree(Run(EMPTY, actions[..|actions| - 1]), actions[|actions| - 1]);
    }
  }

  ghost predicate Accepted(s: State, r: nat) {
    Step(s, Insert(r)).tickets != s.tickets
  }

  lemma {:induction false} CountIsKept(s: State, between: seq<Action>, r: nat)
    requires r in s.pending
    requires forall i :: 0 <= i < |between| ==> between[i] != Count(r) && between[i] != Insert(r)
    ensures r in Run(s, between).pending && Run(s, between).pending[r] == s.pending[r]
  {
    if between != [] {
      CountIsKept(s, between[..|between| - 1], r);
    }
  }

  lemma {:induction false} RunFrom(s: State, first: seq<Action>, second: seq<Action>)
    ensures Run(s, first + second) == Run(Run(s, first), second)
  {
    if second == [] {
      assert first + second == first;
    } else {
      RunFrom(s, first, second[..|second| - 1]);
      assert (first + second)[..|first + second| - 1] == first + second[..|second| - 1];
    }
  }

  /**
   A creation succeeds exactly when nobody else stored a ticket between its two calls; otherwise
   the unique index refuses it.
   */
  lemma CreateSucceedsExactly(before: seq<Action>, r: nat, between: seq<Action>)
    requires forall i :: 0 <= i < |between| ==> between[i] != Count(r) && between[i] != Insert(r)
    ensures var counted := Run(EMPTY, before + [Count(r)]);
            var reached := Run(counted, between);
            Accepted(reached, r) <==> |reached.tickets| == |counted.tickets|
  {
    var counted := Run(EMPTY, before + [Count(r)]);
    var reached := Run(counted, between);
    assert (before + [Count(r)])[..|before|] == before;
    CountIsKept(counted, between, r);
    RunFrom(EMPTY, before + [Count(r)], between);
    NumbersAreGapFree(before + [Count(r)] + between);
    StoredExactly(reached, counted.pending[r] + 1);
    assert counted.pending[r] == |counted.tickets|;
  }

  /** The service: the two database calls of `create`, and the two in-place updates of a ticket. */
  class TicketsService {
    var tickets: seq<Ticket>
    var pending: map<nat, nat>

    ghost function View(): State
      reads this
    {
      State(tickets, pending)
    }

    constructor ()
      ensures View() == EMPTY
    {
      tickets, pending := [], map[];
    }

    method CountDocuments(r: nat)
      modifies this
      ensures View() == Step(old(View()), Count(r))
      ensures tickets == old(tickets) && pending == old(pending)[r := |tickets|]
    {
      pending := pending[r := |tickets|];
    }

    method InsertCounted(r: nat) returns (result: Result<string, Error>)
      requires r in pending
      modifies this
      ensures View() == Step(old(View()), Insert(r))
      ensures result.Success? <==> Accepted(old(View()), r)
      ensures result.Success? ==>
        result.value == TicketNumber(old(pending)[r] + 1) && tickets == old(tickets) + [Ticket(result.value, "Open", [])]
      ensures result.Success? <==>
        forall i :: 0 <= i < |old(tickets)| ==> old(tickets)[i].number != TicketNumber(old(pending)[r] + 1)
      ensures pending == old(pending) - {r}
      ensures result.Failure? ==> tickets == old(tickets) && result.error == DuplicateKey
    {
      var number := TicketNumber(pending[r] + 1);
      pending := pending - {r};
      if Stored(tickets, number) {
        return Failure(DuplicateKey);
      }
      tickets := tickets + [Ticket(number, "Open", [])];
      result := Success(number);
    }

    method SetStatus(i: nat, status: string) returns (result: Result<(), Error>)
      modifies this
      ensures View() == Step(old(View()), UpdateStatus(i, status))
      ensures i < |old(tickets)| ==>
        tickets == old(tickets)[i := Ticket(old(tickets)[i].number, status, old(tickets)[i].messages)]
      ensures i >= |old(tickets)| ==> tickets == old(tickets)
      ensures result == if i < |old(tickets)| then Success(()) else Failure(NotFound)
    {
      if i >= |tickets| {
        return Failure(NotFound);
      }
      tickets := tickets[i := tickets[i].(status := status)];
      result := Success(());
    }

    method PushMessage(i: nat, content: string) returns (result: Result<(), Error>)
      modifies this
      ensures View() == Step(old(View()), AddMessage(i, content))
      ensures i < |old(tickets)| ==>
        var was := old(tickets)[i];
        tickets == old(tickets)[i := Ticket(was.number, was.status, was.messages + [content])]
      ensures i >= |old(tickets)| ==> tickets == old(tickets)
      ensures result == if i < |old(tickets)| then Success(()) else Failure(NotFound)
    {
      if i >= |tickets| {
        return Failure(NotFound);
      }
      var ticket := tickets[i];
      ticket := ticket.(messages := ticket.messages + [content]);
      tickets := tickets[i := ticket];
      result := Success(());
    }
  }
}
