/** The table-driven state machines of the source: a transition matrix that says "stay, no
    action" everywhere and is then overwritten from a list of rows. One class serves the
    device, the group and the slave machine. */
module Fsm {

  datatype Cell<S, A> = Cell(next: S, action: A)

  datatype Row<S, E, A> = Row(state: S, event: E, next: S, action: A)

  /** The last row for a state and event, or "stay with no action". */
  function Lookup<S(==), E(==), A>(rows: seq<Row<S, E, A>>, s: S, e: E, noAction: A): Cell<S, A> {
    if rows == [] then Cell(s, noAction)
    else
      var last := rows[|rows| - 1];
      if last.state == s && last.event == e then Cell(last.next, last.action)
      else Lookup(rows[..|rows| - 1], s, e, noAction)
  }

  /** "The row of the table if there is one, else stay with no action." */
  lemma {:induction false} LookupCases<S, E, A>(rows: seq<Row<S, E, A>>, s: S, e: E, noAction: A)
    ensures var c := Lookup(rows, s, e, noAction);
            || Row(s, e, c.next, c.action) in rows
            || (c == Cell(s, noAction) && forall r :: r in rows ==> r.state != s || r.event != e)
  {
    if rows != [] {
      var last := rows[|rows| - 1];
      if last.state != s || last.event != e {
        LookupCases(rows[..|rows| - 1], s, e, noAction);
      } else {
        assert last in rows;
      }
    }
  }

  class TransitionMatrix<S(==, 0, !new), E(==, !new), A(0)> {
    const states: seq<S>
    const events: seq<E>
    const cells: array2<Cell<S, A>>

    ghost predicate Holds(rows: seq<Row<S, E, A>>, noAction: A)
      reads cells
    {
      && cells.Length0 == |states| && cells.Length1 == |events|
      && forall i, j :: 0 <= i < cells.Length0 && 0 <= j < cells.Length1 ==>
           cells[i, j] == Lookup(rows, states[i], events[j], noAction)
    }

    /** `states` and `events` list the enumerators; the functions give their numbers. */
    constructor (states: seq<S>, stateNo: S -> nat, events: seq<E>, eventNo: E -> nat,
                 rows: seq<Row<S, E, A>>, noAction: A)
      requires forall s: S :: stateNo(s) < |states| && states[stateNo(s)] == s
      requires forall e: E :: eventNo(e) < |events| && events[eventNo(e)] == e
      requires forall i :: 0 <= i < |states| ==> stateNo(states[i]) == i
      requires forall i :: 0 <= i < |events| ==> eventNo(events[i]) == i
      ensures fresh(cells) && this.states == states && this.events == events
      ensures Holds(rows, noAction)
    {
      this.states, this.events := states, events;
      cells := new Cell<S, A>[|states|, |events|];
      new;
      for s := 0 to |states|
        invariant forall i, j :: 0 <= i < s && 0 <= j < |events| ==> cells[i, j] == Cell(states[i], noAction)
      {
        for e := 0 to |events|
          invariant forall i, j :: 0 <= i < s && 0 <= j < |events| ==> cells[i, j] == Cell(states[i], noAction)
          invariant forall j :: 0 <= j < e ==> cells[s, j] == Cell(states[s], noAction)
        {
          cells[s, e] := Cell(states[s], noAction);
        }
      }
      for k := 0 to |rows|
        invariant Holds(rows[..k], noAction)
      {
        var row := rows[k];
        cells[stateNo(row.state), eventNo(row.event)] := Cell(row.next, row.action);
        assert rows[..k + 1][..k] == rows[..k];
      }
      assert rows[..|rows|] == rows;
    }
  }
}
