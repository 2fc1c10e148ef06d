/** The order in which the providers get their turns. */
module Dispatcher {
  import opened Health

  /** init_index and next_provider. */
  datatype Position = Position(initIndex: nat, next: nat)
  {
    predicate Valid() {
      initIndex <= 5 && next < 10
    }
  }

  function InitOrder(i: nat): nat
    requires i < 5
  {
    match i
    case 0 => 2 case 1 => 1 case 2 => 4 case 3 => 5 case 4 => 7
  }

  /** The id that gets this turn, and the position for the next. */
  function Chosen(p: Position): nat
    requires p.Valid()
  {
    if p.initIndex < 5 then InitOrder(p.initIndex) else p.next + 1
  }

  function Advanced(p: Position): (q: Position)
    requires p.Valid()
    ensures q.Valid()
  {
    if p.initIndex < 5 then p.(initIndex := p.initIndex + 1)
    else p.(next := if p.next + 1 == 10 then 0 else p.next + 1)
  }

  const START: Position := Position(0, 0)

  /** The position after n turns, and the id that gets turn n (counting from 1). */
  function After(n: nat): (p: Position)
    ensures p.Valid()
  {
    if n == 0 then START else Advanced(After(n - 1))
  }

  function Turn(n: nat): nat
    requires n >= 1
  {
    Chosen(After(n - 1))
  }

  lemma {:induction false} AfterIs(n: nat)
    ensures After(n) == if n <= 5 then Position(n, 0) else Position(5, (n - 5) % 10)
  {
    if n > 0 {
      AfterIs(n - 1);
    }
  }

  /** Past the first five turns the ids go round in steps of ten. */
  lemma TurnIs(n: nat)
    requires n >= 6
    ensures Turn(n) == (n - 6) % 10 + 1
  {
    AfterIs(n - 1);
  }

  /** The first five turns set up loopback, timer, acceleration sensor, converter and screen, in this order. */
  lemma SetUpTurns()
    ensures Turn(1) == UART_LOOP && Turn(2) == 1 && Turn(3) == 4 && Turn(4) == 5 && Turn(5) == VGA
  {
    AfterIs(0);
    AfterIs(1);
    AfterIs(2);
    AfterIs(3);
    AfterIs(4);
  }

  /** Among any ten turns in a row after the first five, each of the ids 1 to 10 gets exactly one. */
  lemma OncePerRound(from: nat, id: nat)
    requires from > 5 && 1 <= id <= 10
    ensures exists n :: from <= n < from + 10 && Turn(n) == id
                        && forall m :: from <= m < from + 10 && Turn(m) == id ==> m == n
  {
    hide Turn;
    var n := from + (id + 5 - from) % 10;
    forall m | from <= m < from + 10
      ensures Turn(m) == id <==> m == n
    {
      TurnIs(m);
    }
    assert Turn(n) == id;
  }

  /** The latest turn of the screen up to turn t; 0 if there was none. */
  function LastVgaTurn(t: nat): (v: nat)
    ensures v <= t <= v + 11 && (t >= 5 ==> t <= v + 9)
  {
    if t < 5 then 0 else if t < 12 then 5 else t - (t - 2) % 10
  }

  lemma LastVgaTurnIs(t: nat)
    requires t >= 1
    ensures if Turn(t) == VGA then LastVgaTurn(t) == t && LastVgaTurn(t - 1) + 2 <= t <= LastVgaTurn(t - 1) + 10
            else LastVgaTurn(t) == LastVgaTurn(t - 1)
  {
    if t <= 5 {
      AfterIs(t - 1);
    } else {
      hide Turn;
      TurnIs(t);
    }
  }

}
