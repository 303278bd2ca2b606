/**
  connect_to and accept_from: a socket is initialised, connected or accepted, handed to a
  body and closed again, whatever happens in between.
*/
module SocketBracket {
  import opened Options

  // What an operation sends to its receiver; an exception is no error code.
  datatype Signal = Value(n: int) | Error(code: int) | Exception | Stopped

  datatype Socket = Absent | Open | ClosingSocket | ClosedSocket

  datatype Phase =
    | Fresh
    | Nested                       // connecting or accepting
    | Body
    | Bracketing(outcome: Signal)  // closing, to complete with `outcome` afterwards
    | Finished

  // History: the body's signal or, without a body, the failure that took its place; how
  // often the socket was closed; and whether building the first nested operation threw.
  datatype Bracket = Bracket(phase: Phase, socket: Socket, done: seq<Signal>,
                             due: Option<Signal>, closes: nat, buildThrew: bool)

  const Start := Bracket(Fresh, Absent, [], None, 0, false)

  datatype Answer =
    | Started(initErr: int, buildThrows: bool)           // answers of uv_tcp_init and connect
    | NestedDone(sig: Signal, factoryThrows: bool)       // the nested operation completes
    | BodyDone(sig: Signal)
    | SocketClosed

  predicate Possible(s: Bracket, a: Answer) {
    match a
    case Started(_, _) => s.phase.Fresh?
    case NestedDone(_, _) => s.phase.Nested?
    case BodyDone(_) => s.phase.Body?
    case SocketClosed => s.phase.Bracketing?
  }

  function Complete(s: Bracket, sig: Signal): Bracket {
    s.(phase := Finished, done := s.done + [sig])
  }

  // Closing starts now; exec::finally does the same for the body's own signal.
  function StartClose(s: Bracket, outcome: Signal): Bracket {
    s.(phase := Bracketing(outcome), socket := ClosingSocket, closes := s.closes + 1, due := Some(outcome))
  }

  function Step(s: Bracket, a: Answer): Bracket
    requires Possible(s, a)
  {
    match a
    case Started(initErr, buildThrows) =>
      if initErr != 0 then Complete(s, Error(initErr))
      else if buildThrows then Complete(s.(socket := Open, buildThrew := true), Exception)
      else s.(socket := Open, phase := Nested)
    case NestedDone(sig, factoryThrows) =>
      if !sig.Value? then StartClose(s, sig)
      else if factoryThrows then StartClose(s, Exception)
      else s.(phase := Body)
    case BodyDone(sig) => StartClose(s, sig)
    case SocketClosed => Complete(s.(socket := ClosedSocket), s.phase.outcome)
  }

  // The state after the given answers; answers that are not possible are left out.
  function After(answers: seq<Answer>): Bracket {
    if answers == [] then Start
    else
      var before := After(answers[..|answers| - 1]);
      var a := answers[|answers| - 1];
      if Possible(before, a) then Step(before, a) else before
  }

  predicate BracketOk(s: Bracket) {
    && |s.done| == (if s.phase.Finished? then 1 else 0)
    && s.closes == (if s.socket.ClosingSocket? || s.socket.ClosedSocket? then 1 else 0)
    && (s.due.Some? <==> s.closes == 1)
    && (s.buildThrew ==> s.phase.Finished?)
    && match s.phase
       case Fresh => s.socket.Absent?
       case Nested | Body => s.socket.Open?
       case Bracketing(outcome) => s.socket.ClosingSocket? && s.due == Some(outcome)
       case Finished =>
         && !s.socket.ClosingSocket? && (s.socket.Open? <==> s.buildThrew)
         && (s.socket.ClosedSocket? ==> s.due == Some(s.done[0]))
         && (!s.socket.ClosedSocket? ==> (s.done[0].Error? || s.done[0].Exception?))
  }

  lemma {:induction false} AfterKeepsInv(answers: seq<Answer>)
    ensures BracketOk(After(answers))
  {
    if answers != [] {
      AfterKeepsInv(answers[..|answers| - 1]);
    }
  }

  // For all answers the receiver is completed at most once and only when the socket is
  // closed, never opened, or left open by a first nested operation that threw while it was
  // built; and it gets the body's signal or the failure that took its place, unchanged.
  lemma ClosedOnceBeforeCompletion(answers: seq<Answer>)
    ensures var s := After(answers);
            && |s.done| <= 1 && s.closes <= 1
            && (s.done != [] && !s.socket.Absent? ==> (s.socket.ClosedSocket? <==> !s.buildThrew))
            && (s.done != [] && s.closes == 1 ==> s.socket.ClosedSocket? && s.due == Some(s.done[0]))
  {
    AfterKeepsInv(answers);
  }

  // Exactly one close for an initialised socket if and only if that building did not throw.
  lemma ExactlyOneCloseIffBuilt(answers: seq<Answer>)
    requires After(answers).phase.Finished? && !After(answers).socket.Absent?
    ensures |After(answers).done| == 1
    ensures After(answers).closes == 1 <==> !After(answers).buildThrew
  {
    AfterKeepsInv(answers);
  }

  // Whatever the answers are, feeding them in order finishes the bracket; they alone tell
  // what the receiver gets and whether the socket was closed.
  lemma AnswersDetermineOutcome(initErr: int, buildThrows: bool, nested: Signal, factoryThrows: bool, body: Signal)
    ensures var s := After([Started(initErr, buildThrows), NestedDone(nested, factoryThrows), BodyDone(body), SocketClosed]);
            && s.phase.Finished?
            && s.done == [if initErr != 0 then Error(initErr)
                          else if buildThrows then Exception
                          else if !nested.Value? then nested
                          else if factoryThrows then Exception
                          else body]
            && s.closes == (if initErr != 0 || buildThrows then 0 else 1)
            && (s.socket.Absent? <==> initErr != 0)
  {
    var a := [Started(initErr, buildThrows), NestedDone(nested, factoryThrows), BodyDone(body), SocketClosed];
    assert a[..3] == [a[0], a[1], a[2]] && a[..3][..2] == [a[0], a[1]] && a[..3][..2][..1] == [a[0]];
    assert After([a[0]][..0]) == Start;
    var s1 := After([a[0]]);
    assert s1 == Step(Start, a[0]);
    var s2 := After([a[0], a[1]]);
    assert s2 == if Possible(s1, a[1]) then Step(s1, a[1]) else s1;
    var s3 := After([a[0], a[1], a[2]]);
    assert s3 == if Possible(s2, a[2]) then Step(s2, a[2]) else s2;
  }

  // The operation state as an object.
  class BracketOperation {
    var phase: Phase
    var socket: Socket
    var done: seq<Signal>
    ghost var run: Bracket

    ghost predicate Valid()
      reads this
    {
      BracketOk(run) && run.phase == phase && run.socket == socket && run.done == done
    }

    constructor ()
      ensures Valid() && run == Start
    {
      phase, socket, done, run := Fresh, Absent, [], Start;
    }

    method EmplaceAndStartInitially(initErr: int, buildThrows: bool)
      requires Valid() && phase.Fresh?
      modifies this
      ensures Valid() && run == Step(old(run), Started(initErr, buildThrows))
      ensures done == if initErr != 0 then [Error(initErr)] else if buildThrows then [Exception] else []
      ensures socket == (if initErr != 0 then Absent else Open)
      ensures phase == if initErr != 0 || buildThrows then Finished else Nested
    {
      run := Step(run, Started(initErr, buildThrows));
      if initErr != 0 {
        done, phase := done + [Error(initErr)], Finished;
        return;
      }
      socket := Open;
      if buildThrows {
        done, phase := done + [Exception], Finished;
        return;
      }
      phase := Nested;
    }

    method EmplaceAndStartClose(fin: Signal)
      requires Valid() && (phase.Nested? || phase.Body?)
      modifies this
      ensures Valid() && run == StartClose(old(run), fin)
      ensures phase == Bracketing(fin) && socket == ClosingSocket && done == old(done)
    {
      run := StartClose(run, fin);
      phase, socket := Bracketing(fin), ClosingSocket;
    }

    // The nested operation's receiver; a throwing factory ends like a failed connect.
    method NestedCompletes(sig: Signal, factoryThrows: bool)
      requires Valid() && phase.Nested?
      modifies this
      ensures Valid() && run == Step(old(run), NestedDone(sig, factoryThrows))
      ensures done == old(done)
      ensures phase == if !sig.Value? then Bracketing(sig) else if factoryThrows then Bracketing(Exception) else Body
    {
      if sig.Value? {
        if factoryThrows {
          EmplaceAndStartClose(Exception);
        } else {
          run := Step(run, NestedDone(sig, factoryThrows));
          phase := Body;
        }
      } else {
        EmplaceAndStartClose(sig);
      }
    }

    // The body completes; closing keeps its signal.
    method BodyCompletes(sig: Signal)
      requires Valid() && phase.Body?
      modifies this
      ensures Valid() && run == Step(old(run), BodyDone(sig))
      ensures phase == Bracketing(sig) && done == old(done)
    {
      EmplaceAndStartClose(sig);
    }

    method CloseCallback()
      requires Valid() && phase.Bracketing?
      modifies this
      ensures Valid() && run == Step(old(run), SocketClosed)
      ensures phase == Finished && socket == ClosedSocket && done == [old(phase.outcome)]
    {
      run := Step(run, SocketClosed);
      socket, done, phase := ClosedSocket, done + [phase.outcome], Finished;
    }
  }
}
