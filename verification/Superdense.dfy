/** Superdense coding: the circuits the transmitters build, the measurements the receivers
    install, and what the two give together. */
module Superdense {
  import opened Systems
  import opened Symbols
  import opened Circuits
  import opened Receiver

  /** The Pauli gate that carries a symbol. */
  function PauliFor(s: Symbol): Gate {
    if s == 0 then I(0) else if s == 1 then X(0) else if s == 2 then Z(0) else Y(0)
  }

  predicate Selects(b: Byte) { 0 <= b < 4 || 48 <= b < 52 }

  /** A Bell pair, and the Pauli gate of the symbol if the byte selects one. */
  function Encoding(b: Byte): seq<Gate> {
    [Init(2), H(0), C(0, 1)] + if Selects(b) then [PauliFor(SymbolOf(b))] else []
  }

  const TRX_MEASURE := "c 0,1\nh 0\nm 0\nm 1"

  function BasisMeasurement(basis: bool): seq<Gate> {
    (if basis then [H(0), H(1)] else []) + [M(0), M(1)]
  }

  datatype Event = Opened(ip: nat, port: nat) | Dispatched(circuit: string) | Closed

  /** What the first n bytes of a buffer leave in the log of a transmitter: one session each,
      opened before and closed after the dispatch of the byte's circuit. */
  function Transcript(ip: nat, port: nat, buf: seq<Byte>, n: nat): seq<Event>
    requires n <= |buf|
  {
    if n == 0 then []
    else
      Transcript(ip, port, buf, n - 1)
      + [Opened(ip, port), Dispatched(Render(Encoding(buf[n - 1]))), Closed]
  }

  /** The first of the next n dispatches that is answered with an error, or n. */
  function FirstError(errors: nat -> bool, n: nat): (k: nat)
    ensures k <= n && (k < n ==> errors(k))
    ensures forall j :: 0 <= j < k ==> !errors(j)
  {
    if n == 0 then 0
    else
      var k := FirstError(errors, n - 1);
      if k < n - 1 || errors(n - 1) then k else n
  }

  lemma RenderCons(g: Gate, gs: seq<Gate>)
    requires Printable(g) && gs != [] && AllPrintable(gs)
    ensures AllPrintable([g] + gs)
    ensures Render([g] + gs) == RenderGate(g) + "\n" + Render(gs)
  {
    assert ([g] + gs)[1..] == gs;
  }

  lemma RenderLine(g: Gate, line: string, gs: seq<Gate>, text: string)
    requires Printable(g) && gs != [] && AllPrintable(gs) && RenderGate(g) == line && Render(gs) == text
    ensures AllPrintable([g] + gs) && Render([g] + gs) == line + "\n" + text
  {
    RenderCons(g, gs);
  }

  lemma GateTexts()
    ensures RenderGate(Init(2)) == "init 2" && RenderGate(C(0, 1)) == "c 0,1"
    ensures RenderGate(H(0)) == "h 0" && RenderGate(H(1)) == "h 1"
    ensures RenderGate(M(0)) == "m 0" && RenderGate(M(1)) == "m 1"
    ensures RenderGate(I(0)) == "i 0" && RenderGate(X(0)) == "x 0"
    ensures RenderGate(Y(0)) == "y 0" && RenderGate(Z(0)) == "z 0"
  {}

  lemma RenderBell()
    ensures Render([Init(2), H(0), C(0, 1)]) == "init 2\nh 0\nc 0,1"
  {
    GateTexts();
    assert Render([C(0, 1)]) == RenderGate(C(0, 1));
    hide Render, RenderGate;
    RenderLine(H(0), "h 0", [C(0, 1)], "c 0,1");
    assert "h 0" + "\n" + "c 0,1" == "h 0\nc 0,1";
    RenderLine(Init(2), "init 2", [H(0)] + [C(0, 1)], "h 0\nc 0,1");
    assert "init 2" + "\n" + "h 0\nc 0,1" == "init 2\nh 0\nc 0,1";
    assert [Init(2)] + ([H(0)] + [C(0, 1)]) == [Init(2), H(0), C(0, 1)];
  }

  /** Appending a line to a rendered circuit appends a gate. */
  lemma {:induction false} RenderSnoc(gs: seq<Gate>, g: Gate)
    requires gs != [] && Printable(g) && AllPrintable(gs)
    ensures AllPrintable(gs + [g])
    ensures Render(gs + [g]) == Render(gs) + "\n" + RenderGate(g)
  {
    if |gs| == 1 {
      RenderCons(gs[0], [g]);
      assert gs == [gs[0]];
    } else {
      RenderCons(gs[0], gs[1..]);
      assert [gs[0]] + gs[1..] == gs;
      hide Render, RenderGate;
      RenderSnoc(gs[1..], g);
      RenderCons(gs[0], gs[1..] + [g]);
      assert [gs[0]] + (gs[1..] + [g]) == gs + [g];
    }
  }

  /** The text of the circuit for one byte, built line by line; it is the rendering of the
      byte's encoding. */
  method BuildCircuit(b: Byte) returns (circuit: string)
    ensures circuit == Render(Encoding(b))
  {
    ghost var bell := [Init(2), H(0), C(0, 1)];
    RenderBell();
    circuit := "init 2\nh 0\nc 0,1";
    if Selects(b) {
      RenderSnoc(bell, PauliFor(SymbolOf(b)));
    }
    var c: int := b;
    if c == 0 || c == '0' as int {
      circuit := circuit + "\ni 0";
    } else if c == 1 || c == '1' as int {
      circuit := circuit + "\nx 0";
    } else if c == 2 || c == '2' as int {
      circuit := circuit + "\nz 0";
    } else if c == 3 || c == '3' as int {
      circuit := circuit + "\ny 0";
    }
    assert !Selects(b) ==> Encoding(b) == bell;
  }

  /** The line that a byte adds to the Bell pair. */
  lemma EncodingText(b: Byte)
    ensures var line := if b == 0 || b == '0' as int then "\ni 0"
                        else if b == 1 || b == '1' as int then "\nx 0"
                        else if b == 2 || b == '2' as int then "\nz 0"
                        else if b == 3 || b == '3' as int then "\ny 0"
                        else "";
            Render(Encoding(b)) == "init 2\nh 0\nc 0,1" + line
  {
    var bell := [Init(2), H(0), C(0, 1)];
    GateTexts();
    RenderBell();
    if Selects(b) {
      var g := PauliFor(SymbolOf(b));
      RenderSnoc(bell, g);
      assert Encoding(b) == bell + [g];
      hide Render, RenderGate;
      assert forall t: string, u: string :: t + "\n" + u == t + ("\n" + u);
    } else {
      assert Encoding(b) == bell;
    }
  }

  class Transmitter {
    var log: seq<Event>

    constructor ()
      ensures log == []
    {
      log := [];
    }

    /** Transmit a buffer; `errors` says which of the dispatcher's answers report an error. */
    method Transmit(ip: nat, port: nat, buf: seq<Byte>, errors: nat -> bool) returns (ok: bool)
      modifies this
      ensures var k := FirstError(errors, |buf|);
              && ok == (k == |buf|)
              && log == old(log) + Transcript(ip, port, buf, if ok then k else k + 1)
      ensures ok <==> forall j :: 0 <= j < |buf| ==> !errors(j)
    {
      hide Render, Encoding;
      var i := 0;
      while i < |buf|
        invariant 0 <= i <= |buf|
        invariant forall j :: 0 <= j < i ==> !errors(j)
        invariant log == old(log) + Transcript(ip, port, buf, i)
      {
        var circuit := BuildCircuit(buf[i]);
        log := log + [Opened(ip, port)];
        log := log + [Dispatched(circuit)];
        log := log + [Closed];
        if errors(i) {
          return false;
        }
        i := i + 1;
      }
      ok := true;
    }
  }

  /** The session discipline of a log: nothing is opened inside a session, and circuits are
      dispatched only inside one.  The state says whether a session is open. */
  function Disciplined(open: bool, e: Event): Option<bool> {
    match e
    case Opened(_, _) => if open then None else Some(true)
    case Dispatched(_) => if open then Some(true) else None
    case Closed => if open then Some(false) else None
  }

  function CircuitsIn(log: seq<Event>): seq<string> {
    if log == [] then []
    else
      var n := |log| - 1;
      CircuitsIn(log[..n]) + if log[n].Dispatched? then [log[n].circuit] else []
  }

  lemma CircuitsSnoc(log: seq<Event>, e: Event)
    ensures CircuitsIn(log + [e]) == CircuitsIn(log) + if e.Dispatched? then [e.circuit] else []
  {
    assert (log + [e])[..|log|] == log;
  }

  lemma SessionSnoc(log: seq<Event>, ip: nat, port: nat, circuit: string)
    requires Run(Disciplined, false, log) == Some(false)
    ensures var log' := log + [Opened(ip, port), Dispatched(circuit), Closed];
            Run(Disciplined, false, log') == Some(false) && CircuitsIn(log') == CircuitsIn(log) + [circuit]
  {
    var o, d := Opened(ip, port), Dispatched(circuit);
    RunSnoc(Disciplined, false, log, o);
    RunSnoc(Disciplined, false, log + [o], d);
    RunSnoc(Disciplined, false, log + [o] + [d], Closed);
    CircuitsSnoc(log, o);
    CircuitsSnoc(log + [o], d);
    CircuitsSnoc(log + [o] + [d], Closed);
    assert log + [o, d, Closed] == log + [o] + [d] + [Closed];
  }

  /** Transmit balance: at every return each opened session has been closed, and the circuits
      dispatched are those of the first n bytes, in buffer order. */
  lemma {:induction false} TranscriptBalanced(ip: nat, port: nat, buf: seq<Byte>, n: nat)
    requires n <= |buf|
    ensures Run(Disciplined, false, Transcript(ip, port, buf, n)) == Some(false)
    ensures |CircuitsIn(Transcript(ip, port, buf, n))| == n
    ensures forall i :: 0 <= i < n ==>
              CircuitsIn(Transcript(ip, port, buf, n))[i] == Render(Encoding(buf[i]))
  {
    if n > 0 {
      hide RenderGate, Disciplined, CircuitsIn;
      TranscriptBalanced(ip, port, buf, n - 1);
      SessionSnoc(Transcript(ip, port, buf, n - 1), ip, port, Render(Encoding(buf[n - 1])));
    }
  }

  /** The sessions are all with the given peer, and nothing else is in the log. */
  lemma {:induction false} TranscriptIs(ip: nat, port: nat, buf: seq<Byte>, n: nat)
    requires n <= |buf|
    ensures |Transcript(ip, port, buf, n)| == 3 * n
    ensures forall i :: 0 <= i < n ==> Transcript(ip, port, buf, n)[3 * i..3 * i + 3] ==
                                       [Opened(ip, port), Dispatched(Render(Encoding(buf[i]))), Closed]
  {
    hide Render, Encoding;
    if n > 0 {
      TranscriptIs(ip, port, buf, n - 1);
    }
  }

  /** A receiver that chooses a measurement basis for every session it opens. */
  class BasisReceiver<M> {
    const transceiver: Transceiver<M>
    var configured: seq<string>

    constructor (transceiver: Transceiver<M>)
      ensures this.transceiver == transceiver && configured == []
    {
      this.transceiver := transceiver;
      configured := [];
    }

    /** One request; `basis` is the next bit of the list of bases. */
    method Process(basis: bool, wakes: seq<Option<M>>) returns (answered: bool)
      modifies this, transceiver
      ensures configured == old(configured) +
                if old(transceiver.isReceiving) then [] else [Render(BasisMeasurement(basis)) + "\n"]
      ensures !old(transceiver.isReceiving) ==>
                configured == old(configured) + [if basis then "h 0\nh 1\nm 0\nm 1\n" else "m 0\nm 1\n"]
      ensures var served := Served(old(transceiver.View()), wakes);
              answered == served.Some?
              && transceiver.View() == if answered then served.value else old(transceiver.View())
    {
      if !transceiver.isReceiving {
        var basisChange := "";
        if basis {
          basisChange := basisChange + "h 0\nh 1\n";
        }
        basisChange := basisChange + "m 0\nm 1\n";
        BasisText(basis, basisChange);
        assert basisChange == if basis then "h 0\nh 1\nm 0\nm 1\n" else "m 0\nm 1\n";
        configured := configured + [basisChange];
      }
      answered := transceiver.Process(wakes);
    }
  }

  /** Both bits are measured. */
  lemma MeasureText()
    ensures Render([M(0), M(1)]) == "m 0\nm 1"
  {
    GateTexts();
    assert Render([M(1)]) == RenderGate(M(1));
    hide Render, RenderGate;
    RenderLine(M(0), "m 0", [M(1)], "m 1");
    assert "m 0" + "\n" + "m 1" == "m 0\nm 1";
    assert [M(0)] + [M(1)] == [M(0), M(1)];
  }

  lemma BasisText(basis: bool, text: string)
    requires text == (if basis then "h 0\nh 1\n" else "") + "m 0\nm 1\n"
    ensures text == Render(BasisMeasurement(basis)) + "\n"
  {
    GateTexts();
    MeasureText();
    hide Render, RenderGate;
    assert "m 0\nm 1" + "\n" == "m 0\nm 1\n";
    if basis {
      RenderLine(H(1), "h 1", [M(0), M(1)], "m 0\nm 1");
      RenderLine(H(0), "h 0", [H(1)] + [M(0), M(1)], "h 1" + "\n" + "m 0\nm 1");
      assert BasisMeasurement(true) == [H(0)] + ([H(1)] + [M(0), M(1)]);
      assert "h 0\nh 1\n" == "h 0" + "\n" + "h 1" + "\n";
      assert "h 0" + "\n" + ("h 1" + "\n" + "m 0\nm 1") == "h 0" + "\n" + "h 1" + "\n" + "m 0\nm 1";
    } else {
      assert BasisMeasurement(false) == [M(0), M(1)];
      assert "" + "m 0\nm 1\n" == "m 0\nm 1\n";
    }
  }
}
