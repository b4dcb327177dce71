/** Encoding followed by measurement recovers the message. */
module SuperdenseMeaning {
  import opened Systems
  import opened Symbols
  import opened Circuits
  import opened Superdense
  import opened Handshake
  import opened HandshakeDelivery

  // ---------- From text to gates ----------

  lemma RenderAppendOne(g: Gate, tail: seq<Gate>, hs: seq<Gate>, text: string)
    requires Printable(g) && tail != [] && hs != [] && AllPrintable(tail) && AllPrintable(hs)
    requires AllPrintable(tail + hs) && Render(tail + hs) == Render(tail) + "\n" + text
    ensures AllPrintable([g] + tail) && AllPrintable([g] + tail + hs)
    ensures Render([g] + tail + hs) == Render([g] + tail) + "\n" + text
  {
    hide Render, RenderGate, Printable;
    RenderCons(g, tail + hs);
    RenderCons(g, tail);
    assert [g] + (tail + hs) == [g] + tail + hs;
    var line, a := RenderGate(g), Render(tail);
    assert line + "\n" + (a + "\n" + text) == (line + "\n" + a) + "\n" + text;
  }

  lemma {:induction false} RenderAppend(gs: seq<Gate>, hs: seq<Gate>)
    requires gs != [] && hs != [] && AllPrintable(gs) && AllPrintable(hs)
    ensures AllPrintable(gs + hs)
    ensures Render(gs + hs) == Render(gs) + "\n" + Render(hs)
  {
    var g, tail := gs[0], gs[1..];
    assert gs == [g] + tail;
    if tail == [] {
      RenderCons(g, hs);
      assert gs + hs == [g] + hs;
    } else {
      RenderAppend(tail, hs);
      RenderAppendOne(g, tail, hs, Render(hs));
    }
  }

  /** Running a transmitter's circuit and then a receiver's is running their gates. */
  lemma OddsOf(b: Byte, measure: seq<Gate>, text: string, bits: seq<bool>)
    requires measure != [] && AllPrintable(measure)
    requires text == Render(measure) || text == Render(measure) + "\n"
    ensures var after := Exec(Encoding(b) + measure, NULL_VECTOR, bits);
            Odds(Render(Encoding(b)) + "\n" + text, bits) == if after.Some? then Weight(after.value) else 0
  {
    var gs := Encoding(b) + measure;
    RenderAppend(Encoding(b), measure);
    var end := if text == Render(measure) then "" else "\n";
    ParseRender(gs, end);
    assert Render(Encoding(b)) + "\n" + text == Render(gs) + end;
  }

  // ---------- Exec, one gate at a time ----------

  lemma ExecGate(g: Gate, gs: seq<Gate>, v: Vector, w: Vector, bits: seq<bool>)
    requires !g.M? && Apply(g, v, false) == Some(w)
    ensures Exec([g] + gs, v, bits) == Exec(gs, w, bits)
  {
    assert ([g] + gs)[1..] == gs;
  }

  lemma ExecMeasure(g: Gate, gs: seq<Gate>, v: Vector, w: Vector, bit: bool, bits: seq<bool>)
    requires g.M? && Apply(g, v, bit) == Some(w)
    ensures Exec([g] + gs, v, [bit] + bits) == Exec(gs, w, bits)
  {
    assert ([g] + gs)[1..] == gs && ([bit] + bits)[1..] == bits;
  }

  /** The basis vector of an outcome, scaled. */
  function Unit(o: Outcome, a: int): Vector {
    Vector(if !o.m0 && !o.m1 then a else 0, if !o.m0 && o.m1 then a else 0,
           if o.m0 && !o.m1 then a else 0, if o.m0 && o.m1 then a else 0)
  }

  /** The amplitude of an outcome. */
  function Amplitude(v: Vector, o: Outcome): int {
    if o.m0 then (if o.m1 then v.v11 else v.v10) else (if o.m1 then v.v01 else v.v00)
  }

  lemma WeightOfUnit(o: Outcome, a: int)
    ensures Weight(Unit(o, a)) == a * a
  {}

  lemma ExecMeasureBoth(v: Vector, o: Outcome)
    ensures Exec([M(0), M(1)], v, [o.m0, o.m1]) == Some(Unit(o, Amplitude(v, o)))
  {
    var w := Project0(v, o.m0);
    ExecMeasure(M(0), [M(1)], v, w, o.m0, [o.m1]);
    ExecMeasure(M(1), [], w, Unit(o, Amplitude(v, o)), o.m1, []);
    assert [M(1)] + [] == [M(1)] && [M(0)] + [M(1)] == [M(0), M(1)];
    assert [o.m1] + [] == [o.m1] && [o.m0] + [o.m1] == [o.m0, o.m1];
  }

  /** The pair of qubits a transmitter hands over for symbol s: one of the four Bell states. */
  function BellState(s: Symbol): Vector {
    if s == 0 then Vector(1, 0, 0, 1)
    else if s == 1 then Vector(0, 1, 1, 0)
    else if s == 2 then Vector(1, 0, 0, -1)
    else Vector(0, -1, 1, 0)
  }

  lemma ExecBell(rest: seq<Gate>, bits: seq<bool>)
    ensures Exec([Init(2), H(0), C(0, 1)] + rest, NULL_VECTOR, bits) == Exec(rest, BellState(0), bits)
  {
    var v1 := Vector(1, 0, 0, 0);
    var v2 := Vector(1, 0, 1, 0);
    ExecGate(C(0, 1), rest, v2, BellState(0), bits);
    ExecGate(H(0), [C(0, 1)] + rest, v1, v2, bits);
    ExecGate(Init(2), [H(0)] + ([C(0, 1)] + rest), NULL_VECTOR, v1, bits);
    assert [Init(2)] + ([H(0)] + ([C(0, 1)] + rest)) == [Init(2), H(0), C(0, 1)] + rest;
  }

  lemma PauliMakesBellState(s: Symbol)
    ensures Apply(PauliFor(s), BellState(0), false) == Some(BellState(s)) && !PauliFor(s).M?
  {}

  lemma ExecEncoding(b: Byte, rest: seq<Gate>, bits: seq<bool>)
    ensures Exec(Encoding(b) + rest, NULL_VECTOR, bits) == Exec(rest, BellState(SymbolOf(b)), bits)
  {
    if Selects(b) {
      var s := SymbolOf(b);
      ExecBell([PauliFor(s)] + rest, bits);
      PauliMakesBellState(s);
      ExecGate(PauliFor(s), rest, BellState(0), BellState(s), bits);
      assert Encoding(b) + rest == [Init(2), H(0), C(0, 1)] + ([PauliFor(s)] + rest);
    } else {
      ExecBell(rest, bits);
      assert Encoding(b) + rest == [Init(2), H(0), C(0, 1)] + rest;
    }
  }

  // ---------- The fixed measurement ----------

  /** The odds that the fixed measurement of the pair sent for byte b reads o. */
  function TrxOdds(b: Byte, o: Outcome): int {
    Odds(Render(Encoding(b)) + "\n" + TRX_MEASURE, [o.m0, o.m1])
  }

  lemma TrxMeasureText()
    ensures TRX_MEASURE == Render([C(0, 1), H(0), M(0), M(1)])
  {
    GateTexts();
    MeasureText();
    hide Render, RenderGate;
    RenderLine(H(0), "h 0", [M(0), M(1)], "m 0\nm 1");
    assert "h 0" + "\n" + "m 0\nm 1" == "h 0\nm 0\nm 1";
    RenderLine(C(0, 1), "c 0,1", [H(0)] + [M(0), M(1)], "h 0\nm 0\nm 1");
    assert "c 0,1" + "\n" + "h 0\nm 0\nm 1" == TRX_MEASURE;
    assert [C(0, 1)] + ([H(0)] + [M(0), M(1)]) == [C(0, 1), H(0), M(0), M(1)];
  }

  /** The vector the fixed measurement reads its bits from. */
  function TrxVector(v: Vector): Vector {
    On0(H(0), Vector(v.v00, v.v01, v.v11, v.v10))
  }

  lemma ExecTrx(v: Vector, o: Outcome)
    ensures Exec([C(0, 1), H(0), M(0), M(1)], v, [o.m0, o.m1]) == Some(Unit(o, Amplitude(TrxVector(v), o)))
  {
    var bits := [o.m0, o.m1];
    var v1 := Vector(v.v00, v.v01, v.v11, v.v10);
    var v2 := TrxVector(v);
    ExecMeasureBoth(v2, o);
    ExecGate(H(0), [M(0), M(1)], v1, v2, bits);
    ExecGate(C(0, 1), [H(0)] + [M(0), M(1)], v, v1, bits);
    assert [C(0, 1)] + ([H(0)] + [M(0), M(1)]) == [C(0, 1), H(0), M(0), M(1)];
  }

  lemma TrxVectorIs(s: Symbol)
    ensures TrxVector(BellState(s)) == Vector(if s == 0 then 2 else 0, if s == 1 then 2 else 0,
                                              if s == 2 then 2 else 0, if s == 3 then -2 else 0)
  {}

  lemma TrxAmplitude(s: Symbol, o: Outcome)
    ensures Amplitude(TrxVector(BellState(s)), o) == if Decoded(o) != s then 0 else if s == 3 then -2 else 2
  {
    TrxVectorIs(s);
    hide TrxVector, BellState;
  }

  /** Superdense coding is exact: an outcome is possible if and only if it decodes to the
      symbol of the byte, for every byte.  In particular the outcome is certain. */
  lemma SuperdenseExact(b: Byte, o: Outcome)
    ensures TrxOdds(b, o) > 0 <==> Decoded(o) == SymbolOf(b)
  {
    var measure := [C(0, 1), H(0), M(0), M(1)];
    var bits := [o.m0, o.m1];
    TrxMeasureText();
    OddsOf(b, measure, TRX_MEASURE, bits);
    ExecEncoding(b, measure, bits);
    ExecTrx(BellState(SymbolOf(b)), o);
    TrxAmplitude(SymbolOf(b), o);
    WeightOfUnit(o, Amplitude(TrxVector(BellState(SymbolOf(b))), o));
  }

  /** A whole message: the measurements that can be read for a buffer are exactly those that
      decode to its symbols. */
  lemma MessageExact(buf: seq<Byte>, read: seq<Outcome>)
    requires |read| == |buf|
    ensures (forall i :: 0 <= i < |buf| ==> TrxOdds(buf[i], read[i]) > 0)
            <==> (forall i :: 0 <= i < |buf| ==> Decoded(read[i]) == SymbolOf(buf[i]))
  {
    forall i | 0 <= i < |buf| ensures TrxOdds(buf[i], read[i]) > 0 <==> Decoded(read[i]) == SymbolOf(buf[i]) {
      SuperdenseExact(buf[i], read[i]);
    }
  }

  /** The same in the bytes themselves: 0..3 and '0'..'3' are read as their value, every other
      byte as 0, and a pair of bits as a binary number. */
  lemma BytesAreRead(buf: seq<Byte>, read: seq<Outcome>)
    requires |read| == |buf|
    ensures (forall i :: 0 <= i < |buf| ==> TrxOdds(buf[i], read[i]) > 0)
            <==> (forall i :: 0 <= i < |buf| ==>
                    (if read[i].m0 then 2 else 0) + (if read[i].m1 then 1 else 0) ==
                    if 0 <= buf[i] <= 3 then buf[i] else if 48 <= buf[i] <= 51 then buf[i] - 48 else 0)
  {
    hide TrxOdds;
    MessageExact(buf, read);
  }

  /** The protocol and the coding together: if every publication is an outcome its session's
      circuit can give, then once all calls have returned every receiver can decode from its
      buffer the symbols each transmitter dispatched to it, in order. */
  lemma ReceiversDecode(plans: seq<seq<Job>>, ls: seq<Label>, s: State, t: nat, r: nat)
    requires Reaches(plans, ls, s) && Finished(s)
    requires t < |plans| && r < |plans| && r < |s.rx|
    requires forall e :: e in s.rx[r].published ==> TrxOdds(e.session.symbol, e.outcome) > 0
    ensures |s.tx| == |plans| && Results(plans[t], s.tx[t].returned) && |s.tx[t].returned| == |plans[t]|
    ensures Received(s.rx[r].shared.buffer, t) == SymbolsTo(Sent(plans[t], s.tx[t].returned), r)
  {
    EndToEnd(plans, ls, s, t, r);
    forall e | e in s.rx[r].published ensures Decoded(e.outcome) == SymbolOf(e.session.symbol) {
      SuperdenseExact(e.session.symbol, e.outcome);
    }
  }

  lemma {:induction false} OneCallSymbols(job: Job, n: nat, r: nat)
    requires n <= |job.buf| && job.dest == r
    ensures |SymbolsTo(Bytes(job, n), r)| == n
    ensures forall i :: 0 <= i < n ==> SymbolsTo(Bytes(job, n), r)[i] == SymbolOf(job.buf[i])
  {
    if n > 0 {
      OneCallSymbols(job, n - 1, r);
      assert Bytes(job, n)[..n - 1] == Bytes(job, n - 1);
    }
  }

  /** One call of `transmit` from t to r that returned true: what r reads from t are the bytes of
      its buffer, whatever the other nodes do. */
  lemma CallIsRead(plans: seq<seq<Job>>, ls: seq<Label>, s: State, t: nat, r: nat, buf: seq<Byte>)
    requires Reaches(plans, ls, s) && Finished(s)
    requires t < |plans| && r < |plans| && r < |s.rx| && t < |s.tx| && plans[t] == [Job(r, buf)]
    requires forall e :: e in s.rx[r].published ==> TrxOdds(e.session.symbol, e.outcome) > 0
    requires forall result :: result in s.tx[t].returned ==> result.ok
    ensures var read := Received(s.rx[r].shared.buffer, t);
            && |read| == |buf|
            && forall i :: 0 <= i < |buf| ==>
                 read[i] == if 0 <= buf[i] <= 3 then buf[i] else if 48 <= buf[i] <= 51 then buf[i] - 48 else 0
  {
    ReceiversDecode(plans, ls, s, t, r);
    var results := s.tx[t].returned;
    hide Reaches, Finished, TrxOdds, Received;
    assert results[0] in results;
    assert plans[t][..0] == [] && plans[t][..1] == plans[t];
    SentAll(plans[t], results);
    var job := Job(r, buf);
    assert AllBytes(plans[t]) == AllBytes([]) + Bytes(job, |buf|);
    assert Sent(plans[t], results) == Bytes(job, |buf|);
    OneCallSymbols(job, |buf|, r);
  }

  // ---------- The two-basis measurement ----------

  /** The odds that the measurement of the pair sent for byte b in the given basis reads o. */
  function BasisOdds(b: Byte, basis: bool, o: Outcome): int {
    Odds(Render(Encoding(b)) + "\n" + (Render(BasisMeasurement(basis)) + "\n"), [o.m0, o.m1])
  }

  /** The bit of the symbol a basis reveals. */
  function Revealed(s: Symbol, basis: bool): bool {
    if basis then s / 2 == 1 else s % 2 == 1
  }

  /** Whatever the random outcomes, their parity is the revealed bit of the symbol. */
  lemma BasisParity(b: Byte, basis: bool, o: Outcome)
    ensures BasisOdds(b, basis, o) > 0 <==> (o.m0 != o.m1) == Revealed(SymbolOf(b), basis)
  {
    BasisOddsAre(b, basis, o);
  }

  /** The outcomes are random: two that agree in their parity have the same odds. */
  lemma BasisIsRandom(b: Byte, basis: bool, o: Outcome, o': Outcome)
    requires (o.m0 != o.m1) == (o'.m0 != o'.m1)
    ensures BasisOdds(b, basis, o) == BasisOdds(b, basis, o')
  {
    BasisOddsAre(b, basis, o);
    BasisOddsAre(b, basis, o');
  }

  /** A whole message measured in any list of bases: the readings that are possible are
      exactly those whose parities are the revealed bits. */
  lemma BasisMessage(buf: seq<Byte>, bases: seq<bool>, read: seq<Outcome>)
    requires |read| == |bases| == |buf|
    ensures (forall i :: 0 <= i < |buf| ==> BasisOdds(buf[i], bases[i], read[i]) > 0)
            <==> (forall i :: 0 <= i < |buf| ==> (read[i].m0 != read[i].m1) == Revealed(SymbolOf(buf[i]), bases[i]))
  {
    forall i | 0 <= i < |buf|
      ensures BasisOdds(buf[i], bases[i], read[i]) > 0 <==>
              (read[i].m0 != read[i].m1) == Revealed(SymbolOf(buf[i]), bases[i])
    {
      BasisParity(buf[i], bases[i], read[i]);
    }
  }

  /** The same in the bytes themselves: in the rotated basis the parity is the high bit of 0..3
      and '0'..'3', in the other the low bit; of every other byte it is 0. */
  lemma BasisReadsBytes(buf: seq<Byte>, bases: seq<bool>, read: seq<Outcome>)
    requires |read| == |bases| == |buf|
    ensures (forall i :: 0 <= i < |buf| ==> BasisOdds(buf[i], bases[i], read[i]) > 0)
            <==> (forall i :: 0 <= i < |buf| ==>
                    ((read[i].m0 != read[i].m1) <==>
                     if bases[i] then buf[i] in {2, 3, 50, 51} else buf[i] in {1, 3, 49, 51}))
  {
    hide BasisOdds;
    BasisMessage(buf, bases, read);
    forall i | 0 <= i < |buf|
      ensures Revealed(SymbolOf(buf[i]), bases[i]) <==>
              if bases[i] then buf[i] in {2, 3, 50, 51} else buf[i] in {1, 3, 49, 51}
    {}
  }

  lemma BasisOddsAre(b: Byte, basis: bool, o: Outcome)
    ensures BasisOdds(b, basis, o) ==
            if (o.m0 != o.m1) != Revealed(SymbolOf(b), basis) then 0 else if basis then 4 else 1
  {
    var measure := BasisMeasurement(basis);
    var bits := [o.m0, o.m1];
    OddsOf(b, measure, Render(measure) + "\n", bits);
    ExecEncoding(b, measure, bits);
    ExecBasis(BellState(SymbolOf(b)), basis, o);
    BasisAmplitude(SymbolOf(b), basis, o);
    WeightOfUnit(o, Amplitude(BasisVector(BellState(SymbolOf(b)), basis), o));
  }

  /** The vector a measurement in a basis reads its bits from. */
  function BasisVector(v: Vector, basis: bool): Vector {
    if basis then Swap(On0(H(1), Swap(On0(H(0), v)))) else v
  }

  lemma ExecBasis(v: Vector, basis: bool, o: Outcome)
    ensures Exec(BasisMeasurement(basis), v, [o.m0, o.m1]) == Some(Unit(o, Amplitude(BasisVector(v, basis), o)))
  {
    var bits := [o.m0, o.m1];
    ExecMeasureBoth(BasisVector(v, basis), o);
    if basis {
      var v1 := On0(H(0), v);
      ExecGate(H(1), [M(0), M(1)], v1, BasisVector(v, basis), bits);
      ExecGate(H(0), [H(1)] + [M(0), M(1)], v, v1, bits);
      assert [H(0)] + ([H(1)] + [M(0), M(1)]) == BasisMeasurement(true);
    } else {
      assert BasisMeasurement(false) == [M(0), M(1)];
    }
  }

  lemma BasisAmplitude(s: Symbol, basis: bool, o: Outcome)
    ensures var a := Amplitude(BasisVector(BellState(s), basis), o);
            if (o.m0 != o.m1) != Revealed(s, basis) then a == 0
            else if basis then a == 2 || a == -2
            else a == 1 || a == -1
  {}
}
