/** The circuit language of the simulator: its text, and what a circuit does to two qubits.

    The meaning of a circuit is a vector of four amplitudes.  A common factor changes no
    outcome, so the vector is kept unnormalised and the factor i of the Y gate is dropped:
    the amplitudes stay integers.  By the Born rule a measured bit is possible exactly if
    the projection of the vector on it is not zero, and the squared lengths of the
    projections are the odds. */
module Circuits {
  import opened Systems
  import opened Digits

  datatype Gate =
    | Init(n: nat)
    | H(q: nat)
    | C(c: nat, t: nat)
    | I(q: nat)
    | X(q: nat)
    | Y(q: nat)
    | Z(q: nat)
    | M(q: nat)

  // ---------- Text ----------

  predicate Printable(g: Gate) {
    match g
    case Init(n) => n < 10
    case C(c, t) => c < 10 && t < 10
    case _ => g.q < 10
  }

  predicate AllPrintable(gs: seq<Gate>) {
    forall g :: g in gs ==> Printable(g)
  }

  function RenderGate(g: Gate): string
    requires Printable(g)
  {
    match g
    case Init(n) => "init " + [Digit(n)]
    case H(q) => "h " + [Digit(q)]
    case C(c, t) => "c " + [Digit(c)] + "," + [Digit(t)]
    case I(q) => "i " + [Digit(q)]
    case X(q) => "x " + [Digit(q)]
    case Y(q) => "y " + [Digit(q)]
    case Z(q) => "z " + [Digit(q)]
    case M(q) => "m " + [Digit(q)]
  }

  /** Gates one per line, the last line unterminated. */
  function Render(gs: seq<Gate>): string
    requires AllPrintable(gs)
  {
    if gs == [] then ""
    else if |gs| == 1 then RenderGate(gs[0])
    else RenderGate(gs[0]) + "\n" + Render(gs[1..])
  }

  function ParseGate(line: string): Option<Gate> {
    if |line| == 3 && line[1] == ' ' && IsDigit(line[2]) then
      var q := Value(line[2]);
      match line[0]
      case 'h' => Some(H(q))
      case 'i' => Some(I(q))
      case 'x' => Some(X(q))
      case 'y' => Some(Y(q))
      case 'z' => Some(Z(q))
      case 'm' => Some(M(q))
      case _ => None
    else if |line| == 5 && line[..2] == "c " && IsDigit(line[2]) && line[3] == ',' && IsDigit(line[4]) then
      Some(C(Value(line[2]), Value(line[4])))
    else if |line| == 6 && line[..5] == "init " && IsDigit(line[5]) then
      Some(Init(Value(line[5])))
    else None
  }

  /** The position of the first newline, or the end of the text. */
  function LineEnd(text: string): (n: nat)
    ensures n <= |text|
    ensures '\n' !in text[..n]
    ensures n < |text| ==> text[n] == '\n'
  {
    if text == [] || text[0] == '\n' then 0 else 1 + LineEnd(text[1..])
  }

  /** Line by line; a final newline ends the last line and starts no new one. */
  function Parse(text: string): Option<seq<Gate>>
    decreases |text|
  {
    if text == "" then Some([])
    else
      var n := LineEnd(text);
      match ParseGate(text[..n])
      case None => None
      case Some(g) =>
        var rest := Parse(if n == |text| then "" else text[n + 1..]);
        if rest.None? then None else Some([g] + rest.value)
  }

  lemma ParseRenderGate(g: Gate)
    requires Printable(g)
    ensures ParseGate(RenderGate(g)) == Some(g)
    ensures '\n' !in RenderGate(g) && RenderGate(g) != ""
  {
    if g.Init? {
      assert RenderGate(g)[..5] == "init ";
    } else if g.C? {
      assert RenderGate(g)[..2] == "c ";
    }
  }

  lemma {:induction false} LineEndUnique(line: string, rest: string)
    requires '\n' !in line && (rest == "" || rest[0] == '\n')
    ensures LineEnd(line + rest) == |line|
  {
    if line == "" {
      assert line + rest == rest;
    } else {
      assert line[0] in line;
      assert (line + rest)[1..] == line[1..] + rest;
      LineEndUnique(line[1..], rest);
    }
  }

  lemma ParseFirst(g: Gate, rest: string)
    requires Printable(g) && (rest == "" || rest[0] == '\n')
    ensures var tail := Parse(if rest == "" then "" else rest[1..]);
            Parse(RenderGate(g) + rest) == if tail.None? then None else Some([g] + tail.value)
  {
    var line := RenderGate(g);
    ParseRenderGate(g);
    LineEndUnique(line, rest);
    assert (line + rest)[..|line|] == line;
    assert rest != "" ==> (line + rest)[|line| + 1..] == rest[1..];
  }

  lemma ParseOne(g: Gate, end: string)
    requires Printable(g) && (end == "" || end == "\n")
    ensures Parse(RenderGate(g) + end) == Some([g])
  {
    ParseFirst(g, end);
    assert end != "" ==> end[1..] == "";
    assert Parse("") == Some([]);
    assert [g] + [] == [g];
  }

  lemma ParseMore(g: Gate, rest: string)
    requires Printable(g) && Parse(rest).Some?
    ensures Parse(RenderGate(g) + "\n" + rest) == Some([g] + Parse(rest).value)
  {
    ParseFirst(g, "\n" + rest);
    assert ("\n" + rest)[1..] == rest;
    assert RenderGate(g) + "\n" + rest == RenderGate(g) + ("\n" + rest);
  }

  /** Parsing inverts rendering, with or without a newline after the last gate. */
  lemma {:induction false} ParseRender(gs: seq<Gate>, end: string)
    requires AllPrintable(gs)
    requires end == "" || (end == "\n" && gs != [])
    ensures Parse(Render(gs) + end) == Some(gs)
  {
    if gs == [] {
      return;
    }
    hide Parse, RenderGate, Printable;
    if |gs| == 1 {
      ParseOne(gs[0], end);
      assert gs == [gs[0]];
    } else {
      ParseRender(gs[1..], end);
      ParseMore(gs[0], Render(gs[1..]) + end);
      assert Render(gs) + end == RenderGate(gs[0]) + "\n" + (Render(gs[1..]) + end);
      assert gs == [gs[0]] + gs[1..];
    }
  }

  // ---------- Meaning ----------

  /** The amplitudes of |00>, |01>, |10> and |11>, qubit 0 first. */
  datatype Vector = Vector(v00: int, v01: int, v10: int, v11: int)

  const NULL_VECTOR := Vector(0, 0, 0, 0)

  /** The squared length. */
  function Weight(v: Vector): int {
    v.v00 * v.v00 + v.v01 * v.v01 + v.v10 * v.v10 + v.v11 * v.v11
  }

  function Swap(v: Vector): Vector { Vector(v.v00, v.v10, v.v01, v.v11) }

  /** A gate on qubit 0. */
  function On0(g: Gate, v: Vector): Vector {
    match g
    case H(_) => Vector(v.v00 + v.v10, v.v01 + v.v11, v.v00 - v.v10, v.v01 - v.v11)
    case X(_) => Vector(v.v10, v.v11, v.v00, v.v01)
    case Y(_) => Vector(-v.v10, -v.v11, v.v00, v.v01)
    case Z(_) => Vector(v.v00, v.v01, -v.v10, -v.v11)
    case _ => v
  }

  /** Projection on "qubit 0 reads b". */
  function Project0(v: Vector, b: bool): Vector {
    if b then Vector(0, 0, v.v10, v.v11) else Vector(v.v00, v.v01, 0, 0)
  }

  /** The effect of a gate; `bit` is what a measurement reads.  `None`: the gate names a
      qubit that does not exist. */
  function Apply(g: Gate, v: Vector, bit: bool): Option<Vector> {
    match g
    case Init(n) => if n == 2 then Some(Vector(1, 0, 0, 0)) else None
    case C(c, t) =>
      if c == 0 && t == 1 then Some(Vector(v.v00, v.v01, v.v11, v.v10))
      else if c == 1 && t == 0 then Some(Vector(v.v00, v.v11, v.v10, v.v01))
      else None
    case M(q) =>
      if q == 0 then Some(Project0(v, bit)) else if q == 1 then Some(Swap(Project0(Swap(v), bit))) else None
    case _ =>
      if g.q == 0 then Some(On0(g, v)) else if g.q == 1 then Some(Swap(On0(g, Swap(v)))) else None
  }

  /** The unnormalised vector after a circuit whose measurements read `bits`, in order. */
  function Exec(gs: seq<Gate>, v: Vector, bits: seq<bool>): Option<Vector> {
    if gs == [] then (if bits == [] then Some(v) else None)
    else if gs[0].M? && bits == [] then None
    else
      match Apply(gs[0], v, gs[0].M? && bits[0])
      case None => None
      case Some(w) => Exec(gs[1..], w, if gs[0].M? then bits[1..] else bits)
  }

  /** The odds of reading `bits` when the circuit of a text is run. */
  function Odds(text: string, bits: seq<bool>): int {
    match Parse(text)
    case None => 0
    case Some(gs) =>
      (match Exec(gs, NULL_VECTOR, bits)
       case None => 0
       case Some(v) => Weight(v))
  }
}
