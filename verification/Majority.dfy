/** The hardware receiver: frames read from the detection board, each reduced to its most
    frequent symbol. */
module Majority {
  import opened Systems

  type Octet = x: int | 0 <= x < 256

  // ---------- Length-prefixed frames ----------

  /** The value of a little-endian length. */
  function Length(header: seq<Octet>): nat {
    if header == [] then 0 else header[0] + 256 * Length(header[1..])
  }

  function Header(n: nat, width: nat): seq<Octet> {
    if width == 0 then [] else [n % 256] + Header(n / 256, width - 1)
  }

  function Power256(width: nat): nat {
    if width == 0 then 1 else 256 * Power256(width - 1)
  }

  const HEADER_LENGTH := 4

  predicate Framable(payload: seq<Octet>) { |payload| < 0x1_0000_0000 }

  function Frame(payload: seq<Octet>): seq<Octet> {
    Header(|payload|, HEADER_LENGTH) + payload
  }

  function Stream(payloads: seq<seq<Octet>>): seq<Octet> {
    if payloads == [] then [] else Frame(payloads[0]) + Stream(payloads[1..])
  }

  /** Reading one frame: the payload and what is left of the stream, if it does not end
      before the frame does. */
  function ReadFrame(stream: seq<Octet>): Option<(seq<Octet>, seq<Octet>)> {
    if |stream| < HEADER_LENGTH then None
    else
      var size := Length(stream[..HEADER_LENGTH]);
      var rest := stream[HEADER_LENGTH..];
      if |rest| < size then None else Some((rest[..size], rest[size..]))
  }

  lemma {:induction false} LengthOfHeader(n: nat, width: nat)
    requires n < Power256(width)
    ensures |Header(n, width)| == width && Length(Header(n, width)) == n
  {
    if width > 0 {
      LengthOfHeader(n / 256, width - 1);
    }
  }

  /** Reading inverts framing. */
  lemma ReadFrameInverts(payload: seq<Octet>, rest: seq<Octet>)
    requires Framable(payload)
    ensures ReadFrame(Frame(payload) + rest) == Some((payload, rest))
  {
    assert Power256(4) == 0x1_0000_0000 by {
      assert Power256(2) == 65536;
      assert Power256(3) == 256 * Power256(2);
    }
    LengthOfHeader(|payload|, HEADER_LENGTH);
    var stream := Frame(payload) + rest;
    assert stream[..HEADER_LENGTH] == Header(|payload|, HEADER_LENGTH);
    assert stream[HEADER_LENGTH..] == payload + rest;
  }

  /** The size of a frame's payload: four bytes, the least significant first. */
  function SizeAt(stream: seq<Octet>): nat
    requires |stream| >= 4
  {
    var b0: int, b1: int, b2: int, b3: int := stream[0], stream[1], stream[2], stream[3];
    b0 + 0x100 * b1 + 0x1_0000 * b2 + 0x100_0000 * b3
  }

  /** A frame is read in terms of the stream's bytes. */
  lemma ReadFrameIs(stream: seq<Octet>)
    ensures ReadFrame(stream).None? <==> |stream| < 4 || |stream| < 4 + SizeAt(stream)
    ensures |stream| >= 4 && |stream| >= 4 + SizeAt(stream) ==>
              ReadFrame(stream) == Some((stream[4..4 + SizeAt(stream)], stream[4 + SizeAt(stream)..]))
  {
    if |stream| >= 4 {
      var header := stream[..4];
      LengthIs(header);
      hide Length;
      var rest, size := stream[4..], SizeAt(stream);
      if |rest| >= size {
        assert rest[..size] == stream[4..4 + size] && rest[size..] == stream[4 + size..];
      }
    }
  }

  lemma LengthIs(header: seq<Octet>)
    requires |header| == 4
    ensures Length(header) == SizeAt(header)
  {
    var h1, h2, h3 := header[1..], header[1..][1..], header[1..][1..][1..];
    assert h3[1..] == [] && h1[0] == header[1] && h2[0] == header[2] && h3[0] == header[3];
    assert Length(h3) == header[3];
    assert Length(h2) == header[2] + 0x100 * Length(h3);
    assert Length(h1) == header[1] + 0x100 * Length(h2);
  }

  /** The least significant byte comes first. */
  lemma ThreeBytesAreRead(stream: seq<Octet>)
    requires stream == [3, 0, 0, 0, 7, 8, 9, 5]
    ensures ReadFrame(stream) == Some(([7, 8, 9], [5]))
  {
    ReadFrameIs(stream);
    hide ReadFrame;
    assert stream[4..7] == [7, 8, 9] && stream[7..] == [5];
  }

  class TcpClient {
    var incoming: seq<Octet>

    constructor (incoming: seq<Octet>)
      ensures this.incoming == incoming
    {
      this.incoming := incoming;
    }

    /** Read one message; `None` is the exception for a stream that ends too early, after
        all of it has been read. */
    method Read() returns (message: Option<seq<Octet>>)
      modifies this
      ensures var r := ReadFrame(old(incoming));
              if r.None? then message.None? && incoming == []
              else message == Some(r.value.0) && incoming == r.value.1
      ensures message.None? <==> old(|incoming|) < 4 || old(|incoming|) < 4 + SizeAt(old(incoming))
      ensures message.Some? ==>
                var end := 4 + SizeAt(old(incoming));
                message.value == old(incoming)[4..end] && incoming == old(incoming)[end..]
    {
      ReadFrameIs(incoming);
      if |incoming| < HEADER_LENGTH {
        incoming := [];
        return None;
      }
      var size := Length(incoming[..HEADER_LENGTH]);
      incoming := incoming[HEADER_LENGTH..];
      if |incoming| < size {
        incoming := [];
        return None;
      }
      message := Some(incoming[..size]);
      incoming := incoming[size..];
    }
  }

  // ---------- The most frequent symbol ----------

  /** The least of the symbols 0..3 that no other one outnumbers. */
  ghost predicate IsMode(data: seq<Octet>, v: int) {
    && 0 <= v < 4
    && (forall u :: 0 <= u < 4 ==> Occurrences<int>(data, u) <= Occurrences<int>(data, v))
    && (forall u :: 0 <= u < v ==> Occurrences<int>(data, u) < Occurrences<int>(data, v))
  }

  /** The same by multiplicities: no symbol is more frequent, and no lesser one as frequent. */
  ghost predicate MostOften(data: seq<Octet>, v: int) {
    && 0 <= v < 4
    && forall u: Octet :: 0 <= u < 4 ==>
         multiset(data)[u] <= multiset(data)[v] && (u < v ==> multiset(data)[u] < multiset(data)[v])
  }

  lemma ModeIsMostOften(data: seq<Octet>, v: int)
    ensures IsMode(data, v) <==> MostOften(data, v)
  {
    forall u: Octet | 0 <= u < 4 ensures Occurrences<int>(data, u) == multiset(data)[u] {
      CountIsMultiplicity(data, u);
    }
  }

  lemma {:induction false} CountIsMultiplicity(data: seq<Octet>, u: Octet)
    ensures Occurrences<int>(data, u) == multiset(data)[u]
  {
    if data != [] {
      var n := |data| - 1;
      CountIsMultiplicity(data[..n], u);
      assert data == data[..n] + [data[n]];
    }
  }

  lemma ModeIsUnique(data: seq<Octet>, v: int, w: int)
    requires IsMode(data, v) && IsMode(data, w)
    ensures v == w
  {
    assert Occurrences<int>(data, v) == Occurrences<int>(data, w);
  }

  function Mode(data: seq<Octet>): (v: int)
    ensures IsMode(data, v)
  {
    var a, b := Occurrences<int>(data, 0), Occurrences<int>(data, 1);
    var c, d := Occurrences<int>(data, 2), Occurrences<int>(data, 3);
    if a >= b && a >= c && a >= d then 0
    else if b >= c && b >= d then 1
    else if c >= d then 2
    else 3
  }

  // ---------- The processing unit ----------

  datatype View = View(isReceiving: bool, results: seq<int>, requests: seq<bool>, incoming: seq<Octet>)

  /** One call of `process`, if it does not throw. */
  function Processed(v: View): Option<View> {
    if !v.isReceiving then Some(v.(isReceiving := true, requests := v.requests + [true]))
    else
      match ReadFrame(v.incoming)
      case None => None
      case Some((data, rest)) =>
        Some(View(false, v.results + [Mode(data)], v.requests + [false], rest))
  }

  class HardwareReceiver {
    const hardwareConnection: TcpClient
    var isReceiving: bool
    var buffer: seq<int>
    var requests: seq<bool>

    constructor (hardwareConnection: TcpClient)
      ensures this.hardwareConnection == hardwareConnection
      ensures CurrentView() == View(false, [], [], hardwareConnection.incoming)
    {
      this.hardwareConnection := hardwareConnection;
      isReceiving, buffer, requests := false, [], [];
    }

    ghost function CurrentView(): View
      reads this, hardwareConnection
    {
      View(isReceiving, buffer, requests, hardwareConnection.incoming)
    }

    /** Every second request ends a measurement: the board is told to stop, its data are read
        and their most frequent symbol is buffered. */
    method Process() returns (threw: bool)
      modifies this, hardwareConnection
      ensures var after := Processed(old(CurrentView()));
              && threw == after.None?
              && (!threw ==> CurrentView() == after.value)
              && (threw ==>
                    CurrentView() == old(CurrentView()).(requests := old(requests) + [false], incoming := []))
      ensures threw <==> old(isReceiving) && (|old(hardwareConnection.incoming)| < 4
                           || |old(hardwareConnection.incoming)| < 4 + SizeAt(old(hardwareConnection.incoming)))
      ensures requests == old(requests) + [!old(isReceiving)]
      ensures !threw ==> isReceiving == !old(isReceiving)
      ensures !old(isReceiving) ==>
                buffer == old(buffer) && hardwareConnection.incoming == old(hardwareConnection.incoming)
      ensures old(isReceiving) && !threw ==>
                var stream := old(hardwareConnection.incoming);
                var end := 4 + SizeAt(stream);
                && |buffer| == |old(buffer)| + 1 && buffer[..|old(buffer)|] == old(buffer)
                && MostOften(stream[4..end], buffer[|old(buffer)|]) && hardwareConnection.incoming == stream[end..]
    {
      ReadFrameIs(hardwareConnection.incoming);
      if isReceiving {
        requests := requests + [false];
        var data := hardwareConnection.Read();
        if data.None? {
          return true;
        }
        var most := MostFrequent(data.value);
        ModeIsUnique(data.value, most, Mode(data.value));
        ModeIsMostOften(data.value, most);
        buffer := buffer + [most];
      } else {
        requests := requests + [true];
      }
      isReceiving := !isReceiving;
      threw := false;
    }
  }

  /** Count the symbols and pick the first whose count is the maximum. */
  method MostFrequent(data: seq<Octet>) returns (most: int)
    ensures IsMode(data, most) && MostOften(data, most)
  {
    var count := new nat[4](_ => 0);
    var i := 0;
    while i < |data|
      invariant 0 <= i <= |data|
      invariant forall v :: 0 <= v < 4 ==> count[v] == Occurrences<int>(data[..i], v)
    {
      assert data[..i + 1][..i] == data[..i];
      if 0 <= data[i] < 4 {
        count[data[i]] := count[data[i]] + 1;
      }
      i := i + 1;
    }
    assert data[..i] == data;
    var max := count[0];
    var j := 1;
    while j < 4
      invariant 1 <= j <= 4
      invariant exists v :: 0 <= v < j && max == count[v]
      invariant forall v :: 0 <= v < j ==> count[v] <= max
    {
      if max < count[j] {
        max := count[j];
      }
      j := j + 1;
    }
    if max == count[0] {
      most := 0;
    } else if max == count[1] {
      most := 1;
    } else if max == count[2] {
      most := 2;
    } else if max == count[3] {
      most := 3;
    } else {
      assert false;
      most := 0;
    }
    ModeIsMostOften(data, most);
  }

  // ---------- Runs ----------

  /** n calls of `process`. */
  function ProcessMany(v: View, n: nat): Option<View>
    decreases n
  {
    if n == 0 then Some(v)
    else
      match Processed(v)
      case None => None
      case Some(w) => ProcessMany(w, n - 1)
  }

  function Modes(payloads: seq<seq<Octet>>): seq<int> {
    seq(|payloads|, i requires 0 <= i < |payloads| => Mode(payloads[i]))
  }

  function Alternating(n: nat): seq<bool> {
    seq(n, i => i % 2 == 0)
  }

  /** Two calls on a waiting stream measure and buffer one frame. */
  lemma ProcessPair(v: View, payload: seq<Octet>, rest: seq<Octet>)
    requires !v.isReceiving && Framable(payload) && v.incoming == Frame(payload) + rest
    ensures var w := Processed(v);
            w.Some? && Processed(w.value) ==
                       Some(View(false, v.results + [Mode(payload)], v.requests + [true] + [false], rest))
  {
    ReadFrameInverts(payload, rest);
  }

  lemma FewCalls(v: View, n: nat)
    requires !v.isReceiving && n < 2
    ensures ProcessMany(v, n) == Some(v.(isReceiving := n == 1, requests := v.requests + Alternating(n)))
  {
    assert v.requests + Alternating(0) == v.requests;
    assert Alternating(1) == [true];
    if n == 1 {
      var w := Processed(v).value;
      assert ProcessMany(w, 0) == Some(w);
    }
  }

  lemma TwoCalls(v: View, w: View, n: nat)
    requires n >= 2 && Processed(v).Some? && Processed(Processed(v).value) == Some(w)
    ensures ProcessMany(v, n) == ProcessMany(w, n - 2)
  {
    assert ProcessMany(Processed(v).value, n - 1) == ProcessMany(w, n - 2);
  }

  lemma ModesCons(p: seq<Octet>, tail: seq<seq<Octet>>, k: nat)
    requires k <= |tail|
    ensures [Mode(p)] + Modes(tail[..k]) == Modes(([p] + tail)[..k + 1])
    ensures ([p] + tail)[k + 1..] == tail[k..]
  {}

  /** After n calls on a stream of frames the buffer holds the modes of the first n/2 frames,
      the board has been told to start and stop in turn, and the rest of the stream waits. */
  ghost function AfterCalls(v: View, payloads: seq<seq<Octet>>, rest: seq<Octet>, n: nat): View
    requires n / 2 <= |payloads|
  {
    View(n % 2 == 1, v.results + Modes(payloads[..n / 2]), v.requests + Alternating(n),
         Stream(payloads[n / 2..]) + rest)
  }

  lemma AlternatingCons(requests: seq<bool>, n: nat)
    requires n >= 2
    ensures requests + [true] + [false] + Alternating(n - 2) == requests + Alternating(n)
  {}

  lemma ResultsCons(results: seq<int>, p: seq<Octet>, tail: seq<seq<Octet>>, k: nat)
    requires k <= |tail|
    ensures results + [Mode(p)] + Modes(tail[..k]) == results + Modes(([p] + tail)[..k + 1])
  {
    ModesCons(p, tail, k);
    assert results + [Mode(p)] + Modes(tail[..k]) == results + ([Mode(p)] + Modes(tail[..k]));
  }

  lemma AfterCallsCons(v: View, p: seq<Octet>, tail: seq<seq<Octet>>, rest: seq<Octet>, n: nat)
    requires n >= 2 && n / 2 <= |tail| + 1
    ensures var w := View(false, v.results + [Mode(p)], v.requests + [true] + [false], Stream(tail) + rest);
            AfterCalls(w, tail, rest, n - 2) == AfterCalls(v, [p] + tail, rest, n)
  {
    hide Stream, Mode, Occurrences, Modes, Alternating;
    var k := (n - 2) / 2;
    HalfOf(n);
    ResultsCons(v.results, p, tail, k);
    AlternatingCons(v.requests, n);
    DropCons(p, tail, k);
  }

  lemma HalfOf(n: nat)
    requires n >= 2
    ensures n / 2 == (n - 2) / 2 + 1 && n % 2 == (n - 2) % 2
  {}

  lemma DropCons(p: seq<Octet>, tail: seq<seq<Octet>>, k: nat)
    requires k <= |tail|
    ensures ([p] + tail)[k + 1..] == tail[k..]
  {}

  lemma {:induction false} ModesOfStream(v: View, payloads: seq<seq<Octet>>, rest: seq<Octet>, n: nat)
    requires !v.isReceiving && v.incoming == Stream(payloads) + rest
    requires n / 2 <= |payloads| && forall p :: p in payloads ==> Framable(p)
    ensures ProcessMany(v, n) == Some(AfterCalls(v, payloads, rest, n))
    decreases n
  {
    if n < 2 {
      FewCalls(v, n);
      assert payloads[..0] == [] && payloads[0..] == payloads;
      assert v.results + Modes([]) == v.results;
    } else {
      var p, tail := payloads[0], payloads[1..];
      assert p in payloads && payloads == [p] + tail;
      assert Stream(payloads) + rest == Frame(p) + (Stream(tail) + rest);
      ProcessPair(v, p, Stream(tail) + rest);
      var w := View(false, v.results + [Mode(p)], v.requests + [true] + [false], Stream(tail) + rest);
      TwoCalls(v, w, n);
      ModesOfStream(w, tail, rest, n - 2);
      AfterCallsCons(v, p, tail, rest, n);
    }
  }
}
