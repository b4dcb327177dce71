/** Sets of client actions, packed into one word by exclusive or. */
module Actions {
  import opened Systems

  datatype Action = PUSH | WAIT | REQUEST | REPLY

  function Code(a: Action): bv64 {
    match a
    case PUSH => 1
    case WAIT => 2
    case REQUEST => 4
    case REPLY => 8
  }

  /** The position of the only set bit of an action's code. */
  function Log2(a: Action): bv6 {
    match a
    case PUSH => 0
    case WAIT => 1
    case REQUEST => 2
    case REPLY => 3
  }

  function Pack(list: seq<Action>): bv64
    requires list != []
  {
    if |list| == 1 then Code(list[0]) else Code(list[0]) ^ Pack(list[1..])
  }

  predicate Check(query: Action, packed: bv64) {
    ((packed & Code(query)) >> Log2(query)) != 0
  }

  /** The list asks for a thread that reads requests. */
  predicate IsSync(packed: bv64) { Check(REQUEST, packed) || Check(PUSH, packed) }

  /** The list asks for a thread that sends what is buffered. */
  predicate IsAsync(packed: bv64) { Check(REPLY, packed) || Check(WAIT, packed) }

  lemma CheckCode(query: Action, a: Action)
    ensures Check(query, Code(a)) <==> query == a
  {}

  /** One bit of an exclusive or. */
  lemma MaskXor(mask: bv64, shift: bv6, a: bv64, b: bv64)
    requires mask == 1 << shift
    ensures ((a ^ b) & mask) >> shift == ((a & mask) >> shift) ^ ((b & mask) >> shift)
    ensures (a & mask) >> shift == 0 || (a & mask) >> shift == 1
  {}

  lemma CheckXor(query: Action, a: Action, packed: bv64)
    ensures Check(query, Code(a) ^ packed) <==> (query == a) != Check(query, packed)
  {
    MaskXor(Code(query), Log2(query), Code(a), packed);
    MaskXor(Code(query), Log2(query), packed, packed);
    CheckCode(query, a);
  }

  /** Checking a packed list finds exactly the actions that occur an odd number of times. */
  lemma {:induction false} CheckPack(query: Action, list: seq<Action>)
    requires list != []
    ensures Check(query, Pack(list)) <==> Occurrences(list, query) % 2 == 1
  {
    if |list| == 1 {
      CheckCode(query, list[0]);
      assert list == [] + [list[0]];
      OccurrencesSnoc([], list[0], query);
    } else {
      CheckPack(query, list[1..]);
      CheckXor(query, list[0], Pack(list[1..]));
      OccurrencesCons(list[0], list[1..], query);
      assert list == [list[0]] + list[1..];
    }
  }

  ghost predicate NoDuplicates(list: seq<Action>) {
    forall i, j :: 0 <= i < j < |list| ==> list[i] != list[j]
  }

  lemma {:induction false} OccurrencesOnce(a: Action, list: seq<Action>)
    requires NoDuplicates(list)
    ensures Occurrences(list, a) == if a in list then 1 else 0
  {
    if list != [] {
      var n := |list| - 1;
      OccurrencesOnce(a, list[..n]);
      assert list == list[..n] + [list[n]];
    }
  }

  /** For a list without duplicates, checking is membership; with duplicates it is not. */
  lemma CheckMember(query: Action, list: seq<Action>)
    requires list != []
    ensures NoDuplicates(list) ==> (Check(query, Pack(list)) <==> query in list)
  {
    CheckPack(query, list);
    if NoDuplicates(list) {
      OccurrencesOnce(query, list);
    }
  }

  /** What a list without duplicates asks for. */
  lemma AsksFor(list: seq<Action>)
    requires list != [] && NoDuplicates(list)
    ensures IsSync(Pack(list)) <==> REQUEST in list || PUSH in list
    ensures IsAsync(Pack(list)) <==> REPLY in list || WAIT in list
  {
    CheckMember(REQUEST, list);
    CheckMember(PUSH, list);
    CheckMember(REPLY, list);
    CheckMember(WAIT, list);
    hide Check, Pack;
  }

  /** The words clients and modules exchange. */
  lemma PackedWords()
    ensures Pack([PUSH]) == 1 && Pack([WAIT]) == 2 && Pack([REQUEST]) == 4 && Pack([REPLY]) == 8
    ensures Pack([PUSH, WAIT]) == 3 && Pack([REQUEST, PUSH]) == 5
  {
    PackTwo(PUSH, WAIT);
    PackTwo(REQUEST, PUSH);
  }

  lemma PackTwo(a: Action, b: Action)
    ensures Pack([a, b]) == Code(a) ^ Code(b)
  {
    assert [a, b][1..] == [b];
  }

  /** Checking is membership if and only if no action of the list occurs an even number of
      times. */
  lemma CheckIsMembership(list: seq<Action>)
    requires list != []
    ensures (forall q :: Check(q, Pack(list)) <==> q in list)
            <==> (forall q :: q in list ==> Occurrences(list, q) % 2 == 1)
  {
    hide Check, Pack, Occurrences;
    forall q ensures Check(q, Pack(list)) <==> Occurrences(list, q) % 2 == 1 {
      CheckPack(q, list);
    }
    forall q ensures q !in list ==> Occurrences(list, q) == 0 {
      OccursIfIn(list, q);
    }
  }

  /** An action listed twice is lost, and checking it fails. */
  lemma PushTwice()
    ensures PUSH in [PUSH, PUSH] && !Check(PUSH, Pack([PUSH, PUSH]))
  {
    CheckPack(PUSH, [PUSH, PUSH]);
    OccurrencesSnoc([PUSH], PUSH, PUSH);
    OccurrencesSnoc([], PUSH, PUSH);
    assert [PUSH, PUSH] == [PUSH] + [PUSH] && [] + [PUSH] == [PUSH];
    assert [PUSH, PUSH][0] == PUSH;
  }
}
