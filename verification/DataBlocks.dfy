/** The ownership of the data block of a buffer item, from its construction by a producer to
    the callback with which the client library releases it. */
module DataBlocks {
  import opened Systems
  import opened Symbols

  /** A buffer item: the address of its block, if it has one, and its size. */
  datatype Item = Item(data: Option<nat>, size: nat)

  const EMPTY := Item(None, 0)

  /** The heap of blocks; `freed` are the addresses released so far and `fault` says that an
      address has been released that was not allocated. */
  datatype Heap = Heap(blocks: map<nat, seq<Byte>>, next: nat, freed: set<nat>, fault: bool)

  /** The constructor copies its data into a new block, unless there is none. */
  function Construct(h: Heap, data: Option<seq<Byte>>, size: nat): (Heap, Item)
    requires data.Some? ==> |data.value| == size
  {
    if data.Some? && size != 0
    then (h.(blocks := h.blocks[h.next := data.value], next := h.next + 1), Item(Some(h.next), size))
    else (h, Item(None, size))
  }

  /** The destructor releases the block, if the item still has one. */
  function Destroy(h: Heap, item: Item): Heap {
    if item.data.None? then h
    else
      h.(blocks := h.blocks - {item.data.value}, freed := h.freed + {item.data.value},
         fault := h.fault || item.data.value !in h.blocks)
  }

  class BlockHeap {
    var heap: Heap

    constructor ()
      ensures heap == Heap(map[], 0, {}, false)
    {
      heap := Heap(map[], 0, {}, false);
    }
  }

  class BufferItem {
    var data: Option<nat>
    var size: nat

    ghost function View(): Item
      reads this
    {
      Item(data, size)
    }

    constructor (memory: BlockHeap, bytes: Option<seq<Byte>>, size: nat)
      requires bytes.Some? ==> |bytes.value| == size
      modifies memory
      ensures (memory.heap, View()) == Construct(old(memory.heap), bytes, size)
      ensures this.size == size && (data.Some? <==> bytes.Some? && size != 0)
      ensures data.Some? ==>
                && data.value == old(memory.heap.next) && memory.heap.next == data.value + 1
                && memory.heap.blocks == old(memory.heap.blocks)[data.value := bytes.value]
                && |memory.heap.blocks[data.value]| == size
      ensures data.None? ==> memory.heap == old(memory.heap)
    {
      this.size := size;
      if bytes.Some? && size != 0 {
        data := Some(memory.heap.next);
        memory.heap := memory.heap.(blocks := memory.heap.blocks[memory.heap.next := bytes.value],
                                    next := memory.heap.next + 1);
      } else {
        data := None;
      }
    }

    /** The move constructor takes the block and leaves the source empty. */
    constructor Move(item: BufferItem)
      modifies item
      ensures View() == old(item.View()) && item.View() == EMPTY
      ensures data == old(item.data) && size == old(item.size) && item.data.None? && item.size == 0
    {
      data := item.data;
      size := item.size;
      new;
      item.data := None;
      item.size := 0;
    }

    /** Move assignment overwrites what the target held, without releasing it. */
    method Assign(item: BufferItem)
      modifies this, item
      ensures item.View() == EMPTY && item.data.None? && item.size == 0
      ensures this != item ==> View() == old(item.View())
    {
      data := item.data;
      item.data := None;
      size := item.size;
      item.size := 0;
    }

    method Release(memory: BlockHeap)
      modifies memory
      ensures memory.heap == Destroy(old(memory.heap), View())
      ensures data.None? ==> memory.heap == old(memory.heap)
      ensures data.Some? ==>
                && memory.heap.blocks == old(memory.heap.blocks) - {data.value}
                && memory.heap.freed == old(memory.heap.freed) + {data.value}
                && memory.heap.next == old(memory.heap.next)
                && (memory.heap.fault <==> old(memory.heap.fault) || data.value !in old(memory.heap.blocks))
    {
      if data.Some? {
        memory.heap := memory.heap.(blocks := memory.heap.blocks - {data.value},
                                    freed := memory.heap.freed + {data.value},
                                    fault := memory.heap.fault || data.value !in memory.heap.blocks);
      }
    }
  }

  // ---------- The pipeline ----------

  /** Producers' temporaries, the shared queue, the batch of the flush thread, the item it is
      about to hand over and the items the client library holds.  `moved` says that the front
      of the batch has been moved out.  `pushed` and `handed` record bytes. */
  datatype State = State(
    heap: Heap, temps: seq<Item>, queue: seq<Item>, local: seq<Item>, moved: bool, outgoing: Option<Item>,
    held: seq<Item>, pushed: seq<seq<Byte>>, handed: seq<seq<Byte>>)

  datatype Label =
    | Make(data: Option<seq<Byte>>, size: nat)
    | Push(i: nat)
    | DropTemp(i: nat)
    | PopAll
    | MoveFront
    | PopFront
    | Send
    | FreeCallback(i: nat)

  const INITIAL := State(Heap(map[], 0, {}, false), [], [], [], false, None, [], [], [])

  /** The bytes of an item. */
  function Content(h: Heap, item: Item): seq<Byte> {
    if item.data.Some? && item.data.value in h.blocks then h.blocks[item.data.value] else []
  }

  function Next(s: State, l: Label): Option<State> {
    match l
    case Make(data, size) =>
      if data.Some? && |data.value| != size then None
      else
        var (h, item) := Construct(s.heap, data, size);
        Some(s.(heap := h, temps := s.temps + [item]))
    case Push(i) =>
      if i < |s.temps|
      then Some(s.(temps := s.temps[i := EMPTY], queue := s.queue + [s.temps[i]],
                   pushed := s.pushed + [Content(s.heap, s.temps[i])]))
      else None
    case DropTemp(i) =>
      if i < |s.temps|
      then Some(s.(temps := s.temps[..i] + s.temps[i + 1..], heap := Destroy(s.heap, s.temps[i])))
      else None
    case PopAll =>
      if s.local == [] then Some(s.(local := s.queue, queue := [])) else None
    case MoveFront =>
      if s.local != [] && !s.moved && s.outgoing.None?
      then Some(s.(local := s.local[0 := EMPTY], moved := true, outgoing := Some(s.local[0])))
      else None
    case PopFront =>
      if s.local != [] && s.moved
      then Some(s.(local := s.local[1..], moved := false, heap := Destroy(s.heap, s.local[0])))
      else None
    case Send =>
      if s.outgoing.Some? && !s.moved
      then Some(s.(outgoing := None, held := s.held + [s.outgoing.value],
                   handed := s.handed + [Content(s.heap, s.outgoing.value)]))
      else None
    case FreeCallback(i) =>
      if i < |s.held|
      then Some(s.(held := s.held[..i] + s.held[i + 1..], heap := Destroy(s.heap, s.held[i])))
      else None
  }

  // ---------- One owner per block ----------

  ghost function Owns(item: Item, a: nat): nat { if item.data == Some(a) then 1 else 0 }

  /** How many of the items own the block at an address. */
  ghost function Owners(items: seq<Item>, a: nat): nat {
    if items == [] then 0 else Owns(items[0], a) + Owners(items[1..], a)
  }

  ghost function Outgoing(s: State): seq<Item> {
    if s.outgoing.Some? then [s.outgoing.value] else []
  }

  ghost function AllOwners(s: State, a: nat): nat {
    Owners(s.temps, a) + Owners(s.queue, a) + Owners(s.local, a) + Owners(Outgoing(s), a) + Owners(s.held, a)
  }

  lemma {:induction false} OwnersAppend(xs: seq<Item>, ys: seq<Item>, a: nat)
    ensures Owners(xs + ys, a) == Owners(xs, a) + Owners(ys, a)
  {
    if xs == [] {
      assert xs + ys == ys;
    } else {
      assert (xs + ys)[1..] == xs[1..] + ys;
      OwnersAppend(xs[1..], ys, a);
    }
  }

  lemma OwnersSnoc(xs: seq<Item>, x: Item, a: nat)
    ensures Owners(xs + [x], a) == Owners(xs, a) + Owns(x, a)
  {
    OwnersAppend(xs, [x], a);
  }

  lemma OwnersRemove(xs: seq<Item>, i: nat, a: nat)
    requires i < |xs|
    ensures Owners(xs[..i] + xs[i + 1..], a) + Owns(xs[i], a) == Owners(xs, a)
  {
    OwnersAppend(xs[..i], xs[i + 1..], a);
    OwnersAppend(xs[..i], xs[i..], a);
    assert xs == xs[..i] + xs[i..] && xs[i..][1..] == xs[i + 1..];
  }

  lemma {:induction false} OwnersUpdate(xs: seq<Item>, i: nat, x: Item, a: nat)
    requires i < |xs|
    ensures Owners(xs[i := x], a) + Owns(xs[i], a) == Owners(xs, a) + Owns(x, a)
    decreases i
  {
    if i == 0 {
      assert xs[0 := x][1..] == xs[1..];
    } else {
      assert xs[i := x][1..] == xs[1..][i - 1 := x];
      OwnersUpdate(xs[1..], i - 1, x, a);
    }
  }

  /** An allocated block has one owner, a released or unused address none. */
  ghost predicate OneOwner(s: State, a: nat) {
    AllOwners(s, a) == if a in s.heap.blocks then 1 else 0
  }

  /** Every allocated block has exactly one owner, every address ever used is either
      allocated or released, and nothing has been released twice. */
  ghost predicate Safe(s: State) {
    && !s.heap.fault
    && (forall a: nat :: OneOwner(s, a))
    && (forall a: nat :: a in s.heap.blocks ==> a !in s.heap.freed)
    && (forall a: nat :: a < s.heap.next <==> a in s.heap.blocks || a in s.heap.freed)
    && (s.moved ==> s.local != [] && s.local[0].data.None?)
  }

  /** A step that only moves items keeps the number of owners of every address. */
  lemma MoveKeepsOwners(s: State, l: Label, a: nat)
    requires Next(s, l).Some? && (l.Push? || l.PopAll? || l.MoveFront? || l.Send?)
    ensures AllOwners(Next(s, l).value, a) == AllOwners(s, a)
  {
    match l
    case Push(i) =>
      OwnersUpdate(s.temps, i, EMPTY, a);
      OwnersSnoc(s.queue, s.temps[i], a);
    case PopAll =>
    case MoveFront =>
      OwnersUpdate(s.local, 0, EMPTY, a);
      OwnersSnoc([], s.local[0], a);
      assert [] + [s.local[0]] == [s.local[0]];
    case Send =>
      OwnersSnoc(s.held, s.outgoing.value, a);
      OwnersSnoc([], s.outgoing.value, a);
      assert [] + [s.outgoing.value] == [s.outgoing.value];
  }

  /** The item a step destroys. */
  ghost function Destroyed(s: State, l: Label): Item
    requires Next(s, l).Some? && (l.DropTemp? || l.PopFront? || l.FreeCallback?)
  {
    match l
    case DropTemp(i) => s.temps[i]
    case PopFront => s.local[0]
    case FreeCallback(i) => s.held[i]
  }

  lemma DestroyTakesOwner(s: State, l: Label, a: nat)
    requires Next(s, l).Some? && (l.DropTemp? || l.PopFront? || l.FreeCallback?)
    ensures AllOwners(Next(s, l).value, a) + Owns(Destroyed(s, l), a) == AllOwners(s, a)
    ensures Next(s, l).value.heap == Destroy(s.heap, Destroyed(s, l))
  {
    match l
    case DropTemp(i) => OwnersRemove(s.temps, i, a);
    case PopFront =>
    case FreeCallback(i) => OwnersRemove(s.held, i, a);
  }

  lemma DestroyKeepsSafe(s: State, l: Label)
    requires Safe(s) && Next(s, l).Some? && (l.DropTemp? || l.PopFront? || l.FreeCallback?)
    ensures Safe(Next(s, l).value)
  {
    var s' := Next(s, l).value;
    var item := Destroyed(s, l);
    forall a: nat ensures OneOwner(s', a) {
      DestroyTakesOwner(s, l, a);
      assert OneOwner(s, a);
    }
    if item.data.Some? {
      DestroyTakesOwner(s, l, item.data.value);
      assert OneOwner(s, item.data.value);
    }
  }

  lemma MakeKeepsSafe(s: State, data: Option<seq<Byte>>, size: nat)
    requires Safe(s) && Next(s, Make(data, size)).Some?
    ensures Safe(Next(s, Make(data, size)).value)
  {
    var s' := Next(s, Make(data, size)).value;
    forall a: nat ensures OneOwner(s', a) {
      OwnersSnoc(s.temps, s'.temps[|s.temps|], a);
      assert OneOwner(s, a);
    }
  }

  lemma StepKeepsSafe(s: State, l: Label)
    requires Safe(s) && Next(s, l).Some?
    ensures Safe(Next(s, l).value)
  {
    match l
    case Make(data, size) => MakeKeepsSafe(s, data, size);
    case DropTemp(_) => DestroyKeepsSafe(s, l);
    case PopFront => DestroyKeepsSafe(s, l);
    case FreeCallback(_) => DestroyKeepsSafe(s, l);
    case _ =>
      forall a: nat ensures OneOwner(Next(s, l).value, a) {
        MoveKeepsOwners(s, l, a);
        assert OneOwner(s, a);
      }
  }

  ghost function Contents(h: Heap, items: seq<Item>): seq<seq<Byte>> {
    seq(|items|, i requires 0 <= i < |items| => Content(h, items[i]))
  }

  /** The batch without the item that has been moved out of its front. */
  ghost function Batch(s: State): seq<Item> {
    if s.moved && s.local != [] then s.local[1..] else s.local
  }

  /** The bytes handed over, then those of the outgoing item, the batch and the queue are the
      bytes that were pushed, in order. */
  ghost predicate Intact(s: State) {
    s.handed + Contents(s.heap, Outgoing(s)) + Contents(s.heap, Batch(s)) + Contents(s.heap, s.queue) == s.pushed
  }

  lemma {:induction false} NotOwned(items: seq<Item>, i: nat, a: nat)
    requires i < |items| && Owners(items, a) == 0
    ensures items[i].data != Some(a)
    decreases i
  {
    if i > 0 {
      NotOwned(items[1..], i - 1, a);
    }
  }

  /** Bytes at addresses an item does not own do not matter to it. */
  lemma ContentsKept(h: Heap, h': Heap, items: seq<Item>, a: nat)
    requires Owners(items, a) == 0
    requires h'.blocks - {a} == h.blocks - {a}
    ensures Contents(h', items) == Contents(h, items)
  {
    forall i | 0 <= i < |items| ensures Content(h', items[i]) == Content(h, items[i]) {
      NotOwned(items, i, a);
      if items[i].data.Some? {
        var b := items[i].data.value;
        assert b in h.blocks <==> b in h.blocks - {a};
        assert b in h'.blocks <==> b in h'.blocks - {a};
        assert b in h.blocks ==> (h.blocks - {a})[b] == h.blocks[b] && (h'.blocks - {a})[b] == h'.blocks[b];
      }
    }
  }

  lemma BatchOwners(s: State, a: nat)
    ensures AllOwners(s, a) == 0 ==> Owners(Batch(s), a) == 0
  {}

  /** Allocating or releasing a block leaves the bytes of all items under way intact. */
  lemma BytesKept(s: State, h': Heap, a: nat)
    requires AllOwners(s, a) == 0 && Intact(s) && h'.blocks - {a} == s.heap.blocks - {a}
    ensures Intact(s.(heap := h'))
  {
    BatchOwners(s, a);
    ContentsKept(s.heap, h', Outgoing(s), a);
    ContentsKept(s.heap, h', Batch(s), a);
    ContentsKept(s.heap, h', s.queue, a);
  }

  lemma DestroyKeepsIntact(s: State, l: Label)
    requires Safe(s) && Intact(s) && Next(s, l).Some? && (l.DropTemp? || l.PopFront? || l.FreeCallback?)
    ensures Intact(Next(s, l).value)
  {
    var s' := Next(s, l).value;
    var item := Destroyed(s, l);
    assert Intact(s'.(heap := s.heap)) by {
      assert Batch(s') == Batch(s);
    }
    if item.data.Some? {
      var a := item.data.value;
      DestroyTakesOwner(s, l, a);
      assert OneOwner(s, a);
      var h' := s'.heap;
      assert h'.blocks - {a} == s.heap.blocks - {a};
      BytesKept(s'.(heap := s.heap), h', a);
      assert s'.(heap := s.heap).(heap := h') == s';
    } else {
      assert s'.(heap := s.heap) == s';
    }
  }

  lemma MakeKeepsIntact(s: State, data: Option<seq<Byte>>, size: nat)
    requires Safe(s) && Intact(s) && Next(s, Make(data, size)).Some?
    ensures Intact(Next(s, Make(data, size)).value)
  {
    var s' := Next(s, Make(data, size)).value;
    var a := s.heap.next;
    assert OneOwner(s, a);
    assert s'.heap.blocks - {a} == s.heap.blocks - {a};
    BytesKept(s, s'.heap, a);
  }

  lemma MoveKeepsIntact(s: State, l: Label)
    requires Safe(s) && Intact(s) && Next(s, l).Some? && (l.Push? || l.PopAll? || l.MoveFront? || l.Send?)
    ensures Intact(Next(s, l).value)
  {
    var s' := Next(s, l).value;
    match l
    case Push(i) =>
      assert Contents(s.heap, s'.queue) == Contents(s.heap, s.queue) + [Content(s.heap, s.temps[i])];
    case PopAll =>
      assert Contents(s.heap, Batch(s)) == [];
      assert Contents(s.heap, s'.queue) == [];
      assert s.handed + Contents(s.heap, Outgoing(s)) + [] + Contents(s.heap, s.queue)
          == s.handed + Contents(s.heap, Outgoing(s)) + Contents(s.heap, s.queue) + [];
    case MoveFront =>
      assert Batch(s') == s.local[1..] && Outgoing(s') == [s.local[0]];
      assert Contents(s.heap, s.local) == Contents(s.heap, [s.local[0]]) + Contents(s.heap, s.local[1..]);
      assert Contents(s.heap, Outgoing(s)) == [];
    case Send =>
      assert Contents(s.heap, Outgoing(s)) == [Content(s.heap, s.outgoing.value)];
      assert Contents(s.heap, Outgoing(s')) == [];
  }

  lemma StepKeepsIntact(s: State, l: Label)
    requires Safe(s) && Intact(s) && Next(s, l).Some?
    ensures Intact(Next(s, l).value)
  {
    match l
    case Make(data, size) => MakeKeepsIntact(s, data, size);
    case DropTemp(_) => DestroyKeepsIntact(s, l);
    case PopFront => DestroyKeepsIntact(s, l);
    case FreeCallback(_) => DestroyKeepsIntact(s, l);
    case _ => MoveKeepsIntact(s, l);
  }

  /** An item that has a block has the size of that block. */
  ghost predicate SizedItem(h: Heap, item: Item) {
    item.data.Some? ==> item.data.value in h.blocks && |h.blocks[item.data.value]| == item.size
  }

  ghost predicate SizedItems(h: Heap, items: seq<Item>) {
    forall i :: 0 <= i < |items| ==> SizedItem(h, items[i])
  }

  ghost predicate Sized(s: State) {
    && SizedItems(s.heap, s.temps) && SizedItems(s.heap, s.queue) && SizedItems(s.heap, s.local)
    && SizedItems(s.heap, Outgoing(s)) && SizedItems(s.heap, s.held)
  }

  /** Blocks of other owners do not matter to items. */
  lemma SizesKept(h: Heap, h': Heap, items: seq<Item>, a: nat)
    requires SizedItems(h, items) && Owners(items, a) == 0
    requires h'.blocks - {a} == h.blocks - {a}
    ensures SizedItems(h', items)
  {
    forall i | 0 <= i < |items| ensures SizedItem(h', items[i]) {
      NotOwned(items, i, a);
      if items[i].data.Some? {
        var b := items[i].data.value;
        assert SizedItem(h, items[i]);
        assert b in h.blocks - {a} && (h.blocks - {a})[b] == h.blocks[b];
        assert b in h'.blocks - {a} && (h'.blocks - {a})[b] == h'.blocks[b];
      }
    }
  }

  lemma AllSizesKept(s: State, h': Heap, a: nat)
    requires Sized(s) && AllOwners(s, a) == 0 && h'.blocks - {a} == s.heap.blocks - {a}
    ensures Sized(s.(heap := h'))
  {
    SizesKept(s.heap, h', s.temps, a);
    SizesKept(s.heap, h', s.queue, a);
    SizesKept(s.heap, h', s.local, a);
    SizesKept(s.heap, h', Outgoing(s), a);
    SizesKept(s.heap, h', s.held, a);
  }

  lemma DestroyKeepsSized(s: State, l: Label)
    requires Safe(s) && Sized(s) && Next(s, l).Some? && (l.DropTemp? || l.PopFront? || l.FreeCallback?)
    ensures Sized(Next(s, l).value)
  {
    var s' := Next(s, l).value;
    var item := Destroyed(s, l);
    assert Sized(s'.(heap := s.heap));
    if item.data.Some? {
      var a := item.data.value;
      DestroyTakesOwner(s, l, a);
      assert OneOwner(s, a);
      assert s'.heap.blocks - {a} == s.heap.blocks - {a};
      AllSizesKept(s'.(heap := s.heap), s'.heap, a);
    }
  }

  lemma MakeKeepsSized(s: State, data: Option<seq<Byte>>, size: nat)
    requires Safe(s) && Sized(s) && Next(s, Make(data, size)).Some?
    ensures Sized(Next(s, Make(data, size)).value)
  {
    var s' := Next(s, Make(data, size)).value;
    var a := s.heap.next;
    assert OneOwner(s, a);
    assert s'.heap.blocks - {a} == s.heap.blocks - {a};
    AllSizesKept(s, s'.heap, a);
  }

  lemma StepKeepsSized(s: State, l: Label)
    requires Safe(s) && Sized(s) && Next(s, l).Some?
    ensures Sized(Next(s, l).value)
  {
    match l
    case Make(data, size) => MakeKeepsSized(s, data, size);
    case DropTemp(_) => DestroyKeepsSized(s, l);
    case PopFront => DestroyKeepsSized(s, l);
    case FreeCallback(_) => DestroyKeepsSized(s, l);
    case _ =>
  }

  /** In every reachable state, wherever an item is, its size is the length of its block: what is
      handed to the client library as a pointer and a size is the block. */
  lemma SizesHold(ls: seq<Label>, s: State)
    requires Run(Next, INITIAL, ls) == Some(s)
    ensures Sized(s)
    ensures Next(s, Send).Some? && s.outgoing.value.data.Some? ==>
              |Content(s.heap, s.outgoing.value)| == s.outgoing.value.size
  {
    var inv := s => Safe(s) && Sized(s);
    InitialHolds();
    hide Safe, Sized, Next;
    assert Sized(INITIAL) by {
      NothingIsSized();
    }
    forall s, l | inv(s) && Next(s, l).Some? ensures inv(Next(s, l).value) {
      StepKeepsSafe(s, l);
      StepKeepsSized(s, l);
    }
    RunKeeps(Next, inv, INITIAL, ls);
    OutgoingIsSized(s);
  }

  lemma NothingIsSized()
    ensures Sized(INITIAL)
  {}

  lemma OutgoingIsSized(s: State)
    requires Sized(s)
    ensures Next(s, Send).Some? && s.outgoing.value.data.Some? ==>
              |Content(s.heap, s.outgoing.value)| == s.outgoing.value.size
  {
    if s.outgoing.Some? {
      assert SizedItem(s.heap, Outgoing(s)[0]);
    }
  }

  lemma InitialHolds()
    ensures Safe(INITIAL) && Intact(INITIAL)
  {
    assert Outgoing(INITIAL) == Batch(INITIAL) == [];
    assert |Contents(INITIAL.heap, [])| == 0;
  }

  /** In every reachable state: no block has been released twice, every allocated block has
      exactly one owner, and the bytes that were pushed arrive unchanged and in order. */
  lemma OwnershipHolds(ls: seq<Label>, s: State)
    requires Run(Next, INITIAL, ls) == Some(s)
    ensures Safe(s) && Intact(s)
  {
    var inv := s => Safe(s) && Intact(s);
    InitialHolds();
    forall s, l | inv(s) && Next(s, l).Some? ensures inv(Next(s, l).value) {
      StepKeepsSafe(s, l);
      StepKeepsIntact(s, l);
    }
    RunKeeps(Next, inv, INITIAL, ls);
  }

  /** No leak: once nothing is under way and the client library has released everything, every
      block that was ever allocated has been released. */
  lemma NothingLeaks(ls: seq<Label>, s: State)
    requires Run(Next, INITIAL, ls) == Some(s)
    requires s.temps == s.queue == s.local == s.held == [] && s.outgoing.None?
    ensures s.heap.blocks == map[]
    ensures forall a: nat :: a < s.heap.next <==> a in s.heap.freed
  {
    OwnershipHolds(ls, s);
    forall a: nat ensures a !in s.heap.blocks {
      assert OneOwner(s, a);
    }
  }

  /** Move assignment, by contrast, forgets the block of its target: every block keeps its
      owner if and only if the target owned none. */
  lemma AssignmentLeaks(items: seq<Item>, i: nat, j: nat)
    requires i < |items| && j < |items|
    ensures var after := items[i := items[j]][j := EMPTY];
            (forall a: nat :: Owners(after, a) == Owners(items, a)) <==> items[i].data.None?
  {
    var after := items[i := items[j]][j := EMPTY];
    forall a: nat ensures Owners(after, a) + Owns(items[i], a) == Owners(items, a) {
      OwnersUpdate(items, i, items[j], a);
      OwnersUpdate(items[i := items[j]], j, EMPTY, a);
    }
    if items[i].data.Some? {
      assert Owners(after, items[i].data.value) + 1 == Owners(items, items[i].data.value);
    }
  }

  /** Two items with a block each: after the assignment nobody owns the first block. */
  lemma BlockIsLost()
    ensures var items := [Item(Some(0), 1), Item(Some(1), 1)];
            Owners(items, 0) == 1 && Owners(items[0 := items[1]][1 := EMPTY], 0) == 0
  {
    var items := [Item(Some(0), 1), Item(Some(1), 1)];
    OwnersUpdate(items, 0, items[1], 0);
    OwnersUpdate(items[0 := items[1]], 1, EMPTY, 0);
    assert items[1..] == [items[1]];
  }
}
