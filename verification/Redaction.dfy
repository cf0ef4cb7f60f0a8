/**
 * The logger's redaction guard: a walk over an arbitrary, possibly cyclic object graph that threads
 * one `seen` set through every branch. The forbidden-key patterns are a parameter.
 */
module Redaction {
  datatype Prim = Str(s: string) | Other(tag: int)

  /** A runtime value: not an object, or a reference into the heap. */
  datatype Value = Leaf(prim: Prim) | Ref(id: nat)

  datatype Kind = Array | Object

  datatype Slot = Slot(key: string, value: Value)

  /** An array's items or an object's own entries, in enumeration order; array keys are never tested. */
  datatype Node = Node(kind: Kind, slots: seq<Slot>)

  type Heap = map<nat, Node>

  datatype Tree = TLeaf(prim: Prim) | TNode(kind: Kind, slots: seq<TSlot>)
  datatype TSlot = TSlot(key: string, tree: Tree)

  const REDACTED: Tree := TLeaf(Str("[REDACTED]"))
  const CIRCULAR: Tree := TLeaf(Str("[Circular]"))

  predicate Inside(v: Value, heap: Heap) {
    v.Ref? ==> v.id in heap
  }

  ghost predicate Closed(heap: Heap) {
    forall id <- heap :: forall i :: 0 <= i < |heap[id].slots| ==> Inside(heap[id].slots[i].value, heap)
  }

  // ------------------------------------------------------------------ the walk

  ghost predicate AllInside(slots: seq<Slot>, heap: Heap) {
    forall i :: 0 <= i < |slots| ==> Inside(slots[i].value, heap)
  }

  predicate Hidden(kind: Kind, key: string, forbidden: string -> bool) {
    kind.Object? && forbidden(key)
  }

  /** The output and the seen set afterwards. Each expansion uses up an unseen object. */
  ghost function Redact(heap: Heap, v: Value, seen: set<nat>, forbidden: string -> bool): (r: (Tree, set<nat>))
    requires Closed(heap) && Inside(v, heap)
    ensures seen <= r.1 <= seen + heap.Keys
    decreases heap.Keys - seen, 0
  {
    if v.Leaf? then (TLeaf(v.prim), seen)
    else if v.id in seen then (CIRCULAR, seen)
    else
      var node := heap[v.id];
      var rest := RedactSlots(heap, node.kind, node.slots, seen + {v.id}, forbidden);
      (TNode(node.kind, rest.0), rest.1)
  }

  ghost function RedactSlots(heap: Heap, kind: Kind, slots: seq<Slot>, seen: set<nat>, forbidden: string -> bool): (r: (seq<TSlot>, set<nat>))
    requires Closed(heap) && AllInside(slots, heap)
    ensures seen <= r.1 <= seen + heap.Keys
    decreases heap.Keys - seen, |slots|
  {
    if slots == [] then ([], seen)
    else
      var first := if Hidden(kind, slots[0].key, forbidden) then (REDACTED, seen)
                   else Redact(heap, slots[0].value, seen, forbidden);
      var rest := RedactSlots(heap, kind, slots[1..], first.1, forbidden);
      ([TSlot(slots[0].key, first.0)] + rest.0, rest.1)
  }

  class SeenSet {
    var members: set<nat>

    constructor ()
      ensures members == {}
    {
      members := {};
    }
  }

  /** redactInner. */
  method RedactInner(heap: Heap, v: Value, seen: SeenSet, forbidden: string -> bool) returns (out: Tree)
    requires Closed(heap) && Inside(v, heap)
    modifies seen
    ensures (out, seen.members) == Redact(heap, v, old(seen.members), forbidden)
    decreases heap.Keys - seen.members, 0
  {
    if v.Leaf? { return TLeaf(v.prim); }
    if v.id in seen.members { return CIRCULAR; }
    seen.members := seen.members + {v.id};
    var node := heap[v.id];
    var slots := RedactEach(heap, node.kind, node.slots, seen, forbidden);
    out := TNode(node.kind, slots);
  }

  /** Its two loops: `value.map` over an array, `out[key] = ...` over an object's entries. */
  method RedactEach(heap: Heap, kind: Kind, slots: seq<Slot>, seen: SeenSet, forbidden: string -> bool) returns (out: seq<TSlot>)
    requires Closed(heap) && AllInside(slots, heap)
    modifies seen
    ensures (out, seen.members) == RedactSlots(heap, kind, slots, old(seen.members), forbidden)
    decreases heap.Keys - seen.members, 1
  {
    out := [];
    ghost var whole := RedactSlots(heap, kind, slots, seen.members, forbidden);
    assert slots[0..] == slots && [] + whole.0 == whole.0;
    for i := 0 to |slots|
      invariant old(seen.members) <= seen.members
      invariant Remaining(heap, kind, slots, i, seen.members, forbidden, out, whole)
    {
      ghost var before := seen.members;
      var item := REDACTED;
      if !Hidden(kind, slots[i].key, forbidden) {
        item := RedactInner(heap, slots[i].value, seen, forbidden);
      }
      EachStep(heap, kind, slots, i, before, item, seen.members, forbidden, out, whole);
      out := out + [TSlot(slots[i].key, item)];
    }
    assert slots[|slots|..] == [] && out + [] == out;
  }

  /** The output so far, and what the slots from i on give, make up the whole. */
  ghost predicate Remaining(heap: Heap, kind: Kind, slots: seq<Slot>, i: nat, seen: set<nat>, forbidden: string -> bool,
                            out: seq<TSlot>, whole: (seq<TSlot>, set<nat>))
    requires Closed(heap) && AllInside(slots, heap) && i <= |slots|
  {
    var r := RedactSlots(heap, kind, slots[i..], seen, forbidden);
    out + r.0 == whole.0 && r.1 == whole.1
  }

  lemma EachStep(heap: Heap, kind: Kind, slots: seq<Slot>, i: nat, seen: set<nat>, item: Tree, after: set<nat>,
                 forbidden: string -> bool, out: seq<TSlot>, whole: (seq<TSlot>, set<nat>))
    requires Closed(heap) && AllInside(slots, heap) && i < |slots|
    requires Remaining(heap, kind, slots, i, seen, forbidden, out, whole)
    requires (item, after) == if Hidden(kind, slots[i].key, forbidden) then (REDACTED, seen)
                              else Redact(heap, slots[i].value, seen, forbidden)
    ensures Remaining(heap, kind, slots, i + 1, after, forbidden, out + [TSlot(slots[i].key, item)], whole)
  {
    NextSlot(heap, kind, slots, i, seen, forbidden);
    var left := RedactSlots(heap, kind, slots[i..], seen, forbidden).0;
    assert out + [left[0]] + left[1..] == out + left;
  }

  lemma NextSlot(heap: Heap, kind: Kind, slots: seq<Slot>, i: nat, seen: set<nat>, forbidden: string -> bool)
    requires Closed(heap) && AllInside(slots, heap) && i < |slots|
    ensures var first := if Hidden(kind, slots[i].key, forbidden) then (REDACTED, seen)
                         else Redact(heap, slots[i].value, seen, forbidden);
            var r := RedactSlots(heap, kind, slots[i..], seen, forbidden);
            && |r.0| > 0 && r.0[0] == TSlot(slots[i].key, first.0)
            && (r.0[1..], r.1) == RedactSlots(heap, kind, slots[i + 1..], first.1, forbidden)
  {
    assert slots[i..][1..] == slots[i + 1..];
  }

  /** redactForbidden. */
  method RedactForbidden(heap: Heap, v: Value, forbidden: string -> bool) returns (out: Tree)
    requires Closed(heap) && Inside(v, heap)
    ensures out == Redact(heap, v, {}, forbidden).0
  {
    var seen := new SeenSet();
    out := RedactInner(heap, v, seen, forbidden);
  }

  // ------------------------------------------------------------------ nothing forbidden survives

  /** Under every forbidden key, at any depth, only the redaction marker. */
  predicate Clean(t: Tree, forbidden: string -> bool) {
    t.TNode? ==> forall s <- t.slots ::
      if t.kind.Object? && forbidden(s.key) then s.tree == TLeaf(Str("[REDACTED]")) else Clean(s.tree, forbidden)
  }

  predicate CleanSlots(kind: Kind, slots: seq<TSlot>, forbidden: string -> bool) {
    forall s <- slots :: if kind.Object? && forbidden(s.key) then s.tree == TLeaf(Str("[REDACTED]")) else Clean(s.tree, forbidden)
  }

  lemma {:induction false} OutputIsClean(heap: Heap, v: Value, seen: set<nat>, forbidden: string -> bool)
    requires Closed(heap) && Inside(v, heap)
    ensures Clean(Redact(heap, v, seen, forbidden).0, forbidden)
    decreases heap.Keys - seen, 0
  {
    if v.Ref? && v.id !in seen {
      SlotsAreClean(heap, heap[v.id].kind, heap[v.id].slots, seen + {v.id}, forbidden);
    }
  }

  lemma {:induction false} SlotsAreClean(heap: Heap, kind: Kind, slots: seq<Slot>, seen: set<nat>, forbidden: string -> bool)
    requires Closed(heap) && AllInside(slots, heap)
    ensures CleanSlots(kind, RedactSlots(heap, kind, slots, seen, forbidden).0, forbidden)
    decreases heap.Keys - seen, |slots|
  {
    if slots != [] {
      var first := if Hidden(kind, slots[0].key, forbidden) then (REDACTED, seen)
                   else Redact(heap, slots[0].value, seen, forbidden);
      if !Hidden(kind, slots[0].key, forbidden) {
        OutputIsClean(heap, slots[0].value, seen, forbidden);
      }
      SlotsAreClean(heap, kind, slots[1..], first.1, forbidden);
    }
  }

  // ------------------------------------------------------------------ each object at most once

  /** How many objects and arrays the output holds. */
  function Containers(t: Tree): nat {
    if t.TLeaf? then 0 else 1 + SlotContainers(t.slots)
  }

  function SlotContainers(slots: seq<TSlot>): nat {
    if slots == [] then 0 else Containers(slots[0].tree) + SlotContainers(slots[1..])
  }

  /** The output has one container per object the walk newly saw, so at most one per heap object. */
  lemma {:induction false} ExpandsEachObjectOnce(heap: Heap, v: Value, seen: set<nat>, forbidden: string -> bool)
    requires Closed(heap) && Inside(v, heap)
    ensures var r := Redact(heap, v, seen, forbidden);
            Containers(r.0) == |r.1 - seen| <= |heap.Keys|
    decreases heap.Keys - seen, 0
  {
    var r := Redact(heap, v, seen, forbidden);
    if v.Ref? && v.id !in seen {
      SlotsExpandOnce(heap, heap[v.id].kind, heap[v.id].slots, seen + {v.id}, forbidden);
      assert (seen + {v.id}) - seen == {v.id};
      DifferenceSums(seen, seen + {v.id}, r.1);
    } else {
      assert r.1 - seen == {};
    }
    SubsetCardinality(r.1 - seen, heap.Keys);
  }

  lemma {:induction false} SlotsExpandOnce(heap: Heap, kind: Kind, slots: seq<Slot>, seen: set<nat>, forbidden: string -> bool)
    requires Closed(heap) && AllInside(slots, heap)
    ensures var r := RedactSlots(heap, kind, slots, seen, forbidden);
            SlotContainers(r.0) == |r.1 - seen|
    decreases heap.Keys - seen, |slots|
  {
    if slots == [] {
      assert seen - seen == {};
    } else if Hidden(kind, slots[0].key, forbidden) {
      SlotsExpandOnce(heap, kind, slots[1..], seen, forbidden);
      HeadAndTail(heap, kind, slots, seen, forbidden, REDACTED, seen);
    } else {
      var first := Redact(heap, slots[0].value, seen, forbidden);
      ExpandsEachObjectOnce(heap, slots[0].value, seen, forbidden);
      SlotsExpandOnce(heap, kind, slots[1..], first.1, forbidden);
      HeadAndTail(heap, kind, slots, seen, forbidden, first.0, first.1);
    }
  }

  lemma HeadAndTail(heap: Heap, kind: Kind, slots: seq<Slot>, seen: set<nat>, forbidden: string -> bool, first: Tree, after: set<nat>)
    requires Closed(heap) && AllInside(slots, heap) && slots != []
    requires (first, after) == if Hidden(kind, slots[0].key, forbidden) then (REDACTED, seen)
                               else Redact(heap, slots[0].value, seen, forbidden)
    requires Containers(first) == |after - seen|
    requires var rest := RedactSlots(heap, kind, slots[1..], after, forbidden); SlotContainers(rest.0) == |rest.1 - after|
    ensures var r := RedactSlots(heap, kind, slots, seen, forbidden); SlotContainers(r.0) == |r.1 - seen|
  {
    NextSlot(heap, kind, slots, 0, seen, forbidden);
    assert slots[0..] == slots;
    DifferenceSums(seen, after, RedactSlots(heap, kind, slots, seen, forbidden).1);
  }

  lemma DifferenceSums(a: set<nat>, b: set<nat>, c: set<nat>)
    requires a <= b <= c
    ensures |c - a| == |c - b| + |b - a|
  {
    assert c - a == (c - b) + (b - a);
  }

  lemma SubsetCardinality(a: set<nat>, b: set<nat>)
    requires a <= b
    ensures |a| <= |b|
  {
    assert b == a + (b - a);
  }

  // ------------------------------------------------------------------ against plain recursion

  /** An acyclic value, unfolded, with the identity of each object kept. */
  datatype IdTree = ILeaf(prim: Prim) | INode(id: nat, kind: Kind, slots: seq<ISlot>)
  datatype ISlot = ISlot(key: string, tree: IdTree)

  /** t is the unfolding of v; such a t exists exactly when nothing v reaches is on a cycle. */
  ghost predicate Unfolds(heap: Heap, v: Value, t: IdTree)
    decreases t
  {
    match t
    case ILeaf(prim) => v == Leaf(prim)
    case INode(id, kind, slots) =>
      && v == Ref(id) && id in heap && heap[id].kind == kind
      && UnfoldSlots(heap, heap[id].slots, slots)
  }

  ghost predicate UnfoldSlots(heap: Heap, slots: seq<Slot>, islots: seq<ISlot>)
    decreases islots
  {
    && |slots| == |islots|
    && (slots != [] ==>
          && slots[0].key == islots[0].key
          && Unfolds(heap, slots[0].value, islots[0].tree)
          && UnfoldSlots(heap, slots[1..], islots[1..]))
  }

  /** Redaction by plain recursion, with no seen set. */
  function Plain(t: IdTree, forbidden: string -> bool): Tree
    decreases t
  {
    match t
    case ILeaf(prim) => TLeaf(prim)
    case INode(_, kind, slots) => TNode(kind, PlainSlots(kind, slots, forbidden))
  }

  function PlainSlots(kind: Kind, slots: seq<ISlot>, forbidden: string -> bool): seq<TSlot>
    decreases slots
  {
    if slots == [] then []
    else [TSlot(slots[0].key, if Hidden(kind, slots[0].key, forbidden) then REDACTED
                              else Plain(slots[0].tree, forbidden))]
         + PlainSlots(kind, slots[1..], forbidden)
  }

  /** What plain recursion does to a node: same kind, same keys, the marker under an object's forbidden keys, and each other slot on its own. */
  lemma PlainAt(t: IdTree, i: nat, forbidden: string -> bool)
    requires t.INode? && i < |t.slots|
    ensures var p := Plain(t, forbidden);
            && p.TNode? && p.kind == t.kind && |p.slots| == |t.slots| && p.slots[i].key == t.slots[i].key
            && p.slots[i].tree == if t.kind.Object? && forbidden(t.slots[i].key) then TLeaf(Str("[REDACTED]"))
                                  else Plain(t.slots[i].tree, forbidden)
  {
    PlainSlotAt(t.kind, t.slots, i, forbidden);
  }

  lemma {:induction false} PlainSlotAt(kind: Kind, slots: seq<ISlot>, i: nat, forbidden: string -> bool)
    requires i < |slots|
    ensures var p := PlainSlots(kind, slots, forbidden);
            && |p| == |slots| && p[i].key == slots[i].key
            && p[i].tree == if kind.Object? && forbidden(slots[i].key) then TLeaf(Str("[REDACTED]")) else Plain(slots[i].tree, forbidden)
  {
    if |slots| > 1 { PlainSlotAt(kind, slots[1..], if i > 0 then i - 1 else 0, forbidden); }
  }

  /** The objects plain recursion enters, as often as it enters them. */
  function Visits(t: IdTree, forbidden: string -> bool): multiset<nat>
    decreases t
  {
    match t
    case ILeaf(_) => multiset{}
    case INode(id, kind, slots) => multiset{id} + SlotVisits(kind, slots, forbidden)
  }

  function SlotVisits(kind: Kind, slots: seq<ISlot>, forbidden: string -> bool): multiset<nat>
    decreases slots
  {
    if slots == [] then multiset{}
    else (if Hidden(kind, slots[0].key, forbidden) then multiset{} else Visits(slots[0].tree, forbidden))
         + SlotVisits(kind, slots[1..], forbidden)
  }

  /** No object is entered twice, nor was any entered before. */
  ghost predicate Unshared(visits: multiset<nat>, seen: set<nat>) {
    forall id <- visits :: visits[id] == 1 && id !in seen
  }

  lemma UnsharedSum(a: multiset<nat>, b: multiset<nat>, seen: set<nat>, mid: set<nat>)
    requires Unshared(a, seen) ==> forall id :: id in mid <==> id in seen || id in a
    ensures Unshared(a + b, seen) <==> Unshared(a, seen) && Unshared(b, mid)
  {
    if Unshared(a + b, seen) {
      forall id | id in a ensures a[id] == 1 && id !in seen { assert id in a + b; }
      forall id | id in b ensures b[id] == 1 && id !in mid { assert id in a + b && (a + b)[id] == a[id] + b[id]; }
    }
    if Unshared(a, seen) && Unshared(b, mid) {
      forall id | id in a + b ensures (a + b)[id] == 1 && id !in seen {
        assert (a + b)[id] == a[id] + b[id];
        assert id in a ==> id in mid;
      }
    }
  }

  /**
   * On acyclic input the threaded walk equals plain recursion if and only if plain recursion enters
   * no object twice: a shared object reached again is written "[Circular]" though no cycle exists.
   */
  lemma {:induction false} EqualsPlainIffUnshared(heap: Heap, v: Value, t: IdTree, seen: set<nat>, forbidden: string -> bool)
    requires Closed(heap) && Inside(v, heap) && Unfolds(heap, v, t)
    ensures var r := Redact(heap, v, seen, forbidden);
            && (r.0 == Plain(t, forbidden) <==> Unshared(Visits(t, forbidden), seen))
            && (Unshared(Visits(t, forbidden), seen) ==> forall id :: id in r.1 <==> id in seen || id in Visits(t, forbidden))
    decreases t
  {
    match t
    case ILeaf(_) =>
    case INode(id, kind, slots) =>
      UnsharedSum(multiset{id}, SlotVisits(kind, slots, forbidden), seen, seen + {id});
      if id !in seen {
        SlotsEqualPlainIffUnshared(heap, heap[id].slots, kind, slots, seen + {id}, forbidden);
      } else {
        assert id in Visits(t, forbidden);
      }
  }

  lemma {:induction false} SlotsEqualPlainIffUnshared(heap: Heap, slots: seq<Slot>, kind: Kind, islots: seq<ISlot>, seen: set<nat>, forbidden: string -> bool)
    requires Closed(heap) && AllInside(slots, heap) && UnfoldSlots(heap, slots, islots)
    ensures var r := RedactSlots(heap, kind, slots, seen, forbidden);
            && (r.0 == PlainSlots(kind, islots, forbidden) <==> Unshared(SlotVisits(kind, islots, forbidden), seen))
            && (Unshared(SlotVisits(kind, islots, forbidden), seen) ==>
                  forall id :: id in r.1 <==> id in seen || id in SlotVisits(kind, islots, forbidden))
    decreases islots
  {
    if slots != [] {
      var hidden := Hidden(kind, slots[0].key, forbidden);
      var first := if hidden then (REDACTED, seen) else Redact(heap, slots[0].value, seen, forbidden);
      var a := if hidden then multiset{} else Visits(islots[0].tree, forbidden);
      var b := SlotVisits(kind, islots[1..], forbidden);
      if !hidden { EqualsPlainIffUnshared(heap, slots[0].value, islots[0].tree, seen, forbidden); }
      SlotsEqualPlainIffUnshared(heap, slots[1..], kind, islots[1..], first.1, forbidden);
      UnsharedSum(a, b, seen, first.1);
      var r := RedactSlots(heap, kind, slots, seen, forbidden);
      var plain := PlainSlots(kind, islots, forbidden);
      assert r.0[1..] == RedactSlots(heap, kind, slots[1..], first.1, forbidden).0;
      assert plain[1..] == PlainSlots(kind, islots[1..], forbidden);
      assert r.0 == [r.0[0]] + r.0[1..] && plain == [plain[0]] + plain[1..];
    }
  }

  // ------------------------------------------------------------------ redacting again

  /** The value a redaction built, read back: fresh objects, so no sharing, with the output's content. */
  function Content(t: IdTree): Tree {
    match t
    case ILeaf(prim) => TLeaf(prim)
    case INode(_, kind, slots) => TNode(kind, ContentSlots(slots))
  }

  function ContentSlots(slots: seq<ISlot>): seq<TSlot> {
    if slots == [] then [] else [TSlot(slots[0].key, Content(slots[0].tree))] + ContentSlots(slots[1..])
  }

  function Objects(t: IdTree): multiset<nat> {
    match t
    case ILeaf(_) => multiset{}
    case INode(id, _, slots) => multiset{id} + SlotObjects(slots)
  }

  function SlotObjects(slots: seq<ISlot>): multiset<nat> {
    if slots == [] then multiset{} else Objects(slots[0].tree) + SlotObjects(slots[1..])
  }

  lemma {:induction false} VisitsAreObjects(t: IdTree, forbidden: string -> bool)
    ensures Visits(t, forbidden) <= Objects(t)
    decreases t
  {
    if t.INode? { SlotVisitsAreObjects(t.kind, t.slots, forbidden); }
  }

  lemma {:induction false} SlotVisitsAreObjects(kind: Kind, slots: seq<ISlot>, forbidden: string -> bool)
    ensures SlotVisits(kind, slots, forbidden) <= SlotObjects(slots)
    decreases slots
  {
    if slots != [] {
      VisitsAreObjects(slots[0].tree, forbidden);
      SlotVisitsAreObjects(kind, slots[1..], forbidden);
    }
  }

  lemma {:induction false} PlainKeepsClean(t: IdTree, forbidden: string -> bool)
    requires Clean(Content(t), forbidden)
    ensures Plain(t, forbidden) == Content(t)
    decreases t
  {
    if t.INode? { PlainKeepsCleanSlots(t.kind, t.slots, forbidden); }
  }

  lemma {:induction false} PlainKeepsCleanSlots(kind: Kind, slots: seq<ISlot>, forbidden: string -> bool)
    requires CleanSlots(kind, ContentSlots(slots), forbidden)
    ensures PlainSlots(kind, slots, forbidden) == ContentSlots(slots)
    decreases slots
  {
    if slots != [] {
      var c := ContentSlots(slots);
      assert c[0] in c;
      forall s | s in c[1..] ensures s in c {}
      assert c[1..] == ContentSlots(slots[1..]);
      if !Hidden(kind, slots[0].key, forbidden) { PlainKeepsClean(slots[0].tree, forbidden); }
      PlainKeepsCleanSlots(kind, slots[1..], forbidden);
    }
  }

  /** Redacting what a redaction returned changes nothing, whatever graph the first one walked. */
  lemma RedactTwice(heap: Heap, v: Value, again: Heap, w: Value, t: IdTree, forbidden: string -> bool)
    requires Closed(heap) && Inside(v, heap) && Closed(again) && Inside(w, again)
    requires Unfolds(again, w, t) && Content(t) == Redact(heap, v, {}, forbidden).0
    requires forall id <- Objects(t) :: Objects(t)[id] == 1
    ensures Redact(again, w, {}, forbidden).0 == Redact(heap, v, {}, forbidden).0
  {
    OutputIsClean(heap, v, {}, forbidden);
    PlainKeepsClean(t, forbidden);
    VisitsAreObjects(t, forbidden);
    forall id | id in Visits(t, forbidden) ensures Visits(t, forbidden)[id] == 1 {
      assert Visits(t, forbidden)[id] <= Objects(t)[id];
    }
    EqualsPlainIffUnshared(again, w, t, {}, forbidden);
  }

  // ------------------------------------------------------------------ two concrete graphs

  /** A self-reference is cut; an object that is merely shared is cut the same way. */
  lemma CycleAndSharing(forbidden: string -> bool)
    requires !forbidden("a") && !forbidden("b")
    ensures var cyclic: Heap := map[0 := Node(Object, [Slot("a", Ref(0))])];
            Closed(cyclic) && Redact(cyclic, Ref(0), {}, forbidden).0 == TNode(Object, [TSlot("a", CIRCULAR)])
    ensures var shared: Heap := map[0 := Node(Object, [Slot("a", Ref(1)), Slot("b", Ref(1))]), 1 := Node(Array, [])];
            Closed(shared) && Redact(shared, Ref(0), {}, forbidden).0 ==
              TNode(Object, [TSlot("a", TNode(Array, [])), TSlot("b", CIRCULAR)])
  {
    var cyclic: Heap := map[0 := Node(Object, [Slot("a", Ref(0))])];
    var s := cyclic[0].slots;
    assert RedactSlots(cyclic, Object, s[1..], {0}, forbidden) == ([], {0});
    var shared: Heap := map[0 := Node(Object, [Slot("a", Ref(1)), Slot("b", Ref(1))]), 1 := Node(Array, [])];
    var t := shared[0].slots;
    assert t[1..] == [Slot("b", Ref(1))];
    assert Redact(shared, Ref(1), {0, 1}, forbidden) == (CIRCULAR, {0, 1});
    assert RedactSlots(shared, Object, t[1..][1..], {0, 1}, forbidden) == ([], {0, 1});
    assert RedactSlots(shared, Object, t[1..], {0, 1}, forbidden) == ([TSlot("b", CIRCULAR)] + [], {0, 1});
    assert {0} + {1} == {0, 1};
    assert Redact(shared, Ref(1), {0}, forbidden) == (TNode(Array, []), {0, 1});
    assert RedactSlots(shared, Object, t, {0}, forbidden).0 == [TSlot("a", TNode(Array, [])), TSlot("b", CIRCULAR)];
    assert {} + {0} == {0};
  }
}
