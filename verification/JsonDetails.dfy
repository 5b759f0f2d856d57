/** Validation of error details: an object graph, possibly cyclic, is accepted when it unfolds to a JSON tree. */
module JsonDetails {
  import opened Wrappers
  import opened JsonValues

  /** The identity of a list, tuple or mapping object. */
  type Ref = nat

  datatype Value =
    | NoneValue
    | BoolValue(b: bool)
    | IntValue(n: int)
    | StrValue(s: string)
    | FiniteFloat(x: real)
    | NonFiniteFloat
    | Container(r: Ref)
    | OtherValue

  datatype Key = StringKey(s: string) | OtherKey

  datatype Object = ListObject(items: seq<Value>) | MappingObject(entries: seq<(Key, Value)>)

  type Heap = map<Ref, Object>

  datatype Part = Index(i: nat) | Field(s: string)

  datatype Problem = NotFinite | Circular | NonStringKey | NotJson

  datatype Error = Error(problem: Problem, path: seq<Part>)

  /** Every reference leads to a live object. */
  ghost predicate Live(heap: Heap, v: Value) {
    v.Container? ==> v.r in heap
  }

  ghost predicate AllLive(heap: Heap, items: seq<Value>) {
    forall i | 0 <= i < |items| :: Live(heap, items[i])
  }

  ghost predicate EntriesLive(heap: Heap, entries: seq<(Key, Value)>) {
    forall i | 0 <= i < |entries| :: Live(heap, entries[i].1)
  }

  ghost predicate LiveHeap(heap: Heap) {
    forall r | r in heap ::
      match heap[r]
      case ListObject(items) => AllLive(heap, items)
      case MappingObject(entries) => EntriesLive(heap, entries)
  }

  function Scalar(v: Value): Result<Json, Problem>
    requires !v.Container?
  {
    match v
    case NoneValue => Success(JNull)
    case BoolValue(b) => Success(JBool(b))
    case IntValue(n) => Success(JInt(n))
    case StrValue(s) => Success(JStr(s))
    case FiniteFloat(x) => Success(JFloat(x))
    case NonFiniteFloat => Failure(NotFinite)
    case OtherValue => Failure(NotJson)
  }

  /** The verdict on `v` while the containers in `active` are being walked. */
  function Check(heap: Heap, v: Value, path: seq<Part>, active: set<Ref>): Result<Json, Error>
    requires LiveHeap(heap) && Live(heap, v)
    decreases heap.Keys - active, 0, 0
  {
    if !v.Container? then
      match Scalar(v) case Success(j) => Success(j) case Failure(p) => Failure(Error(p, path))
    else if v.r in active then Failure(Error(Circular, path))
    else
      assert heap.Keys - (active + {v.r}) < heap.Keys - active by { assert v.r in heap.Keys - active; }
      match heap[v.r]
      case ListObject(items) =>
        (match CheckItems(heap, items, 0, path, active + {v.r})
         case Success(js) => Success(JList(js))
         case Failure(e) => Failure(e))
      case MappingObject(entries) =>
        (match CheckEntries(heap, entries, 0, path, active + {v.r})
         case Success(fields) => Success(JObj(fields))
         case Failure(e) => Failure(e))
  }

  function CheckItems(heap: Heap, items: seq<Value>, i: nat, path: seq<Part>, active: set<Ref>): Result<seq<Json>, Error>
    requires LiveHeap(heap) && AllLive(heap, items) && i <= |items|
    decreases heap.Keys - active, 1, |items| - i
  {
    if i == |items| then Success([]) else
    match Check(heap, items[i], path + [Index(i)], active)
    case Failure(e) => Failure(e)
    case Success(j) =>
      (match CheckItems(heap, items, i + 1, path, active) case Failure(e) => Failure(e) case Success(js) => Success([j] + js))
  }

  function CheckEntries(heap: Heap, entries: seq<(Key, Value)>, i: nat, path: seq<Part>, active: set<Ref>): Result<map<string, Json>, Error>
    requires LiveHeap(heap) && EntriesLive(heap, entries) && i <= |entries|
    decreases heap.Keys - active, 1, |entries| - i
  {
    if i == |entries| then Success(map[]) else
    if entries[i].0.OtherKey? then Failure(Error(NonStringKey, path)) else
    var k := entries[i].0.s;
    match Check(heap, entries[i].1, path + [Field(k)], active)
    case Failure(e) => Failure(e)
    case Success(j) =>
      (match CheckEntries(heap, entries, i + 1, path, active) case Failure(e) => Failure(e) case Success(rest) => Success(map[k := j] + rest))
  }

  /** `v` unfolded as a tree, following containers `n` levels deep; None when that is not enough or a leaf is not JSON. */
  function Unfold(heap: Heap, v: Value, n: nat): Option<Json>
    requires LiveHeap(heap) && Live(heap, v)
    decreases n, 0, 0
  {
    if !v.Container? then
      match Scalar(v) case Success(j) => Some(j) case Failure(_) => None
    else if n == 0 then None
    else
      match heap[v.r]
      case ListObject(items) =>
        (match UnfoldItems(heap, items, 0, n - 1) case None => None case Some(js) => Some(JList(js)))
      case MappingObject(entries) =>
        (match UnfoldEntries(heap, entries, 0, n - 1) case None => None case Some(fields) => Some(JObj(fields)))
  }

  function UnfoldItems(heap: Heap, items: seq<Value>, i: nat, n: nat): Option<seq<Json>>
    requires LiveHeap(heap) && AllLive(heap, items) && i <= |items|
    decreases n, 1, |items| - i
  {
    if i == |items| then Some([]) else
    match (Unfold(heap, items[i], n), UnfoldItems(heap, items, i + 1, n))
    case (Some(j), Some(js)) => Some([j] + js)
    case _ => None
  }

  function UnfoldEntries(heap: Heap, entries: seq<(Key, Value)>, i: nat, n: nat): Option<map<string, Json>>
    requires LiveHeap(heap) && EntriesLive(heap, entries) && i <= |entries|
    decreases n, 1, |entries| - i
  {
    if i == |entries| then Some(map[]) else
    if entries[i].0.OtherKey? then None else
    match (Unfold(heap, entries[i].1, n), UnfoldEntries(heap, entries, i + 1, n))
    case (Some(j), Some(rest)) => Some(map[entries[i].0.s := j] + rest)
    case _ => None
  }

  /** Following more levels does not change a tree that is already complete. */
  lemma {:induction false} DeeperIsSame(heap: Heap, v: Value, n: nat, m: nat)
    requires LiveHeap(heap) && Live(heap, v) && n <= m && Unfold(heap, v, n).Some?
    ensures Unfold(heap, v, m) == Unfold(heap, v, n)
    decreases n, 0, 0
  {
    if v.Container? {
      match heap[v.r]
      case ListObject(items) => DeeperItems(heap, items, 0, n - 1, m - 1);
      case MappingObject(entries) => DeeperEntries(heap, entries, 0, n - 1, m - 1);
    }
  }

  lemma {:induction false} DeeperItems(heap: Heap, items: seq<Value>, i: nat, n: nat, m: nat)
    requires LiveHeap(heap) && AllLive(heap, items) && i <= |items| && n <= m && UnfoldItems(heap, items, i, n).Some?
    ensures UnfoldItems(heap, items, i, m) == UnfoldItems(heap, items, i, n)
    decreases n, 1, |items| - i
  {
    if i < |items| {
      DeeperIsSame(heap, items[i], n, m);
      DeeperItems(heap, items, i + 1, n, m);
    }
  }

  lemma {:induction false} DeeperEntries(heap: Heap, entries: seq<(Key, Value)>, i: nat, n: nat, m: nat)
    requires LiveHeap(heap) && EntriesLive(heap, entries) && i <= |entries| && n <= m && UnfoldEntries(heap, entries, i, n).Some?
    ensures UnfoldEntries(heap, entries, i, m) == UnfoldEntries(heap, entries, i, n)
    decreases n, 1, |entries| - i
  {
    if i < |entries| {
      DeeperIsSame(heap, entries[i].1, n, m);
      DeeperEntries(heap, entries, i + 1, n, m);
    }
  }

  /** An accepted value is the tree it unfolds to; no level is needed beyond the containers not yet active. */
  lemma {:induction false} AcceptedUnfolds(heap: Heap, v: Value, path: seq<Part>, active: set<Ref>)
    requires LiveHeap(heap) && Live(heap, v) && Check(heap, v, path, active).Success?
    ensures Unfold(heap, v, |heap.Keys - active| + 1) == Some(Check(heap, v, path, active).value)
    decreases heap.Keys - active, 0, 0
  {
    if v.Container? {
      var inner := active + {v.r};
      assert heap.Keys - active == (heap.Keys - inner) + {v.r};
      assert v.r !in heap.Keys - inner;
      match heap[v.r]
      case ListObject(items) => AcceptedItemsUnfold(heap, items, 0, path, inner);
      case MappingObject(entries) => AcceptedEntriesUnfold(heap, entries, 0, path, inner);
    }
  }

  lemma {:induction false} AcceptedItemsUnfold(heap: Heap, items: seq<Value>, i: nat, path: seq<Part>, active: set<Ref>)
    requires LiveHeap(heap) && AllLive(heap, items) && i <= |items| && CheckItems(heap, items, i, path, active).Success?
    ensures UnfoldItems(heap, items, i, |heap.Keys - active| + 1) == Some(CheckItems(heap, items, i, path, active).value)
    decreases heap.Keys - active, 1, |items| - i
  {
    if i < |items| {
      AcceptedUnfolds(heap, items[i], path + [Index(i)], active);
      AcceptedItemsUnfold(heap, items, i + 1, path, active);
    }
  }

  lemma {:induction false} AcceptedEntriesUnfold(heap: Heap, entries: seq<(Key, Value)>, i: nat, path: seq<Part>, active: set<Ref>)
    requires LiveHeap(heap) && EntriesLive(heap, entries) && i <= |entries| && CheckEntries(heap, entries, i, path, active).Success?
    ensures UnfoldEntries(heap, entries, i, |heap.Keys - active| + 1) == Some(CheckEntries(heap, entries, i, path, active).value)
    decreases heap.Keys - active, 1, |entries| - i
  {
    if i < |entries| {
      AcceptedUnfolds(heap, entries[i].1, path + [Field(entries[i].0.s)], active);
      AcceptedEntriesUnfold(heap, entries, i + 1, path, active);
    }
  }

  /** No active container unfolds within `n` levels: each of them holds what is being walked now. */
  ghost predicate Outside(heap: Heap, active: set<Ref>, n: nat)
    requires LiveHeap(heap)
  {
    forall r | r in active :: r in heap && Unfold(heap, Container(r), n).None?
  }

  /** The least number of levels a container needs. */
  lemma {:induction false} LeastDepth(heap: Heap, v: Value, n: nat) returns (m: nat)
    requires LiveHeap(heap) && v.Container? && Live(heap, v) && Unfold(heap, v, n).Some?
    ensures 0 < m <= n && Unfold(heap, v, m) == Unfold(heap, v, n) && Unfold(heap, v, m - 1).None?
    decreases n
  {
    if Unfold(heap, v, n - 1).Some? {
      DeeperIsSame(heap, v, n - 1, n);
      m := LeastDepth(heap, v, n - 1);
    } else {
      m := n;
    }
  }

  /** A value that unfolds to a tree is accepted with that tree. */
  lemma {:induction false} TreeIsAccepted(heap: Heap, v: Value, path: seq<Part>, active: set<Ref>, n: nat)
    requires LiveHeap(heap) && Live(heap, v) && Unfold(heap, v, n).Some? && Outside(heap, active, n)
    ensures Check(heap, v, path, active) == Success(Unfold(heap, v, n).value)
    decreases n, 0, 0
  {
    if v.Container? {
      var m := LeastDepth(heap, v, n);
      assert v.r !in active;
      var inner := active + {v.r};
      forall r | r in inner ensures r in heap && Unfold(heap, Container(r), m - 1).None? {
        if r != v.r && Unfold(heap, Container(r), m - 1).Some? {
          DeeperIsSame(heap, Container(r), m - 1, n);
        }
      }
      match heap[v.r]
      case ListObject(items) => ItemsAccepted(heap, items, 0, path, inner, m - 1);
      case MappingObject(entries) => EntriesAccepted(heap, entries, 0, path, inner, m - 1);
    }
  }

  lemma {:induction false} ItemsAccepted(heap: Heap, items: seq<Value>, i: nat, path: seq<Part>, active: set<Ref>, n: nat)
    requires LiveHeap(heap) && AllLive(heap, items) && i <= |items| && UnfoldItems(heap, items, i, n).Some? && Outside(heap, active, n)
    ensures CheckItems(heap, items, i, path, active) == Success(UnfoldItems(heap, items, i, n).value)
    decreases n, 1, |items| - i
  {
    if i < |items| {
      TreeIsAccepted(heap, items[i], path + [Index(i)], active, n);
      ItemsAccepted(heap, items, i + 1, path, active, n);
    }
  }

  lemma {:induction false} EntriesAccepted(heap: Heap, entries: seq<(Key, Value)>, i: nat, path: seq<Part>, active: set<Ref>, n: nat)
    requires LiveHeap(heap) && EntriesLive(heap, entries) && i <= |entries| && UnfoldEntries(heap, entries, i, n).Some?
    requires Outside(heap, active, n)
    ensures CheckEntries(heap, entries, i, path, active) == Success(UnfoldEntries(heap, entries, i, n).value)
    decreases n, 1, |entries| - i
  {
    if i < |entries| {
      TreeIsAccepted(heap, entries[i].1, path + [Field(entries[i].0.s)], active, n);
      EntriesAccepted(heap, entries, i + 1, path, active, n);
    }
  }

  // ---- what is accepted, read off the graph ----

  /**
   * `j` is the tree of `v`, within `n` levels: a scalar is itself, a list is its items in order, a mapping has the
   * keys of its entries, all strings, each with the tree of its last entry. Nothing else has a tree.
   */
  ghost predicate IsTreeOf(heap: Heap, v: Value, j: Json, n: nat)
    requires LiveHeap(heap) && Live(heap, v)
    decreases n, 0
  {
    match v
    case NoneValue => j == JNull
    case BoolValue(b) => j == JBool(b)
    case IntValue(i) => j == JInt(i)
    case StrValue(s) => j == JStr(s)
    case FiniteFloat(x) => j == JFloat(x)
    case NonFiniteFloat => false
    case OtherValue => false
    case Container(r) =>
      if n == 0 then false else
      match heap[r]
      case ListObject(items) => j.JList? && AreItems(heap, items, 0, j.items, n - 1)
      case MappingObject(entries) => j.JObj? && AreFields(heap, entries, 0, j.fields, n - 1)
  }

  ghost predicate HasTree(heap: Heap, v: Value, n: nat)
    requires LiveHeap(heap) && Live(heap, v)
    decreases n, 1
  {
    exists j :: IsTreeOf(heap, v, j, n)
  }

  /** The trees of the items from `i` on, in order. */
  ghost predicate AreItems(heap: Heap, items: seq<Value>, i: nat, js: seq<Json>, n: nat)
    requires LiveHeap(heap) && AllLive(heap, items) && i <= |items|
    decreases n, 2
  {
    |js| == |items| - i && forall k | i <= k < |items| :: IsTreeOf(heap, items[k], js[k - i], n)
  }

  /** The fields that the entries from `i` on give. */
  ghost predicate AreFields(heap: Heap, entries: seq<(Key, Value)>, i: nat, fields: map<string, Json>, n: nat)
    requires LiveHeap(heap) && EntriesLive(heap, entries) && i <= |entries|
    decreases n, 2
  {
    && (forall k | i <= k < |entries| :: entries[k].0.StringKey? && HasTree(heap, entries[k].1, n))
    && (forall s :: s in fields <==> HasKey(entries, i, s))
    && (forall k | i <= k < |entries| && IsLastOfKey(entries, k) :: entries[k].0.s in fields && IsTreeOf(heap, entries[k].1, fields[entries[k].0.s], n))
  }

  predicate HasKey(entries: seq<(Key, Value)>, i: nat, s: string) {
    exists k | i <= k < |entries| :: entries[k].0 == StringKey(s)
  }

  predicate IsLastOfKey(entries: seq<(Key, Value)>, i: nat)
    requires i < |entries|
  {
    forall k | i < k < |entries| :: entries[k].0 != entries[i].0
  }

  lemma {:induction false} UnfoldIffTree(heap: Heap, v: Value, j: Json, n: nat)
    requires LiveHeap(heap) && Live(heap, v)
    ensures Unfold(heap, v, n) == Some(j) <==> IsTreeOf(heap, v, j, n)
    decreases n, 0, 0
  {
    if v.Container? && n > 0 {
      match heap[v.r]
      case ListObject(items) =>
        if j.JList? { ItemsIffTrees(heap, items, 0, j.items, n - 1); }
      case MappingObject(entries) =>
        if j.JObj? { EntriesIffTrees(heap, entries, 0, j.fields, n - 1); }
    }
  }

  lemma {:induction false} ItemsIffTrees(heap: Heap, items: seq<Value>, i: nat, js: seq<Json>, n: nat)
    requires LiveHeap(heap) && AllLive(heap, items) && i <= |items|
    ensures UnfoldItems(heap, items, i, n) == Some(js) <==> AreItems(heap, items, i, js, n)
    decreases n, 1, |items| - i
  {
    hide Unfold, IsTreeOf, AreItems;
    FirstItem(heap, items, i, js, n);
    if i < |items| && js != [] {
      UnfoldIffTree(heap, items[i], js[0], n);
      ItemsIffTrees(heap, items, i + 1, js[1..], n);
      assert js == [js[0]] + js[1..];
    }
  }

  lemma {:induction false} FirstItem(heap: Heap, items: seq<Value>, i: nat, js: seq<Json>, n: nat)
    requires LiveHeap(heap) && AllLive(heap, items) && i <= |items|
    ensures AreItems(heap, items, i, js, n) <==>
      if i == |items| then js == [] else js != [] && IsTreeOf(heap, items[i], js[0], n) && AreItems(heap, items, i + 1, js[1..], n)
  {
    hide IsTreeOf;
    if i < |items| && js != [] && IsTreeOf(heap, items[i], js[0], n) && AreItems(heap, items, i + 1, js[1..], n) {
      forall k | i <= k < |items| ensures IsTreeOf(heap, items[k], js[k - i], n) {
        assert k > i ==> js[1..][k - (i + 1)] == js[k - i];
      }
    }
    if i < |items| && AreItems(heap, items, i, js, n) {
      forall k | i + 1 <= k < |items| ensures IsTreeOf(heap, items[k], js[1..][k - (i + 1)], n) {
        assert js[1..][k - (i + 1)] == js[k - i];
      }
    }
  }

  lemma {:induction false} EntriesIffTrees(heap: Heap, entries: seq<(Key, Value)>, i: nat, fields: map<string, Json>, n: nat)
    requires LiveHeap(heap) && EntriesLive(heap, entries) && i <= |entries|
    ensures UnfoldEntries(heap, entries, i, n) == Some(fields) <==> AreFields(heap, entries, i, fields, n)
    decreases n, 1, |entries| - i
  {
    hide Unfold, IsTreeOf, AreFields, HasKey, IsLastOfKey;
    NoFields(heap, entries, i, fields, n);
    if i < |entries| && entries[i].0.StringKey? {
      var s, v := entries[i].0.s, entries[i].1;
      if UnfoldEntries(heap, entries, i, n) == Some(fields) {
        var j, rest := Unfold(heap, v, n).value, UnfoldEntries(heap, entries, i + 1, n).value;
        UnfoldIffTree(heap, v, j, n);
        EntriesIffTrees(heap, entries, i + 1, rest, n);
        FirstField(heap, entries, i, j, rest, n);
      }
      if AreFields(heap, entries, i, fields, n) {
        RestOfFields(heap, entries, i, fields, n);
        var j :| IsTreeOf(heap, v, j, n);
        UnfoldIffTree(heap, v, j, n);
        var rest := if HasKey(entries, i + 1, s) then fields else fields - {s};
        EntriesIffTrees(heap, entries, i + 1, rest, n);
        if !HasKey(entries, i + 1, s) {
          UnfoldIffTree(heap, v, fields[s], n);
        }
        assert fields == map[s := j] + rest;
      }
    }
  }

  lemma {:induction false} NoFields(heap: Heap, entries: seq<(Key, Value)>, i: nat, fields: map<string, Json>, n: nat)
    requires LiveHeap(heap) && EntriesLive(heap, entries) && i <= |entries|
    ensures i == |entries| ==> (AreFields(heap, entries, i, fields, n) <==> fields == map[])
    ensures i < |entries| && entries[i].0.OtherKey? ==> !AreFields(heap, entries, i, fields, n)
  {
    hide IsTreeOf;
    if i == |entries| && AreFields(heap, entries, i, fields, n) {
      assert forall s :: s !in fields;
    }
  }

  lemma {:induction false} FirstField(heap: Heap, entries: seq<(Key, Value)>, i: nat, j: Json, rest: map<string, Json>, n: nat)
    requires LiveHeap(heap) && EntriesLive(heap, entries) && i < |entries| && entries[i].0.StringKey?
    requires IsTreeOf(heap, entries[i].1, j, n) && AreFields(heap, entries, i + 1, rest, n)
    ensures AreFields(heap, entries, i, map[entries[i].0.s := j] + rest, n)
  {
    assert HasTree(heap, entries[i].1, n);
    hide IsTreeOf, HasTree, HasKey, IsLastOfKey;
    KeysNext(entries, i);
    var s, fields := entries[i].0.s, map[entries[i].0.s := j] + rest;
    assert forall t :: t in fields <==> t == s || t in rest;
    forall k | i <= k < |entries| && IsLastOfKey(entries, k)
      ensures entries[k].0.s in fields && IsTreeOf(heap, entries[k].1, fields[entries[k].0.s], n)
    {
      if k == i {
        assert s !in rest && fields[s] == j;
      } else {
        assert entries[k].0.s in rest && fields[entries[k].0.s] == rest[entries[k].0.s];
      }
    }
  }

  lemma KeysNext(entries: seq<(Key, Value)>, i: nat)
    requires i < |entries| && entries[i].0.StringKey?
    ensures forall t :: HasKey(entries, i, t) <==> t == entries[i].0.s || HasKey(entries, i + 1, t)
    ensures IsLastOfKey(entries, i) <==> !HasKey(entries, i + 1, entries[i].0.s)
    ensures forall k | i < k < |entries| && entries[k].0.StringKey? :: HasKey(entries, i + 1, entries[k].0.s)
  {
    forall k | i < k < |entries| && entries[k].0.StringKey? ensures HasKey(entries, i + 1, entries[k].0.s) {
      assert entries[k].0 == StringKey(entries[k].0.s);
    }
    assert entries[i].0 == StringKey(entries[i].0.s);
  }

  lemma {:induction false} RestOfFields(heap: Heap, entries: seq<(Key, Value)>, i: nat, fields: map<string, Json>, n: nat)
    requires LiveHeap(heap) && EntriesLive(heap, entries) && i < |entries| && AreFields(heap, entries, i, fields, n)
    ensures entries[i].0.StringKey? && HasTree(heap, entries[i].1, n)
    ensures var s := entries[i].0.s;
      && AreFields(heap, entries, i + 1, if HasKey(entries, i + 1, s) then fields else fields - {s}, n)
      && s in fields && (!HasKey(entries, i + 1, s) ==> IsTreeOf(heap, entries[i].1, fields[s], n))
  {
    hide IsTreeOf, HasTree, HasKey, IsLastOfKey;
    KeysNext(entries, i);
  }

  /** Exactly the graphs that have a finite JSON tree are accepted, each with its tree. */
  lemma {:induction false} AcceptedIffTree(heap: Heap, v: Value, path: seq<Part>, j: Json)
    requires LiveHeap(heap) && Live(heap, v)
    ensures Check(heap, v, path, {}) == Success(j) <==> exists n: nat :: IsTreeOf(heap, v, j, n)
  {
    hide Unfold, IsTreeOf, Check;
    if Check(heap, v, path, {}) == Success(j) {
      AcceptedUnfolds(heap, v, path, {});
      UnfoldIffTree(heap, v, j, |heap.Keys - {}| + 1);
    }
    if n: nat :| IsTreeOf(heap, v, j, n) {
      UnfoldIffTree(heap, v, j, n);
      TreeIsAccepted(heap, v, path, {}, n);
    }
  }

  // ---- what is refused, and for which part ----

  /**
   * `e` names the first offending part of `v` in the order of the walk, inside the containers `active`: a float that is not
   * finite, a value of another kind, a container inside itself, or a mapping with a key that is not a string.
   */
  ghost predicate Offends(heap: Heap, v: Value, path: seq<Part>, active: set<Ref>, e: Error)
    requires LiveHeap(heap) && Live(heap, v)
    decreases heap.Keys - active, 0, 0
  {
    match v
    case NonFiniteFloat => e == Error(NotFinite, path)
    case OtherValue => e == Error(NotJson, path)
    case Container(r) =>
      if r in active then e == Error(Circular, path) else
      assert heap.Keys - (active + {r}) < heap.Keys - active by { assert r in heap.Keys - active; }
      (match heap[r]
       case ListObject(items) => ItemOffends(heap, items, 0, path, active + {r}, e)
       case MappingObject(entries) => EntryOffends(heap, entries, 0, path, active + {r}, e))
    case _ => false
  }

  ghost predicate IsClean(heap: Heap, v: Value, path: seq<Part>, active: set<Ref>)
    requires LiveHeap(heap) && Live(heap, v)
    decreases heap.Keys - active, 1, 0
  {
    forall e :: !Offends(heap, v, path, active, e)
  }

  /** The first item from `i` on that offends does so by `e`. */
  ghost predicate ItemOffends(heap: Heap, items: seq<Value>, i: nat, path: seq<Part>, active: set<Ref>, e: Error)
    requires LiveHeap(heap) && AllLive(heap, items)
    decreases heap.Keys - active, 2, |items| - i
  {
    i < |items| &&
    (Offends(heap, items[i], path + [Index(i)], active, e)
     || (IsClean(heap, items[i], path + [Index(i)], active) && ItemOffends(heap, items, i + 1, path, active, e)))
  }

  /** The first entry from `i` on that offends does so by `e`: by its key, which is looked at first, or by its value. */
  ghost predicate EntryOffends(heap: Heap, entries: seq<(Key, Value)>, i: nat, path: seq<Part>, active: set<Ref>, e: Error)
    requires LiveHeap(heap) && EntriesLive(heap, entries)
    decreases heap.Keys - active, 2, |entries| - i
  {
    i < |entries| &&
    match entries[i].0
    case OtherKey => e == Error(NonStringKey, path)
    case StringKey(s) =>
      || Offends(heap, entries[i].1, path + [Field(s)], active, e)
      || (IsClean(heap, entries[i].1, path + [Field(s)], active) && EntryOffends(heap, entries, i + 1, path, active, e))
  }

  /** A walk fails exactly on an offence, and with the first one. */
  lemma {:induction false} RefusedIffOffends(heap: Heap, v: Value, path: seq<Part>, active: set<Ref>, e: Error)
    requires LiveHeap(heap) && Live(heap, v)
    ensures Check(heap, v, path, active) == Failure(e) <==> Offends(heap, v, path, active, e)
    decreases heap.Keys - active, 0, 0
  {
    if v.Container? && v.r !in active {
      var inner := active + {v.r};
      assert heap.Keys - inner < heap.Keys - active by { assert v.r in heap.Keys - active; }
      match heap[v.r]
      case ListObject(items) => ItemsRefusedIff(heap, items, 0, path, inner, e);
      case MappingObject(entries) => EntriesRefusedIff(heap, entries, 0, path, inner, e);
    }
  }

  lemma {:induction false} CleanIffAccepted(heap: Heap, v: Value, path: seq<Part>, active: set<Ref>)
    requires LiveHeap(heap) && Live(heap, v)
    ensures IsClean(heap, v, path, active) <==> Check(heap, v, path, active).Success?
    decreases heap.Keys - active, 1, 0
  {
    hide Check, Offends;
    forall e ensures Check(heap, v, path, active) == Failure(e) <==> Offends(heap, v, path, active, e) {
      RefusedIffOffends(heap, v, path, active, e);
    }
    if Check(heap, v, path, active).Failure? {
      assert Offends(heap, v, path, active, Check(heap, v, path, active).error);
    }
  }

  lemma {:induction false} ItemsRefusedIff(heap: Heap, items: seq<Value>, i: nat, path: seq<Part>, active: set<Ref>, e: Error)
    requires LiveHeap(heap) && AllLive(heap, items) && i <= |items|
    ensures CheckItems(heap, items, i, path, active) == Failure(e) <==> ItemOffends(heap, items, i, path, active, e)
    decreases heap.Keys - active, 2, |items| - i
  {
    hide Check, Offends, IsClean;
    if i < |items| {
      RefusedIffOffends(heap, items[i], path + [Index(i)], active, e);
      CleanIffAccepted(heap, items[i], path + [Index(i)], active);
      ItemsRefusedIff(heap, items, i + 1, path, active, e);
    }
  }

  lemma {:induction false} EntriesRefusedIff(heap: Heap, entries: seq<(Key, Value)>, i: nat, path: seq<Part>, active: set<Ref>, e: Error)
    requires LiveHeap(heap) && EntriesLive(heap, entries) && i <= |entries|
    ensures CheckEntries(heap, entries, i, path, active) == Failure(e) <==> EntryOffends(heap, entries, i, path, active, e)
    decreases heap.Keys - active, 2, |entries| - i
  {
    hide Check, Offends, IsClean;
    if i < |entries| && entries[i].0.StringKey? {
      RefusedIffOffends(heap, entries[i].1, path + [Field(entries[i].0.s)], active, e);
      CleanIffAccepted(heap, entries[i].1, path + [Field(entries[i].0.s)], active);
      EntriesRefusedIff(heap, entries, i + 1, path, active, e);
    }
  }

  class Validator {
    var active: set<Ref>

    constructor ()
      ensures active == {}
    {
      active := {};
    }

    /** Walks `v`; the active set is as before on every exit. */
    method ValidateValue(heap: Heap, v: Value, path: seq<Part>) returns (r: Result<Json, Error>)
      requires LiveHeap(heap) && Live(heap, v)
      modifies this
      ensures active == old(active)
      ensures r == Check(heap, v, path, active)
      decreases heap.Keys - active
    {
      if !v.Container? {
        match Scalar(v) {
          case Success(j) => return Success(j);
          case Failure(p) => return Failure(Error(p, path));
        }
      }
      if v.r in active {
        return Failure(Error(Circular, path));
      }
      ghost var outer := active;
      active := active + {v.r};
      assert heap.Keys - active < heap.Keys - outer by { assert v.r in heap.Keys - outer; }
      match heap[v.r] {
        case ListObject(items) =>
          var js := [];
          ghost var inner := active;
          PrefixedNext([], JNull, CheckItems(heap, items, 0, path, inner));
          for i := 0 to |items|
            invariant active == inner
            invariant CheckItems(heap, items, 0, path, inner) == Prefixed(js, CheckItems(heap, items, i, path, inner))
          {
            var item := ValidateValue(heap, items[i], path + [Index(i)]);
            if item.Failure? {
              active := active - {v.r};
              return Failure(item.error);
            }
            PrefixedNext(js, item.value, CheckItems(heap, items, i + 1, path, inner));
            js := js + [item.value];
          }
          PrefixedNext(js, JNull, Success([]));
          r := Success(JList(js));
        case MappingObject(entries) =>
          var fields: map<string, Json> := map[];
          ghost var inner := active;
          MergedNext(map[], "", JNull, CheckEntries(heap, entries, 0, path, inner));
          for i := 0 to |entries|
            invariant active == inner
            invariant CheckEntries(heap, entries, 0, path, inner) == Merged(fields, CheckEntries(heap, entries, i, path, inner))
          {
            if entries[i].0.OtherKey? {
              active := active - {v.r};
              return Failure(Error(NonStringKey, path));
            }
            var item := ValidateValue(heap, entries[i].1, path + [Field(entries[i].0.s)]);
            if item.Failure? {
              active := active - {v.r};
              return Failure(item.error);
            }
            MergedNext(fields, entries[i].0.s, item.value, CheckEntries(heap, entries, i + 1, path, inner));
            fields := fields[entries[i].0.s := item.value];
          }
          MergedNext(fields, "", JNull, Success(map[]));
          r := Success(JObj(fields));
      }
      active := active - {v.r};
    }
  }

  lemma PrefixedNext(js: seq<Json>, j: Json, rest: Result<seq<Json>, Error>)
    ensures Prefixed([], rest) == rest
    ensures rest.Success? ==> Prefixed(js, Success([j] + rest.value)) == Prefixed(js + [j], rest)
    ensures Prefixed(js, Success([])) == Success(js)
  {
    assert js + [] == js;
    match rest
    case Failure(_) =>
    case Success(more) => assert [] + more == more && js + ([j] + more) == (js + [j]) + more;
  }

  lemma MergedNext(fields: map<string, Json>, k: string, j: Json, rest: Result<map<string, Json>, Error>)
    ensures Merged(map[], rest) == rest
    ensures rest.Success? ==> Merged(fields, Success(map[k := j] + rest.value)) == Merged(fields[k := j], rest)
    ensures Merged(fields, Success(map[])) == Success(fields)
  {
    assert fields + map[] == fields;
    match rest
    case Failure(_) =>
    case Success(more) => assert map[] + more == more && fields + (map[k := j] + more) == fields[k := j] + more;
  }

  ghost function Prefixed(js: seq<Json>, rest: Result<seq<Json>, Error>): Result<seq<Json>, Error> {
    match rest case Success(more) => Success(js + more) case Failure(e) => Failure(e)
  }

  ghost function Merged(fields: map<string, Json>, rest: Result<map<string, Json>, Error>): Result<map<string, Json>, Error> {
    match rest case Success(more) => Success(fields + more) case Failure(e) => Failure(e)
  }

  /** Details of an error body: absent and empty details give none. */
  method ValidateJsonObject(heap: Heap, details: Option<Value>) returns (r: Result<Option<Json>, Error>)
    requires LiveHeap(heap)
    requires details.Some? ==> details.value.Container? && details.value.r in heap && heap[details.value.r].MappingObject?
    ensures details.None? ==> r == Success(None)
    ensures details.Some? ==>
      match Check(heap, details.value, [], {})
      case Failure(e) => r == Failure(e)
      case Success(j) => r == Success(if j == JObj(map[]) then None else Some(j))
  {
    if details.None? {
      return Success(None);
    }
    var validator := new Validator();
    var checked := validator.ValidateValue(heap, details.value, []);
    match checked {
      case Failure(e) => r := Failure(e);
      case Success(j) => r := Success(if j == JObj(map[]) then None else Some(j));
    }
  }
}
