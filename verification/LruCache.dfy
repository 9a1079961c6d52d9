/**
 The bounded least-recently-used map and the run-to-repository lookup it speeds up. The state is an
 insertion-ordered map: its keys in iteration order and their values.
 */
module LruCache {
  import opened Prelude
  import opened Sequences

  // The cache maps run ids to repository ids; both are opaque strings.
  type Key = string
  type Value = string

  datatype Lru = Lru(order: seq<Key>, store: map<Key, Value>)

  datatype Op = Get(key: Key) | Set(key: Key, value: Value) | Has(key: Key) | Delete(key: Key) | Clear

  function Without(s: seq<Key>, k: Key): seq<Key> {
    if s == [] then []
    else if s[0] == k then Without(s[1..], k)
    else [s[0]] + Without(s[1..], k)
  }

  /** Delete and insert again: the key moves to the end. */
  function Touch(s: Lru, k: Key, v: Value): Lru {
    Lru(Without(s.order, k) + [k], s.store[k := v])
  }

  function Drop(s: Lru, k: Key): Lru {
    Lru(Without(s.order, k), s.store - {k})
  }

  function Step(max: nat, s: Lru, op: Op): Lru {
    match op
    case Get(k) => if k in s.store then Touch(s, k, s.store[k]) else s
    case Set(k, v) =>
      if k in s.store || |s.store| < max || s.order == [] then Touch(s, k, v)
      else Touch(Drop(s, s.order[0]), k, v)
    case Has(_) => s
    case Delete(k) => Drop(s, k)
    case Clear => Lru([], map[])
  }

  function Run(max: nat, s: Lru, ops: seq<Op>): Lru {
    if ops == [] then s else Step(max, Run(max, s, ops[..|ops| - 1]), ops[|ops| - 1])
  }

  ghost predicate Valid(s: Lru) {
    && Distinct(s.order)
    && (forall k :: k in s.order ==> k in s.store) && (forall k :: k in s.store ==> k in s.order)
    && |s.order| == |s.store|
  }

  // ---------------------------------------------------------------- one step

  lemma {:induction false} WithoutMembers(s: seq<Key>, k: Key)
    ensures forall x :: x in Without(s, k) <==> x in s && x != k
  {
    if s != [] {
      WithoutMembers(s[1..], k);
      assert s == [s[0]] + s[1..];
    }
  }

  lemma {:induction false} WithoutDistinct(s: seq<Key>, k: Key)
    requires Distinct(s)
    ensures Distinct(Without(s, k))
    ensures |Without(s, k)| == |s| - if k in s then 1 else 0
  {
    if s != [] {
      WithoutDistinct(s[1..], k);
      WithoutMembers(s[1..], k);
      assert s[0] !in s[1..];
      assert s == [s[0]] + s[1..];
      var t := Without(s[1..], k);
      forall j | 0 <= j < |t| ensures t[j] != s[0] { assert t[j] in t; }
    }
  }

  lemma TouchKeepsValid(s: Lru, k: Key, v: Value)
    requires Valid(s)
    ensures Valid(Touch(s, k, v))
  {
    WithoutMembers(s.order, k);
    WithoutDistinct(s.order, k);
  }

  lemma DropKeepsValid(s: Lru, k: Key)
    requires Valid(s)
    ensures Valid(Drop(s, k)) && (k in s.store ==> |Drop(s, k).store| == |s.store| - 1)
  {
    WithoutMembers(s.order, k);
    WithoutDistinct(s.order, k);
    assert Drop(s, k).store.Keys == s.store.Keys - {k};
    assert |Drop(s, k).store| == |Drop(s, k).store.Keys| && |s.store| == |s.store.Keys|;
  }

  lemma StepKeepsValid(max: nat, s: Lru, op: Op)
    requires max > 0 && Valid(s) && |s.store| <= max
    ensures Valid(Step(max, s, op)) && |Step(max, s, op).store| <= max
  {
    match op
    case Get(k) => if k in s.store { TouchKeepsValid(s, k, s.store[k]); }
    case Set(k, v) =>
      if k in s.store || |s.store| < max || s.order == [] {
        TouchKeepsValid(s, k, v);
      } else {
        assert s.order[0] in s.store;
        DropKeepsValid(s, s.order[0]);
        TouchKeepsValid(Drop(s, s.order[0]), k, v);
      }
    case Has(_) =>
    case Delete(k) => DropKeepsValid(s, k);
    case Clear =>
  }

  lemma {:induction false} RunKeepsValid(max: nat, s: Lru, ops: seq<Op>)
    requires max > 0 && Valid(s) && |s.store| <= max
    ensures Valid(Run(max, s, ops)) && |Run(max, s, ops).store| <= max
  {
    if ops != [] {
      RunKeepsValid(max, s, ops[..|ops| - 1]);
      StepKeepsValid(max, Run(max, s, ops[..|ops| - 1]), ops[|ops| - 1]);
    }
  }

  /** What each operation leaves in the map: only a set adds, and only a set of a new key to a full map takes another, the least recent. */
  lemma StepContents(max: nat, s: Lru, op: Op)
    requires max > 0 && Valid(s) && |s.store| <= max
    ensures
      var t := Step(max, s, op).store;
      match op
      case Get(_) => t == s.store
      case Has(_) => Step(max, s, op) == s
      case Delete(k) => t.Keys == s.store.Keys - {k} && forall x :: x in t ==> t[x] == s.store[x]
      case Clear => t == map[] && Step(max, s, op).order == []
      case Set(k, v) =>
        var full := k !in s.store && |s.store| == max;
        && (forall x :: x in t <==> x == k || (x in s.store && !(full && x == s.order[0])))
        && t[k] == v && forall x :: x in t && x != k ==> t[x] == s.store[x]
  {
    if op.Get? && op.key in s.store { assert s.store[op.key := s.store[op.key]] == s.store; }
  }

  // ---------------------------------------------------------------- the history

  predicate Uses(op: Op, k: Key) { (op.Get? || op.Set?) && op.key == k }

  /** One more than the position of the last get or set of the key; zero if there is none. */
  function LastUse(ops: seq<Op>, k: Key): (n: nat)
    ensures n <= |ops|
  {
    if ops == [] then 0
    else if Uses(ops[|ops| - 1], k) then |ops|
    else LastUse(ops[..|ops| - 1], k)
  }

  /** The value of the last set of the key. */
  function LastSet(ops: seq<Op>, k: Key): Option<Value> {
    if ops == [] then None
    else
      var op := ops[|ops| - 1];
      if op.Set? && op.key == k then Some(op.value) else LastSet(ops[..|ops| - 1], k)
  }

  ghost predicate Ascends(ops: seq<Op>, s: seq<Key>) {
    forall i, j :: 0 <= i < j < |s| ==> LastUse(ops, s[i]) < LastUse(ops, s[j])
  }

  ghost predicate HoldsLast(ops: seq<Op>, store: map<Key, Value>) {
    forall k :: k in store ==> LastSet(ops, k) == Some(store[k])
  }

  /** Keys in order of their last use, each holding its last value. */
  ghost predicate Recent(ops: seq<Op>, s: Lru) {
    Ascends(ops, s.order) && HoldsLast(ops, s.store)
  }

  lemma {:induction false} WithoutAscends(ops: seq<Op>, s: seq<Key>, k: Key)
    requires Ascends(ops, s)
    ensures Ascends(ops, Without(s, k))
  {
    if s != [] {
      assert Ascends(ops, s[1..]);
      WithoutAscends(ops, s[1..], k);
      WithoutMembers(s[1..], k);
      var t := Without(s[1..], k);
      forall j | 0 <= j < |t| ensures LastUse(ops, s[0]) < LastUse(ops, t[j]) {
        assert t[j] in t;
        var m :| 0 <= m < |s[1..]| && s[1..][m] == t[j];
        assert s[m + 1] == t[j];
      }
    }
  }

  lemma DropKeepsRecent(ops: seq<Op>, s: Lru, k: Key)
    requires Recent(ops, s)
    ensures Recent(ops, Drop(s, k))
  {
    WithoutAscends(ops, s.order, k);
  }

  lemma UseAfter(ops: seq<Op>, op: Op, k: Key)
    ensures LastUse(ops + [op], k) == if Uses(op, k) then |ops| + 1 else LastUse(ops, k)
    ensures LastSet(ops + [op], k) == if op.Set? && op.key == k then Some(op.value) else LastSet(ops, k)
  {
    assert (ops + [op])[..|ops|] == ops;
  }

  /** An operation that neither uses nor sets any listed key leaves the facts about them alone. */
  lemma QuietOpKeepsRecent(ops: seq<Op>, op: Op, s: Lru)
    requires Recent(ops, s) && Valid(s) && (op.Get? || op.Set? ==> op.key !in s.store)
    ensures Recent(ops + [op], s)
  {
    forall i | 0 <= i < |s.order| ensures LastUse(ops + [op], s.order[i]) == LastUse(ops, s.order[i]) {
      assert s.order[i] in s.order;
      UseAfter(ops, op, s.order[i]);
    }
    forall k | k in s.store ensures LastSet(ops + [op], k) == Some(s.store[k]) {
      UseAfter(ops, op, k);
    }
  }

  lemma AppendAscends(ops: seq<Op>, op: Op, s: seq<Key>)
    requires Ascends(ops + [op], s) && (op.Get? || op.Set?) && op.key !in s
    ensures Ascends(ops + [op], s + [op.key])
  {
    UseAfter(ops, op, op.key);
    forall i | 0 <= i < |s| ensures LastUse(ops + [op], s[i]) <= |ops| {
      UseAfter(ops, op, s[i]);
      assert s[i] in s;
    }
  }

  /** Using a key moves it behind all the others. */
  lemma TouchIsRecent(ops: seq<Op>, op: Op, s: Lru, v: Value)
    requires Recent(ops, s) && Valid(s) && (op.Get? || op.Set?)
    requires op.Get? ==> op.key in s.store && v == s.store[op.key]
    requires op.Set? ==> v == op.value
    ensures Recent(ops + [op], Touch(s, op.key, v))
  {
    var t := Drop(s, op.key);
    DropKeepsRecent(ops, s, op.key);
    DropKeepsValid(s, op.key);
    QuietOpKeepsRecent(ops, op, t);
    WithoutMembers(s.order, op.key);
    AppendAscends(ops, op, t.order);
    var u := Touch(s, op.key, v).store;
    forall k | k in u ensures LastSet(ops + [op], k) == Some(u[k]) {
      UseAfter(ops, op, k);
      if k != op.key { assert k in t.store; }
    }
  }

  lemma StepIsRecent(max: nat, ops: seq<Op>, op: Op, s: Lru)
    requires max > 0 && Recent(ops, s) && Valid(s)
    ensures Recent(ops + [op], Step(max, s, op))
  {
    match op
    case Get(k) =>
      if k in s.store { TouchIsRecent(ops, op, s, s.store[k]); } else { QuietOpKeepsRecent(ops, op, s); }
    case Set(k, v) =>
      if k in s.store || |s.store| < max || s.order == [] {
        TouchIsRecent(ops, op, s, v);
      } else {
        DropKeepsRecent(ops, s, s.order[0]);
        DropKeepsValid(s, s.order[0]);
        TouchIsRecent(ops, op, Drop(s, s.order[0]), v);
      }
    case Has(_) => QuietOpKeepsRecent(ops, op, s);
    case Delete(k) =>
      DropKeepsRecent(ops, s, k);
      DropKeepsValid(s, k);
      QuietOpKeepsRecent(ops, op, Drop(s, k));
    case Clear =>
  }

  ghost predicate Faithful(max: nat, ops: seq<Op>) {
    var s := Run(max, Lru([], map[]), ops);
    Valid(s) && |s.store| <= max && Recent(ops, s)
  }

  lemma FaithfulStep(max: nat, ops: seq<Op>, op: Op)
    requires max > 0 && Faithful(max, ops)
    ensures Faithful(max, ops + [op])
  {
    var s := Run(max, Lru([], map[]), ops);
    StepKeepsValid(max, s, op);
    StepIsRecent(max, ops, op, s);
    RunAppend(max, Lru([], map[]), ops, op);
  }

  lemma RunAppend(max: nat, s: Lru, ops: seq<Op>, op: Op)
    ensures Run(max, s, ops + [op]) == Step(max, Run(max, s, ops), op)
  {
    assert (ops + [op])[..|ops|] == ops;
  }

  /**
   After any operations: at most maxSize keys, in order from least to most recently used, each with
   the value of its last set.
   */
  lemma {:induction false} HistoryTheorem(max: nat, ops: seq<Op>)
    requires max > 0
    ensures Faithful(max, ops)
  {
    if ops != [] {
      HistoryTheorem(max, ops[..|ops| - 1]);
      FaithfulStep(max, ops[..|ops| - 1], ops[|ops| - 1]);
      assert ops[..|ops| - 1] + [ops[|ops| - 1]] == ops;
    }
  }

  // ---------------------------------------------------------------- retention

  /** Nothing in ops removes the key by name. */
  ghost predicate NotRemoved(ops: seq<Op>, k: Key) {
    forall i :: 0 <= i < |ops| ==> !ops[i].Clear? && !(ops[i].Delete? && ops[i].key == k)
  }

  /** A set, or a get that hits, makes its key the most recent one. */
  predicate Touches(s: Lru, op: Op) { op.Set? || (op.Get? && op.key in s.store) }

  /** The keys that ops make most recent. */
  ghost function Touched(max: nat, s: Lru, ops: seq<Op>): set<Key> {
    if ops == [] then {}
    else
      var before, op := ops[..|ops| - 1], ops[|ops| - 1];
      Touched(max, s, before) + if Touches(Run(max, s, before), op) then {op.key} else {}
  }

  /** The key is held, and only keys used since come after it. */
  ghost predicate Behind(s: Lru, k: Key, used: set<Key>) {
    exists at :: 0 <= at < |s.order| && s.order[at] == k
      && forall j :: at < j < |s.order| ==> s.order[j] in used
  }

  lemma {:induction false} WithoutSplit(a: seq<Key>, b: seq<Key>, x: Key)
    ensures Without(a + b, x) == Without(a, x) + Without(b, x)
  {
    if a == [] {
      assert a + b == b;
    } else {
      assert (a + b)[1..] == a[1..] + b;
      WithoutSplit(a[1..], b, x);
    }
  }

  lemma DropKeepsBehind(s: Lru, k: Key, used: set<Key>, x: Key)
    requires Behind(s, k, used) && x != k
    ensures Behind(Drop(s, x), k, used)
  {
    var at :| 0 <= at < |s.order| && s.order[at] == k && forall j :: at < j < |s.order| ==> s.order[j] in used;
    var a, b := s.order[..at], s.order[at + 1..];
    assert s.order == a + ([k] + b);
    WithoutSplit(a, [k] + b, x);
    WithoutSplit([k], b, x);
    assert Without([k], x) == [k];
    WithoutMembers(b, x);
    var t := Drop(s, x).order;
    var at' := |Without(a, x)|;
    assert t == Without(a, x) + ([k] + Without(b, x));
    assert t[at'] == k;
    forall j | at' < j < |t| ensures t[j] in used {
      assert t[j] == Without(b, x)[j - at' - 1];
      assert t[j] in b;
    }
  }

  lemma TouchKeepsBehind(s: Lru, k: Key, used: set<Key>, x: Key, v: Value)
    requires x != k ==> Behind(s, k, used)
    ensures Behind(Touch(s, x, v), k, used + {x})
  {
    var t := Touch(s, x, v).order;
    if x == k {
      assert t[|t| - 1] == k;
    } else {
      DropKeepsBehind(s, k, used, x);
      var d := Drop(s, x).order;
      var at :| 0 <= at < |d| && d[at] == k && forall j :: at < j < |d| ==> d[j] in used;
      assert t == d + [x];
      assert t[at] == k;
    }
  }

  /** A full map evicts its first key; if that were k, maxSize other keys would have been used since. */
  lemma EvictionSparesK(max: nat, s: Lru, k: Key, used: set<Key>, x: Key)
    requires Valid(s) && Behind(s, k, used) && x !in s.store && |s.store| >= max && |used + {x}| < max
    ensures s.order != [] && s.order[0] != k
  {
    var at :| 0 <= at < |s.order| && s.order[at] == k && forall j :: at < j < |s.order| ==> s.order[j] in used;
    if at == 0 {
      var rest := [x] + s.order[1..];
      DistinctCard(rest);
      SubsetCard(Elements(rest), used + {x});
    }
  }

  lemma StepKeepsBehind(max: nat, s: Lru, op: Op, k: Key, used: set<Key>)
    requires max > 0 && Valid(s) && |s.store| <= max && Behind(s, k, used)
    requires !op.Clear? && !(op.Delete? && op.key == k)
    requires Touches(s, op) && op.key != k ==> op.key in used
    requires |used| < max
    ensures Behind(Step(max, s, op), k, used + {k})
  {
    BehindGrows(s, k, used, used + {k});
    match op
    case Get(x) =>
      if x in s.store {
        TouchKeepsBehind(s, k, used, x, s.store[x]);
        BehindGrows(Step(max, s, op), k, used + {x}, used + {k});
      }
    case Set(x, v) =>
      if x in s.store || |s.store| < max || s.order == [] {
        TouchKeepsBehind(s, k, used, x, v);
      } else {
        if x != k {
          assert used + {x} == used;
          EvictionSparesK(max, s, k, used, x);
          DropKeepsBehind(s, k, used, s.order[0]);
        }
        TouchKeepsBehind(Drop(s, s.order[0]), k, used, x, v);
      }
      BehindGrows(Step(max, s, op), k, used + {x}, used + {k});
    case Has(_) =>
    case Delete(x) => DropKeepsBehind(s, k, used + {k}, x);
  }

  lemma BehindGrows(s: Lru, k: Key, used: set<Key>, more: set<Key>)
    requires Behind(s, k, used) && used <= more
    ensures Behind(s, k, more)
  {
    var at :| 0 <= at < |s.order| && s.order[at] == k && forall j :: at < j < |s.order| ==> s.order[j] in used;
    assert forall j :: at < j < |s.order| ==> s.order[j] in more;
  }

  lemma BehindIsOthers(s: Lru, k: Key, used: set<Key>)
    requires Valid(s) && Behind(s, k, used + {k})
    ensures Behind(s, k, used) && k in s.store
  {
    var at :| 0 <= at < |s.order| && s.order[at] == k && forall j :: at < j < |s.order| ==> s.order[j] in used + {k};
    assert forall j :: at < j < |s.order| ==> s.order[j] in used;
    assert s.order[at] in s.order;
  }

  lemma {:induction false} RunKeepsBehind(max: nat, s: Lru, ops: seq<Op>, k: Key, used: set<Key>)
    requires max > 0 && Valid(s) && |s.store| <= max && Behind(s, k, used)
    requires NotRemoved(ops, k) && Touched(max, s, ops) - {k} <= used && |used| < max
    ensures Behind(Run(max, s, ops), k, used) && k in Run(max, s, ops).store
  {
    RunKeepsValid(max, s, ops);
    if ops == [] {
      BehindGrows(s, k, used, used + {k});
      BehindIsOthers(s, k, used);
    } else {
      var before, op := ops[..|ops| - 1], ops[|ops| - 1];
      assert Touched(max, s, before) <= Touched(max, s, ops);
      RunKeepsBehind(max, s, before, k, used);
      RunKeepsValid(max, s, before);
      StepKeepsBehind(max, Run(max, s, before), op, k, used);
      BehindIsOthers(Run(max, s, ops), k, used);
    }
  }

  /** The key is the most recently used one. */
  predicate JustUsed(s: Lru, k: Key) { s.order != [] && s.order[|s.order| - 1] == k }

  lemma UseIsRecent(max: nat, s: Lru, op: Op)
    requires op.Set? || (op.Get? && op.key in s.store)
    ensures JustUsed(Step(max, s, op), op.key)
  {
  }

  /** A key just used stays as long as fewer than maxSize other keys are made more recent after it. */
  lemma RetentionTheorem(max: nat, s: Lru, k: Key, ops: seq<Op>)
    requires max > 0 && Valid(s) && |s.store| <= max && JustUsed(s, k)
    requires NotRemoved(ops, k) && |Touched(max, s, ops) - {k}| < max
    ensures k in Run(max, s, ops).store
  {
    assert Behind(s, k, {});
    var others := Touched(max, s, ops) - {k};
    BehindGrows(s, k, {}, others);
    RunKeepsBehind(max, s, ops, k, others);
  }

  // ---------------------------------------------------------------- eviction

  /** Nothing in ops removes a key by name or uses k. */
  ghost predicate LeavesAlone(ops: seq<Op>, k: Key) {
    forall i :: 0 <= i < |ops| ==> !ops[i].Clear? && !ops[i].Delete? && !Uses(ops[i], k)
  }

  /** The order splits at k, and the keys after it are exactly the touched ones. */
  ghost predicate Splits(order: seq<Key>, a: seq<Key>, k: Key, b: seq<Key>, touched: set<Key>) {
    order == a + [k] + b && Elements(b) == touched
  }

  /** The key is held with exactly the touched keys after it, or maxSize of them have pushed it out. */
  ghost predicate Standing(max: nat, s: Lru, k: Key, touched: set<Key>) {
    if k in s.store then exists a, b :: Splits(s.order, a, k, b, touched) else |touched| >= max
  }

  lemma SplitWithout(order: seq<Key>, a: seq<Key>, k: Key, b: seq<Key>, touched: set<Key>, x: Key)
    requires Splits(order, a, k, b, touched) && x != k
    ensures Splits(Without(order, x), Without(a, x), k, Without(b, x), touched - {x})
  {
    WithoutSplit(a + [k], b, x);
    WithoutSplit(a, [k], x);
    assert Without([k], x) == [k];
    WithoutMembers(b, x);
  }

  lemma SplitAppend(order: seq<Key>, a: seq<Key>, k: Key, b: seq<Key>, touched: set<Key>, x: Key)
    requires Splits(order, a, k, b, touched)
    ensures Splits(order + [x], a, k, b + [x], touched + {x})
  {
    assert Elements(b + [x]) == Elements(b) + {x};
  }

  lemma TouchStands(max: nat, s: Lru, k: Key, touched: set<Key>, x: Key, v: Value)
    requires Standing(max, s, k, touched) && x != k
    ensures Standing(max, Touch(s, x, v), k, touched + {x})
  {
    if k in s.store {
      var a, b :| Splits(s.order, a, k, b, touched);
      SplitWithout(s.order, a, k, b, touched, x);
      SplitAppend(Without(s.order, x), Without(a, x), k, Without(b, x), touched - {x}, x);
      assert touched - {x} + {x} == touched + {x};
      assert Touch(s, x, v).order == Without(s.order, x) + [x];
    } else {
      SubsetCard(touched, touched + {x});
    }
  }

  /** A full map that drops k has maxSize - 1 touched keys after it. */
  lemma DropFirst(max: nat, s: Lru, k: Key, touched: set<Key>)
    requires Valid(s) && Standing(max, s, k, touched) && |s.store| == max > 0 && s.order[0] == k
    ensures |touched| == max - 1 && touched <= s.store.Keys
  {
    assert k in s.order;
    var a, b :| Splits(s.order, a, k, b, touched);
    assert s.order[|a|] == k;
    assert |a| == 0 && s.order[1..] == b;
    DistinctCard(b);
    forall y | y in touched ensures y in s.store { assert y in s.order; }
  }

  /** Dropping another first key leaves the keys after k alone. */
  lemma DropOtherStands(max: nat, s: Lru, k: Key, touched: set<Key>)
    requires Valid(s) && Standing(max, s, k, touched) && s.order != [] && s.order[0] != k
    ensures Standing(max, Drop(s, s.order[0]), k, touched)
  {
    if k in s.store {
      var x := s.order[0];
      var a, b :| Splits(s.order, a, k, b, touched);
      SplitWithout(s.order, a, k, b, touched, x);
      forall y | y in b ensures y != x {
        var j :| 0 <= j < |b| && b[j] == y;
        assert s.order[|a| + 1 + j] == y;
      }
      assert touched - {x} == touched;
    }
  }

  lemma EvictStands(max: nat, s: Lru, k: Key, touched: set<Key>, x: Key, v: Value)
    requires Valid(s) && Standing(max, s, k, touched) && x != k && x !in s.store && |s.store| == max > 0
    ensures Standing(max, Touch(Drop(s, s.order[0]), x, v), k, touched + {x})
  {
    if s.order[0] == k {
      DropFirst(max, s, k, touched);
    } else {
      DropOtherStands(max, s, k, touched);
      TouchStands(max, Drop(s, s.order[0]), k, touched, x, v);
    }
  }

  lemma StepStands(max: nat, s: Lru, op: Op, k: Key, touched: set<Key>)
    requires max > 0 && Valid(s) && |s.store| <= max && Standing(max, s, k, touched)
    requires !op.Clear? && !op.Delete? && !Uses(op, k)
    ensures Standing(max, Step(max, s, op), k, touched + if Touches(s, op) then {op.key} else {})
  {
    if Touches(s, op) {
      if op.Get? { TouchStands(max, s, k, touched, op.key, s.store[op.key]); }
      else if op.key in s.store || |s.store| < max { TouchStands(max, s, k, touched, op.key, op.value); }
      else { EvictStands(max, s, k, touched, op.key, op.value); }
    } else {
      assert Step(max, s, op) == s && touched + {} == touched;
    }
  }

  lemma {:induction false} RunStands(max: nat, s: Lru, ops: seq<Op>, k: Key)
    requires max > 0 && Valid(s) && |s.store| <= max && JustUsed(s, k) && LeavesAlone(ops, k)
    ensures Standing(max, Run(max, s, ops), k, Touched(max, s, ops))
  {
    if ops == [] {
      var a: seq<Key>, b: seq<Key> := s.order[..|s.order| - 1], [];
      assert k in s.order && Splits(s.order, a, k, b, {});
    } else {
      var before, op := ops[..|ops| - 1], ops[|ops| - 1];
      RunStands(max, s, before, k);
      RunKeepsValid(max, s, before);
      StepStands(max, Run(max, s, before), op, k, Touched(max, s, before));
    }
  }

  /** Left alone, a key just used is held exactly until maxSize other keys have been made more recent. */
  lemma EvictionTheorem(max: nat, s: Lru, k: Key, ops: seq<Op>)
    requires max > 0 && Valid(s) && |s.store| <= max && JustUsed(s, k) && LeavesAlone(ops, k)
    ensures k in Run(max, s, ops).store <==> |Touched(max, s, ops)| < max
  {
    RunStands(max, s, ops, k);
    RunKeepsValid(max, s, ops);
    var t := Run(max, s, ops);
    if k in t.store {
      var a, b :| Splits(t.order, a, k, b, Touched(max, s, ops));
      assert b == t.order[|a| + 1..];
      DistinctCard(b);
    }
  }

  // ---------------------------------------------------------------- the object

  class LruMap {
    const maxSize: nat
    var order: seq<Key>
    var store: map<Key, Value>

    ghost function View(): Lru
      reads this
    {
      Lru(order, store)
    }

    ghost predicate Ok()
      reads this
    {
      maxSize > 0 && Valid(View()) && |store| <= maxSize
    }

    constructor (maxSize: nat)
      requires maxSize > 0
      ensures Ok() && View() == Lru([], map[]) && this.maxSize == maxSize
    {
      this.maxSize := maxSize;
      order, store := [], map[];
    }

    /** Map.delete. */
    method Erase(k: Key)
      modifies this
      ensures View() == Drop(old(View()), k)
    {
      var kept: seq<Key> := [];
      for i := 0 to |order|
        invariant order == old(order) && store == old(store)
        invariant kept == Without(order[..i], k)
      {
        assert order[..i + 1] == order[..i] + [order[i]];
        WithoutSplit(order[..i], [order[i]], k);
        if order[i] != k { kept := kept + [order[i]]; }
      }
      assert order[..|order|] == order;
      order, store := kept, store - {k};
    }

    /** Map.set of a key that is not present: it goes to the end. */
    method Append(k: Key, v: Value)
      modifies this
      ensures order == old(order) + [k] && store == old(store)[k := v]
    {
      order, store := order + [k], store[k := v];
    }

    method Get(k: Key) returns (v: Option<Value>)
      requires Ok()
      modifies this
      ensures Ok() && View() == Step(maxSize, old(View()), Op.Get(k))
      ensures v == if k in old(store) then Some(old(store)[k]) else None
      ensures forall x :: x in store ==> x in old(store) && store[x] == old(store)[x]
    {
      StepKeepsValid(maxSize, View(), Op.Get(k));
      if k !in store { return None; }
      v := Some(store[k]);
      PutBack(store, k);
      Erase(k);
      Append(k, v.value);
    }

    lemma PutBack(store: map<Key, Value>, k: Key)
      requires k in store
      ensures (store - {k})[k := store[k]] == store == store[k := store[k]]
    {
    }

    method Set(k: Key, v: Value)
      requires Ok()
      modifies this
      ensures Ok() && View() == Step(maxSize, old(View()), Op.Set(k, v))
      ensures k in store && store[k] == v
      ensures forall x :: x in store && x != k ==> x in old(store) && store[x] == old(store)[x]
    {
      ghost var s := View();
      StepKeepsValid(maxSize, s, Op.Set(k, v));
      SetKeepsOthers(maxSize, s, k, v);
      if k in store {
        SetPresent(maxSize, s, k, v);
        Erase(k);
      } else if |store| >= maxSize && order != [] {
        SetFull(maxSize, s, k, v);
        Erase(order[0]);
      } else {
        SetNew(maxSize, s, k, v);
      }
      Append(k, v);
    }

    method Has(k: Key) returns (found: bool)
      ensures found <==> k in store
    {
      found := k in store;
    }

    method Delete(k: Key) returns (deleted: bool)
      requires Ok()
      modifies this
      ensures Ok() && View() == Step(maxSize, old(View()), Op.Delete(k)) && (deleted <==> k in old(store))
    {
      StepKeepsValid(maxSize, View(), Op.Delete(k));
      deleted := k in store;
      Erase(k);
    }

    method Clear()
      requires Ok()
      modifies this
      ensures Ok() && View() == Step(maxSize, old(View()), Op.Clear)
    {
      order, store := [], map[];
    }
  }

  lemma SetPresent(max: nat, s: Lru, k: Key, v: Value)
    requires k in s.store
    ensures Step(max, s, Op.Set(k, v)) == Lru(Drop(s, k).order + [k], Drop(s, k).store[k := v])
  {
    assert (s.store - {k})[k := v] == s.store[k := v];
  }

  lemma SetNew(max: nat, s: Lru, k: Key, v: Value)
    requires k !in s.store && k !in s.order && (|s.store| < max || s.order == [])
    ensures Step(max, s, Op.Set(k, v)) == Lru(s.order + [k], s.store[k := v])
  {
    AbsentIsWhole(s.order, k);
  }

  lemma SetFull(max: nat, s: Lru, k: Key, v: Value)
    requires k !in s.store && k !in s.order && |s.store| >= max && s.order != []
    ensures
      var t := Drop(s, s.order[0]);
      Step(max, s, Op.Set(k, v)) == Lru(t.order + [k], t.store[k := v])
  {
    WithoutMembers(s.order, s.order[0]);
    AbsentIsWhole(Without(s.order, s.order[0]), k);
  }

  lemma SetKeepsOthers(max: nat, s: Lru, k: Key, v: Value)
    ensures
      var t := Step(max, s, Op.Set(k, v)).store;
      k in t && t[k] == v && forall x :: x in t && x != k ==> x in s.store && t[x] == s.store[x]
  {
  }

  lemma {:induction false} AbsentIsWhole(s: seq<Key>, k: Key)
    requires k !in s
    ensures Without(s, k) == s
  {
    if s != [] {
      AbsentIsWhole(s[1..], k);
      assert s == [s[0]] + s[1..];
    }
  }

  // ---------------------------------------------------------------- the cached lookup

  /** The persisting event bus: stored runs with their repository, and the bounded cache. */
  class EventRouter {
    const fallback: string
    const cache: LruMap
    var runs: map<string, string>

    /** Every cached answer is what the store says. */
    ghost predicate Sound()
      reads this, cache
    {
      cache.Ok() && forall u :: u in cache.store ==> u in runs && cache.store[u] == runs[u]
    }

    constructor (fallback: string)
      ensures Sound() && runs == map[] && fresh(cache) && cache.maxSize == 1000 && cache.store == map[] && this.fallback == fallback
    {
      this.fallback := fallback;
      cache := new LruMap(1000);
      runs := map[];
    }

    /** A run is stored once with its repository; later updates do not change it. */
    method StoreRun(u: string, repoId: string)
      requires Sound() && (u in runs ==> runs[u] == repoId)
      modifies this
      ensures Sound() && runs == old(runs)[u := repoId]
    {
      runs := runs[u := repoId];
    }

    method Lookup(runUuid: string) returns (rId: string)
      requires Sound()
      modifies cache
      ensures Sound() && rId == if runUuid in runs then runs[runUuid] else fallback
      ensures if runUuid in runs then runUuid in cache.store else cache.store == old(cache.store)
    {
      var hit := cache.Get(runUuid);
      if hit.Some? { return hit.value; }
      if runUuid in runs {
        rId := runs[runUuid];
        cache.Set(runUuid, rId);
      } else {
        rId := fallback;
      }
    }
  }
}
