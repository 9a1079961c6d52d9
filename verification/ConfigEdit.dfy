/**
 Which edits of the orchestrator config an agent may make by itself: only insertions into the three
 command lists, everything else untouched. Parsed JSON is the value type below.
 */
module ConfigEdit {
  import opened Prelude
  import opened Sequences

  datatype Json =
    | JNull
    | JBool(b: bool)
    | JNum(n: real)
    | JStr(s: string)
    | JArr(elems: seq<Json>)
    | JObj(fields: map<string, Json>)

  /** Structural comparison, element by element and key by key. */
  predicate DeepEqual(a: Json, b: Json) {
    match (a, b)
    case (JArr(xs), JArr(ys)) => |xs| == |ys| && forall i :: 0 <= i < |xs| ==> DeepEqual(xs[i], ys[i])
    case (JObj(f), JObj(g)) => |f.Keys| == |g.Keys| && forall k :: k in f ==> k in g && DeepEqual(f[k], g[k])
    case (JNull, JNull) => true
    case (JBool(x), JBool(y)) => x == y
    case (JNum(x), JNum(y)) => x == y
    case (JStr(x), JStr(y)) => x == y
    case _ => false
  }

  /** The comparison is equality of values. */
  lemma {:induction false} DeepEqualIsEquality(a: Json, b: Json)
    ensures DeepEqual(a, b) <==> a == b
  {
    match (a, b)
    case (JArr(xs), JArr(ys)) =>
      if |xs| == |ys| {
        forall i | 0 <= i < |xs| ensures DeepEqual(xs[i], ys[i]) <==> xs[i] == ys[i] {
          DeepEqualIsEquality(xs[i], ys[i]);
        }
      }
    case (JObj(f), JObj(g)) =>
      forall k | k in f && k in g ensures DeepEqual(f[k], g[k]) <==> f[k] == g[k] {
        DeepEqualIsEquality(f[k], g[k]);
      }
      if DeepEqual(a, b) {
        SubsetCard(f.Keys, g.Keys);
        assert f == g;
      }
    case _ =>
  }

  // ---------------------------------------------------------------- insertions

  /** Positions in b of the entries of a, strictly increasing. */
  ghost predicate Embedding(a: seq<string>, b: seq<string>, at: seq<nat>) {
    && |at| == |a|
    && (forall i :: 0 <= i < |a| ==> at[i] < |b| && b[at[i]] == a[i])
    && forall i, j :: 0 <= i < j < |a| ==> at[i] < at[j]
  }

  ghost predicate Embeds(a: seq<string>, b: seq<string>) {
    exists at :: Embedding(a, b, at)
  }

  /** How far the greedy scan gets. */
  function Greedy(a: seq<string>, b: seq<string>): (n: nat)
    ensures n <= |a|
  {
    if b == [] then 0
    else
      var n := Greedy(a, b[..|b| - 1]);
      if n < |a| && b[|b| - 1] == a[n] then n + 1 else n
  }

  lemma {:induction false} GreedyEmbeds(a: seq<string>, b: seq<string>) returns (at: seq<nat>)
    ensures Embedding(a[..Greedy(a, b)], b, at)
  {
    if b == [] {
      at := [];
    } else {
      var m := |b| - 1;
      at := GreedyEmbeds(a, b[..m]);
      var n := Greedy(a, b[..m]);
      assert Embedding(a[..n], b, at);
      if n < |a| && b[m] == a[n] {
        assert a[..n + 1] == a[..n] + [a[n]];
        at := at + [m];
      }
    }
  }

  /** No embedding of a prefix reaches further than the greedy scan. */
  lemma {:induction false} GreedyIsBest(a: seq<string>, b: seq<string>, n: nat, at: seq<nat>)
    requires n <= |a| && Embedding(a[..n], b, at)
    ensures n <= Greedy(a, b)
    decreases |b|
  {
    if n > 0 {
      var m := |b| - 1;
      if at[n - 1] < m {
        assert Embedding(a[..n], b[..m], at);
        GreedyIsBest(a, b[..m], n, at);
      } else {
        assert a[..n][..n - 1] == a[..n - 1];
        assert Embedding(a[..n - 1], b[..m], at[..n - 1]);
        GreedyIsBest(a, b[..m], n - 1, at[..n - 1]);
      }
    }
  }

  lemma GreedyDecides(a: seq<string>, b: seq<string>)
    ensures Greedy(a, b) == |a| <==> Embeds(a, b)
  {
    if Greedy(a, b) == |a| {
      var at := GreedyEmbeds(a, b);
      assert a[..|a|] == a;
    }
    if Embeds(a, b) {
      var at :| Embedding(a, b, at);
      assert a[..|a|] == a;
      GreedyIsBest(a, b, |a|, at);
    }
  }

  /** Everything kept in order, and something added. */
  ghost predicate Inserts(a: seq<string>, b: seq<string>) {
    |b| > |a| && Embeds(a, b)
  }

  method IsPureInsertion(oldArr: seq<string>, newArr: seq<string>) returns (r: bool)
    ensures r <==> Inserts(oldArr, newArr)
  {
    if |newArr| <= |oldArr| { return false; }
    var i := 0;
    for k := 0 to |newArr|
      invariant i == Greedy(oldArr, newArr[..k])
    {
      assert newArr[..k + 1][..k] == newArr[..k];
      if i < |oldArr| && newArr[k] == oldArr[i] { i := i + 1; }
    }
    assert newArr[..|newArr|] == newArr;
    GreedyDecides(oldArr, newArr);
    r := i == |oldArr|;
  }

  lemma EmbedsCompose(a: seq<string>, b: seq<string>, c: seq<string>)
    requires Embeds(a, b) && Embeds(b, c)
    ensures Embeds(a, c)
  {
    var f :| Embedding(a, b, f);
    var g :| Embedding(b, c, g);
    var h := seq(|a|, i requires 0 <= i < |a| => g[f[i]]);
    assert Embedding(a, c, h);
  }

  lemma EmbeddedIsMember(a: seq<string>, b: seq<string>, x: string)
    requires Embeds(a, b) && x in a
    ensures x in b
  {
    var at :| Embedding(a, b, at);
    var i :| 0 <= i < |a| && a[i] == x;
    assert b[at[i]] == x;
  }

  // ---------------------------------------------------------------- first occurrences

  /** The list without repetitions, each entry where it first occurred. */
  function FirstOccurrences(s: seq<string>): seq<string> {
    if s == [] then []
    else
      var before := s[..|s| - 1];
      if s[|s| - 1] in before then FirstOccurrences(before)
      else FirstOccurrences(before) + [s[|s| - 1]]
  }

  lemma {:induction false} FirstOccurrencesMembers(s: seq<string>)
    ensures forall x :: x in FirstOccurrences(s) <==> x in s
  {
    if s != [] {
      FirstOccurrencesMembers(s[..|s| - 1]);
      assert s == s[..|s| - 1] + [s[|s| - 1]];
    }
  }

  method CollectFirst(s: seq<string>) returns (out: seq<string>)
    ensures out == FirstOccurrences(s)
  {
    out := [];
    var seen: set<string> := {};
    for k := 0 to |s|
      invariant out == FirstOccurrences(s[..k]) && forall x :: x in seen <==> x in s[..k]
    {
      assert s[..k + 1][..k] == s[..k];
      assert s[..k + 1] == s[..k] + [s[k]];
      if s[k] !in seen {
        seen := seen + {s[k]};
        out := out + [s[k]];
      }
    }
    assert s[..|s|] == s;
  }

  function Keep(s: seq<string>, a: seq<string>): seq<string> {
    if s == [] then []
    else if s[|s| - 1] in a then Keep(s[..|s| - 1], a) + [s[|s| - 1]]
    else Keep(s[..|s| - 1], a)
  }

  predicate KeepsFirstOrder(a: seq<string>, b: seq<string>) {
    FirstOccurrences(a) == Keep(FirstOccurrences(b), a)
  }

  lemma {:induction false} KeepTwice(s: seq<string>, a: seq<string>, b: seq<string>)
    requires forall x :: x in a ==> x in b
    ensures Keep(Keep(s, b), a) == Keep(s, a)
  {
    if s != [] {
      var n := |s| - 1;
      KeepTwice(s[..n], a, b);
      if s[n] in b {
        assert (Keep(s[..n], b) + [s[n]])[..|Keep(s[..n], b)|] == Keep(s[..n], b);
      }
    }
  }

  /** Where an entry first occurs. */
  function First(s: seq<string>, x: string): (k: nat)
    requires x in s
    ensures k < |s| && s[k] == x && x !in s[..k]
  {
    var before := s[..|s| - 1];
    assert s == before + [s[|s| - 1]];
    if x in before then
      var k := First(before, x);
      assert s[..k] == before[..k];
      k
    else |s| - 1
  }

  ghost predicate Ahead(s: seq<string>, x: string, y: string) {
    exists i, j :: 0 <= i < j < |s| && s[i] == x && s[j] == y
  }

  lemma FirstOfPrefix(s: seq<string>, x: string)
    requires s != [] && x in s[..|s| - 1]
    ensures x in s && First(s, x) == First(s[..|s| - 1], x)
  {
    var before := s[..|s| - 1];
    var k := First(before, x);
    assert s[k] == x && s[..k] == before[..k];
    FirstIs(s, x, k);
  }

  lemma FirstIs(s: seq<string>, x: string, k: nat)
    requires k < |s| && s[k] == x && x !in s[..k]
    ensures x in s && First(s, x) == k
  {
    var f := First(s, x);
    forall i | 0 <= i < k ensures s[i] != x { assert s[i] == s[..k][i]; }
    forall i | 0 <= i < f ensures s[i] != x { assert s[i] == s[..f][i]; }
  }

  /** The list of first occurrences is ordered by where they are. */
  lemma {:induction false} FirstOccurrencesOrder(s: seq<string>, x: string, y: string)
    requires x in s && y in s && x != y
    ensures First(s, x) < First(s, y) <==> Ahead(FirstOccurrences(s), x, y)
    decreases |s|
  {
    var before, z := s[..|s| - 1], s[|s| - 1];
    assert s == before + [z];
    FirstOccurrencesMembers(before);
    var t := FirstOccurrences(before);
    if x in before && y in before {
      FirstOccurrencesOrder(before, x, y);
      FirstOfPrefix(s, x);
      FirstOfPrefix(s, y);
      if z !in before { AheadAppend(t, z, x, y); }
    } else if x in before {
      assert x in t;
      var i :| 0 <= i < |t| && t[i] == x;
      assert (t + [z])[i] == x && (t + [z])[|t|] == y;
    } else {
      assert First(s, x) == |s| - 1;
    }
  }

  lemma AheadAppend(t: seq<string>, z: string, x: string, y: string)
    requires z != x && z != y
    ensures Ahead(t + [z], x, y) <==> Ahead(t, x, y)
  {
    if Ahead(t, x, y) {
      var i, j :| 0 <= i < j < |t| && t[i] == x && t[j] == y;
      assert (t + [z])[i] == x && (t + [z])[j] == y;
    }
  }

  lemma {:induction false} KeepIsAhead(s: seq<string>, a: seq<string>, x: string, y: string)
    requires Ahead(Keep(s, a), x, y)
    ensures Ahead(s, x, y)
  {
    var n := |s| - 1;
    var t := Keep(s[..n], a);
    var i, j :| 0 <= i < j < |Keep(s, a)| && Keep(s, a)[i] == x && Keep(s, a)[j] == y;
    if j < |t| {
      assert t[i] == x && t[j] == y;
      KeepIsAhead(s[..n], a, x, y);
      var k, m :| 0 <= k < m < |s[..n]| && s[..n][k] == x && s[..n][m] == y;
      assert s[k] == x && s[m] == y;
    } else {
      KeepMembers(s[..n], a, x);
      var k :| 0 <= k < n && s[..n][k] == x;
      assert s[k] == x && s[n] == y;
    }
  }

  lemma {:induction false} KeepMembers(s: seq<string>, a: seq<string>, x: string)
    requires x in Keep(s, a)
    ensures x in s
  {
    if x != s[|s| - 1] { KeepMembers(s[..|s| - 1], a, x); }
  }

  /** Accepted tiers run the old commands for the first time in the old order. */
  lemma FirstRunsKeepOrder(a: seq<string>, b: seq<string>, x: string, y: string)
    requires Embeds(a, b) && KeepsFirstOrder(a, b) && x in a && y in a && First(a, x) < First(a, y)
    ensures x in b && y in b && First(b, x) < First(b, y)
  {
    EmbeddedIsMember(a, b, x);
    EmbeddedIsMember(a, b, y);
    FirstOccurrencesOrder(a, x, y);
    KeepIsAhead(FirstOccurrences(b), a, x, y);
    FirstOccurrencesOrder(b, x, y);
  }

  /** Every old command first occurs in the new list, in the old order. */
  ghost predicate SameFirstRuns(a: seq<string>, b: seq<string>) {
    && (forall x :: x in a ==> x in b)
    && (forall x, y :: x in a && y in a && First(a, x) < First(a, y) ==> First(b, x) < First(b, y))
  }

  /** By first occurrence, with strangers last. */
  function ByFirst(a: seq<string>): (string, string) -> bool {
    (x, y) => x in a && (y in a ==> First(a, x) < First(a, y))
  }

  lemma {:induction false} KeepHas(s: seq<string>, a: seq<string>, x: string)
    ensures x in Keep(s, a) <==> x in s && x in a
  {
    if s != [] {
      KeepHas(s[..|s| - 1], a, x);
      assert s == s[..|s| - 1] + [s[|s| - 1]];
    }
  }

  lemma {:induction false} FirstOccurrencesDistinct(s: seq<string>)
    ensures Distinct(FirstOccurrences(s))
  {
    if s != [] {
      FirstOccurrencesDistinct(s[..|s| - 1]);
      FirstOccurrencesMembers(s[..|s| - 1]);
    }
  }

  lemma FirstOccurrencesAscend(s: seq<string>)
    ensures Ascending(FirstOccurrences(s), ByFirst(s))
  {
    var t := FirstOccurrences(s);
    FirstOccurrencesDistinct(s);
    FirstOccurrencesMembers(s);
    forall i, j | 0 <= i < j < |t| ensures ByFirst(s)(t[i], t[j]) {
      assert t[i] in t && t[j] in t;
      FirstOccurrencesOrder(s, t[i], t[j]);
    }
  }

  lemma {:induction false} KeepAscends(s: seq<string>, a: seq<string>, lt: (string, string) -> bool)
    requires Ascending(s, lt)
    ensures Ascending(Keep(s, a), lt)
  {
    if s != [] {
      var n := |s| - 1;
      KeepAscends(s[..n], a, lt);
      var t := Keep(s[..n], a);
      forall i | 0 <= i < |t| ensures lt(t[i], s[n]) {
        KeepHas(s[..n], a, t[i]);
        var j :| 0 <= j < n && s[..n][j] == t[i];
        assert s[j] == t[i];
      }
    }
  }

  /** The order test accepts exactly when the old commands first occur in the old order. */
  lemma KeepsFirstOrderExactly(a: seq<string>, b: seq<string>)
    requires Embeds(a, b)
    ensures KeepsFirstOrder(a, b) <==> SameFirstRuns(a, b)
  {
    forall x | x in a ensures x in b { EmbeddedIsMember(a, b, x); }
    if KeepsFirstOrder(a, b) {
      forall x, y | x in a && y in a && First(a, x) < First(a, y) ensures First(b, x) < First(b, y) {
        FirstRunsKeepOrder(a, b, x, y);
      }
    }
    if SameFirstRuns(a, b) { SameFirstRunsKeep(a, b); }
  }

  lemma SameFirstRunsKeep(a: seq<string>, b: seq<string>)
    requires SameFirstRuns(a, b)
    ensures KeepsFirstOrder(a, b)
  {
    var s, t := FirstOccurrences(a), Keep(FirstOccurrences(b), a);
    FirstOccurrencesAscend(a);
    FirstOccurrencesAscend(b);
    KeepAscends(FirstOccurrences(b), a, ByFirst(b));
    FirstOccurrencesMembers(a);
    FirstOccurrencesMembers(b);
    forall x ensures x in s <==> x in t { KeepHas(FirstOccurrences(b), a, x); }
    assert Elements(s) == Elements(t);
    forall i, j | 0 <= i < j < |s| ensures ByFirst(b)(s[i], s[j]) {
      assert s[i] in s && s[j] in s && ByFirst(a)(s[i], s[j]);
    }
    AscendingIsUnique(s, t, ByFirst(b));
  }

  lemma KeepsFirstOrderCompose(a: seq<string>, b: seq<string>, c: seq<string>)
    requires Embeds(a, b) && KeepsFirstOrder(a, b) && KeepsFirstOrder(b, c)
    ensures KeepsFirstOrder(a, c)
  {
    forall x | x in a ensures x in b { EmbeddedIsMember(a, b, x); }
    KeepTwice(FirstOccurrences(c), a, b);
  }

  // ---------------------------------------------------------------- the whole document

  predicate IsStringArray(j: Json) {
    j.JArr? && forall i :: 0 <= i < |j.elems| ==> j.elems[i].JStr?
  }

  function Texts(elems: seq<Json>): seq<string>
    requires forall i :: 0 <= i < |elems| ==> elems[i].JStr?
  {
    seq(|elems|, i requires 0 <= i < |elems| => elems[i].s)
  }

  predicate IsTier(j: Json) {
    IsStringArray(j) && |j.elems| > 0 && forall i :: 0 <= i < |j.elems| ==> j.elems[i].s != ""
  }

  predicate IsTiers(j: Json) {
    j.JArr? && forall i :: 0 <= i < |j.elems| ==> IsTier(j.elems[i])
  }

  function Flatten(tiers: seq<Json>): seq<string>
    requires forall i :: 0 <= i < |tiers| ==> IsTier(tiers[i])
  {
    if tiers == [] then []
    else
      assert IsTier(tiers[0]);
      Texts(tiers[0].elems) + Flatten(tiers[1..])
  }

  function Get(f: map<string, Json>, k: string): Option<Json> { if k in f then Some(f[k]) else None }

  datatype Change = Same | Grown | Refused

  ghost function ListChange(a: Option<Json>, b: Option<Json>): Change {
    if a == b then Same
    else if a.Some? && b.Some? && IsStringArray(a.value) && IsStringArray(b.value)
            && Inserts(Texts(a.value.elems), Texts(b.value.elems)) then Grown
    else Refused
  }

  ghost function TierChange(a: Option<Json>, b: Option<Json>): Change {
    if a.None? && b.None? then Same
    else if a.None? || b.None? || !IsTiers(a.value) || !IsTiers(b.value) then Refused
    else if a == b then Same
    else
      var x, y := Flatten(a.value.elems), Flatten(b.value.elems);
      if Inserts(x, y) && KeepsFirstOrder(x, y) then Grown else Refused
  }

  const COMMAND_KEYS := {"commands", "additionalCommands", "tiers"}

  predicate HasValidation(j: Json) {
    j.JObj? && "validation" in j.fields && j.fields["validation"].JObj?
  }

  function Validation(j: Json): map<string, Json>
    requires HasValidation(j)
  {
    j.fields["validation"].fields
  }

  /** The document with its three command lists removed. */
  function Rest(j: Json): Json
    requires HasValidation(j)
  {
    JObj(j.fields["validation" := JObj(Validation(j) - COMMAND_KEYS)])
  }

  ghost function Changes(a: Json, b: Json): seq<Change>
    requires HasValidation(a) && HasValidation(b)
  {
    var v, w := Validation(a), Validation(b);
    [ListChange(Get(v, "commands"), Get(w, "commands")),
     ListChange(Get(v, "additionalCommands"), Get(w, "additionalCommands")),
     TierChange(Get(v, "tiers"), Get(w, "tiers"))]
  }

  /** Accepted: only insertions, at least one, and nothing else differs. */
  ghost predicate Accepts(a: Json, b: Json) {
    && HasValidation(a) && HasValidation(b) && Rest(a) == Rest(b)
    && Refused !in Changes(a, b) && Grown in Changes(a, b)
  }

  method CompareList(a: Option<Json>, b: Option<Json>) returns (c: Change)
    ensures c == ListChange(a, b)
  {
    if a.Some? && b.Some? { DeepEqualIsEquality(a.value, b.value); }
    if (a.None? && b.None?) || (a.Some? && b.Some? && DeepEqual(a.value, b.value)) { return Same; }
    if a.None? || b.None? || !IsStringArray(a.value) || !IsStringArray(b.value) { return Refused; }
    var grows := IsPureInsertion(Texts(a.value.elems), Texts(b.value.elems));
    c := if grows then Grown else Refused;
  }

  method CompareTiers(a: Option<Json>, b: Option<Json>) returns (c: Change)
    ensures c == TierChange(a, b)
  {
    if a.None? && b.None? { return Same; }
    if a.None? || b.None? || !IsTiers(a.value) || !IsTiers(b.value) { return Refused; }
    DeepEqualIsEquality(a.value, b.value);
    if DeepEqual(a.value, b.value) { return Same; }
    var x, y := Flatten(a.value.elems), Flatten(b.value.elems);
    var grows := IsPureInsertion(x, y);
    if !grows { return Refused; }
    var oldFirst := CollectFirst(x);
    var newFirst := CollectFirst(y);
    c := if oldFirst == Keep(newFirst, x) then Grown else Refused;
  }

  /** The decision on two parsed documents; a document that does not parse is refused. */
  method IsAdditiveChange(oldDoc: Option<Json>, newDoc: Option<Json>) returns (r: bool)
    ensures r <==> oldDoc.Some? && newDoc.Some? && Accepts(oldDoc.value, newDoc.value)
  {
    if oldDoc.None? || newDoc.None? { return false; }
    var a, b := oldDoc.value, newDoc.value;
    if !HasValidation(a) || !HasValidation(b) { return false; }
    ghost var changes := Changes(a, b);
    var sawInsertion := false;
    var keys := ["commands", "additionalCommands"];
    for k := 0 to 2
      invariant Refused !in changes[..k] && (sawInsertion <==> Grown in changes[..k])
    {
      assert changes[..k + 1] == changes[..k] + [changes[k]];
      var c := CompareList(Get(Validation(a), keys[k]), Get(Validation(b), keys[k]));
      if c == Refused { return false; }
      if c == Grown { sawInsertion := true; }
    }
    var t := CompareTiers(Get(Validation(a), "tiers"), Get(Validation(b), "tiers"));
    assert changes == changes[..2] + [t];
    if t == Refused { return false; }
    if t == Grown { sawInsertion := true; }
    DeepEqualIsEquality(Rest(a), Rest(b));
    r := sawInsertion && DeepEqual(Rest(a), Rest(b));
  }

  // ---------------------------------------------------------------- the edits that are accepted

  /** The texts of a list of strings are its entries, and the tiers one after the other are one list. */
  lemma {:induction false} FlattenConcat(a: seq<Json>, b: seq<Json>)
    requires (forall i :: 0 <= i < |a| ==> IsTier(a[i])) && (forall i :: 0 <= i < |b| ==> IsTier(b[i]))
    ensures Flatten(a + b) == Flatten(a) + Flatten(b)
  {
    if a == [] {
      assert a + b == b;
    } else {
      assert (a + b)[0] == a[0] && (a + b)[1..] == a[1..] + b;
      FlattenConcat(a[1..], b);
    }
  }

  lemma FlattenOne(tier: Json)
    requires IsTier(tier)
    ensures
      var texts := Flatten([tier]);
      |texts| == |tier.elems| && forall i :: 0 <= i < |texts| ==> tier.elems[i] == JStr(texts[i])
  {
    assert [tier][1..] == [];
  }

  /** Both fields are lists of strings, and the new one is longer and keeps the old one in order. */
  ghost predicate ListGrown(v: map<string, Json>, w: map<string, Json>, key: string) {
    exists x, y :: HasTexts(v, key, x) && HasTexts(w, key, y) && |x| < |y| && Embeds(x, y)
  }

  ghost predicate HasTexts(v: map<string, Json>, key: string, texts: seq<string>) {
    && key in v && v[key].JArr? && |v[key].elems| == |texts|
    && forall i :: 0 <= i < |texts| ==> v[key].elems[i] == JStr(texts[i])
  }

  /** A list of tiers, each a list of at least one text and none of them empty; together they are the given commands. */
  ghost predicate HasTiers(v: map<string, Json>, texts: seq<string>) {
    && "tiers" in v && v["tiers"].JArr?
    && (forall t :: t in v["tiers"].elems ==> t.JArr? && t.elems != [] && forall e :: e in t.elems ==> e.JStr? && e.s != "")
    && IsTiers(v["tiers"]) && texts == Flatten(v["tiers"].elems)
  }

  /** The same for the commands of all tiers, and every old command still runs first in the old order. */
  ghost predicate TiersGrown(v: map<string, Json>, w: map<string, Json>) {
    && "tiers" in v && "tiers" in w && v["tiers"] != w["tiers"]
    && exists x, y :: HasTiers(v, x) && HasTiers(w, y) && |x| < |y| && Embeds(x, y) && SameFirstRuns(x, y)
  }

  ghost predicate SameField(v: map<string, Json>, w: map<string, Json>, key: string) {
    (key in v <==> key in w) && (key in v ==> v[key] == w[key])
  }

  ghost predicate TiersKept(v: map<string, Json>, w: map<string, Json>) {
    SameField(v, w, "tiers") && ("tiers" in v ==> exists x :: HasTiers(v, x))
  }

  /** Nothing outside the command lists differs, inside or outside the validation object. */
  ghost predicate SameElsewhere(a: Json, b: Json) {
    && a.JObj? && b.JObj? && "validation" in a.fields && "validation" in b.fields
    && a.fields["validation"].JObj? && b.fields["validation"].JObj?
    && (forall key :: key != "validation" ==> SameField(a.fields, b.fields, key))
    && var v, w := a.fields["validation"].fields, b.fields["validation"].fields;
       forall key :: key != "commands" && key != "additionalCommands" && key != "tiers" ==> SameField(v, w, key)
  }

  lemma ListExactly(v: map<string, Json>, w: map<string, Json>, key: string)
    ensures ListChange(Get(v, key), Get(w, key)) == Same <==> SameField(v, w, key)
    ensures ListChange(Get(v, key), Get(w, key)) == Grown <==> ListGrown(v, w, key)
  {
    if ListChange(Get(v, key), Get(w, key)) == Grown {
      assert HasTexts(v, key, Texts(v[key].elems)) && HasTexts(w, key, Texts(w[key].elems));
    }
    if ListGrown(v, w, key) {
      var x, y :| HasTexts(v, key, x) && HasTexts(w, key, y) && |x| < |y| && Embeds(x, y);
      assert Texts(v[key].elems) == x && Texts(w[key].elems) == y;
    }
  }

  lemma TiersExactly(j: Json)
    ensures IsTiers(j) <==>
      j.JArr? && forall t :: t in j.elems ==> t.JArr? && t.elems != [] && forall e :: e in t.elems ==> e.JStr? && e.s != ""
  {
    if IsTiers(j) {
      forall t | t in j.elems ensures t.JArr? && t.elems != [] && forall e :: e in t.elems ==> e.JStr? && e.s != "" {
        var i :| 0 <= i < |j.elems| && j.elems[i] == t;
        assert IsTier(j.elems[i]);
      }
    }
    if j.JArr? && forall t :: t in j.elems ==> t.JArr? && t.elems != [] && forall e :: e in t.elems ==> e.JStr? && e.s != "" {
      forall i | 0 <= i < |j.elems| ensures IsTier(j.elems[i]) {
        var t := j.elems[i];
        assert t in j.elems;
        forall k | 0 <= k < |t.elems| ensures t.elems[k].JStr? && t.elems[k].s != "" { assert t.elems[k] in t.elems; }
      }
    }
  }

  lemma HasTiersExactly(v: map<string, Json>)
    ensures (exists x :: HasTiers(v, x)) <==> "tiers" in v && IsTiers(v["tiers"])
    ensures "tiers" in v && IsTiers(v["tiers"]) ==> forall x :: HasTiers(v, x) <==> x == Flatten(v["tiers"].elems)
  {
    if "tiers" in v && IsTiers(v["tiers"]) {
      TiersExactly(v["tiers"]);
      assert HasTiers(v, Flatten(v["tiers"].elems));
    }
  }

  lemma TierExactly(v: map<string, Json>, w: map<string, Json>)
    ensures TierChange(Get(v, "tiers"), Get(w, "tiers")) == Same <==> TiersKept(v, w)
    ensures TierChange(Get(v, "tiers"), Get(w, "tiers")) == Grown <==> TiersGrown(v, w)
  {
    HasTiersExactly(v);
    HasTiersExactly(w);
    if "tiers" in v && "tiers" in w && IsTiers(v["tiers"]) && IsTiers(w["tiers"]) {
      var x, y := Flatten(v["tiers"].elems), Flatten(w["tiers"].elems);
      if Embeds(x, y) { KeepsFirstOrderExactly(x, y); }
      assert TiersGrown(v, w) <==> v["tiers"] != w["tiers"] && |x| < |y| && Embeds(x, y) && SameFirstRuns(x, y);
    }
  }

  lemma RestExactly(a: Json, b: Json)
    requires HasValidation(a) && HasValidation(b)
    ensures Rest(a) == Rest(b) <==> SameElsewhere(a, b)
  {
    var v, w := Validation(a), Validation(b);
    var f, g := Rest(a).fields, Rest(b).fields;
    SameMaps(f, g);
    SameMaps(v - COMMAND_KEYS, w - COMMAND_KEYS);
    forall key ensures SameField(v - COMMAND_KEYS, w - COMMAND_KEYS, key) <==> key in COMMAND_KEYS || SameField(v, w, key) {
      SameWithout(v, w, key);
    }
    forall key ensures SameField(f, g, key) <==> if key == "validation" then v - COMMAND_KEYS == w - COMMAND_KEYS else SameField(a.fields, b.fields, key) {}
    assert SameField(f, g, "validation") <==> v - COMMAND_KEYS == w - COMMAND_KEYS;
  }

  lemma SameWithout(v: map<string, Json>, w: map<string, Json>, key: string)
    ensures SameField(v - COMMAND_KEYS, w - COMMAND_KEYS, key) <==> key in COMMAND_KEYS || SameField(v, w, key)
  {
    assert key in v - COMMAND_KEYS <==> key in v && key !in COMMAND_KEYS;
    assert key in w - COMMAND_KEYS <==> key in w && key !in COMMAND_KEYS;
  }

  lemma SameMaps(f: map<string, Json>, g: map<string, Json>)
    ensures f == g <==> forall key :: SameField(f, g, key)
  {
    if forall key :: SameField(f, g, key) {
      forall key ensures key in f <==> key in g { assert SameField(f, g, key); }
      forall key | key in f ensures f[key] == g[key] { assert SameField(f, g, key); }
    }
  }

  /** An edit is accepted exactly when each command list is kept or grows, at least one grows, and nothing else differs. */
  lemma AcceptsExactly(a: Json, b: Json)
    ensures Accepts(a, b) <==>
      && SameElsewhere(a, b)
      && var v, w := a.fields["validation"].fields, b.fields["validation"].fields;
      && (SameField(v, w, "commands") || ListGrown(v, w, "commands"))
      && (SameField(v, w, "additionalCommands") || ListGrown(v, w, "additionalCommands"))
      && (TiersKept(v, w) || TiersGrown(v, w))
      && (ListGrown(v, w, "commands") || ListGrown(v, w, "additionalCommands") || TiersGrown(v, w))
  {
    if HasValidation(a) && HasValidation(b) {
      var v, w := Validation(a), Validation(b);
      RestExactly(a, b);
      ListExactly(v, w, "commands");
      ListExactly(v, w, "additionalCommands");
      TierExactly(v, w);
      var c := Changes(a, b);
      assert Refused in c <==> c[0] == Refused || c[1] == Refused || c[2] == Refused;
      assert Grown in c <==> c[0] == Grown || c[1] == Grown || c[2] == Grown;
    }
  }

  // ---------------------------------------------------------------- a strict partial order

  lemma ListChangeComposes(a: Option<Json>, b: Option<Json>, c: Option<Json>)
    requires ListChange(a, b) != Refused && ListChange(b, c) != Refused
    ensures ListChange(a, c) == if ListChange(a, b) == Same && ListChange(b, c) == Same then Same else Grown
  {
    if ListChange(a, b) == Grown && ListChange(b, c) == Grown {
      EmbedsCompose(Texts(a.value.elems), Texts(b.value.elems), Texts(c.value.elems));
      assert |a.value.elems| < |c.value.elems|;
    }
  }

  lemma TierChangeComposes(a: Option<Json>, b: Option<Json>, c: Option<Json>)
    requires TierChange(a, b) != Refused && TierChange(b, c) != Refused
    ensures TierChange(a, c) == if TierChange(a, b) == Same && TierChange(b, c) == Same then Same else Grown
  {
    if TierChange(a, b) == Grown && TierChange(b, c) == Grown {
      var x, y, z := Flatten(a.value.elems), Flatten(b.value.elems), Flatten(c.value.elems);
      EmbedsCompose(x, y, z);
      KeepsFirstOrderCompose(x, y, z);
      assert |x| < |z|;
    }
  }

  lemma AcceptsIsIrreflexive(a: Json)
    ensures !Accepts(a, a)
  {
  }

  lemma AcceptsIsTransitive(a: Json, b: Json, c: Json)
    requires Accepts(a, b) && Accepts(b, c)
    ensures Accepts(a, c)
  {
    var u, v, w := Validation(a), Validation(b), Validation(c);
    var p, q := Changes(a, b), Changes(b, c);
    assert p[0] in p && p[1] in p && p[2] in p && q[0] in q && q[1] in q && q[2] in q;
    ListChangeComposes(Get(u, "commands"), Get(v, "commands"), Get(w, "commands"));
    ListChangeComposes(Get(u, "additionalCommands"), Get(v, "additionalCommands"), Get(w, "additionalCommands"));
    TierChangeComposes(Get(u, "tiers"), Get(v, "tiers"), Get(w, "tiers"));
    var i :| 0 <= i < 3 && p[i] == Grown;
    assert Changes(a, c)[i] == Grown;
  }

  lemma AcceptsIsAsymmetric(a: Json, b: Json)
    requires Accepts(a, b)
    ensures !Accepts(b, a)
  {
    if Accepts(b, a) { AcceptsIsTransitive(a, b, a); AcceptsIsIrreflexive(a); }
  }

  /** A chain of accepted edits is accepted as one edit. */
  lemma {:induction false} ChainIsOneEdit(docs: seq<Json>)
    requires |docs| >= 2 && forall i :: 0 <= i < |docs| - 1 ==> Accepts(docs[i], docs[i + 1])
    ensures Accepts(docs[0], docs[|docs| - 1])
  {
    var n := |docs| - 1;
    if n > 1 {
      ChainIsOneEdit(docs[..n]);
      assert docs[..n][n - 1] == docs[n - 1];
      assert Accepts(docs[n - 1], docs[n - 1 + 1]);
      AcceptsIsTransitive(docs[0], docs[n - 1], docs[n]);
    } else {
      assert Accepts(docs[0], docs[0 + 1]);
    }
  }
}
