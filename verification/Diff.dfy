/** Differences between two stored states as a list of changed paths. */
module Diff {
  import opened Common
  import opened Text
  import opened Json

  datatype Change = Change(path: string, before: Option<Value>, after: Option<Value>)

  /** One member or element of either side; `token` is its reference token. */
  datatype Slot = Slot(token: string, before: Option<Value>, after: Option<Value>)

  // ---------------------------------------------------------------- the complete difference

  function Member(v: Value, key: string): (r: Option<Value>)
    ensures r.Some? ==> r.value < v
  {
    if v.Object? && key in v.fields then Some(v.fields[key]) else None
  }

  function Item(v: Value, i: nat): (r: Option<Value>)
    ensures r.Some? ==> r.value < v
  {
    if v.Array? && i < |v.items| then Some(v.items[i]) else None
  }

  predicate SameKind(b: Value, a: Value) {
    (b.Object? && a.Object?) || (b.Array? && a.Array?)
  }

  ghost predicate Below(slots: seq<Slot>, v: Value) {
    forall i :: 0 <= i < |slots| && slots[i].before.Some? ==> slots[i].before.value < v
  }

  ghost function MemberSlots(b: Value, a: Value, keys: seq<string>): (slots: seq<Slot>)
    ensures |slots| == |keys|
    ensures forall i :: 0 <= i < |keys| ==> slots[i] == Slot(Escape(keys[i]), Member(b, keys[i]), Member(a, keys[i]))
  {
    if keys == [] then []
    else [Slot(Escape(keys[0]), Member(b, keys[0]), Member(a, keys[0]))] + MemberSlots(b, a, keys[1..])
  }

  ghost function ItemSlots(b: Value, a: Value, n: nat): (slots: seq<Slot>)
    ensures |slots| == n
    ensures forall i :: 0 <= i < n ==> slots[i] == Slot(Decimal(i), Item(b, i), Item(a, i))
  {
    if n == 0 then [] else ItemSlots(b, a, n - 1) + [Slot(Decimal(n - 1), Item(b, n - 1), Item(a, n - 1))]
  }

  ghost function Slots(b: Value, a: Value): (slots: seq<Slot>)
    requires SameKind(b, a)
    ensures Below(slots, b)
  {
    if b.Object? then MemberSlots(b, a, SortedKeys(b.fields.Keys + a.fields.Keys))
    else ItemSlots(b, a, Max(|b.items|, |a.items|))
  }

  ghost function DiffValue(path: string, b: Value, a: Value): seq<Change>
    decreases b, 1
  {
    if b == a then []
    else if SameKind(b, a) then DiffSlots(path, b, Slots(b, a))
    else [Change(path, Some(b), Some(a))]
  }

  ghost function DiffSlots(path: string, parent: Value, slots: seq<Slot>): seq<Change>
    requires Below(slots, parent)
    decreases parent, 0, |slots|
  {
    if slots == [] then []
    else
      var s := slots[0];
      (if s.before.Some? && s.after.Some? then DiffValue(path + "/" + s.token, s.before.value, s.after.value)
       else Leaf(path + "/" + s.token, s.before, s.after))
      + DiffSlots(path, parent, slots[1..])
  }

  function Leaf(path: string, b: Option<Value>, a: Option<Value>): seq<Change> {
    if b == a then [] else [Change(path, b, a)]
  }

  /** Either side may be absent, which is different from null. */
  ghost function Diff(path: string, b: Option<Value>, a: Option<Value>): seq<Change> {
    if b.Some? && a.Some? then DiffValue(path, b.value, a.value) else Leaf(path, b, a)
  }

  // ---------------------------------------------------------------- slots

  predicate GoodTokens(slots: seq<Slot>) {
    && (forall i :: 0 <= i < |slots| ==> '/' !in slots[i].token)
    && (forall i, j :: 0 <= i < j < |slots| ==> slots[i].token != slots[j].token)
  }

  lemma SortedKeysDistinct(keys: set<string>)
    ensures forall i, j :: 0 <= i < j < |SortedKeys(keys)| ==> SortedKeys(keys)[i] != SortedKeys(keys)[j]
    decreases |keys|
  {
    hide SortedKeys, IsLeast;
    if keys != {} {
      LeastExists(keys);
      var k :| IsLeast(k, keys);
      LeastIn(k, keys);
      SortedKeysFront(keys, k);
      SortedKeysDistinct(keys - {k});
      var order, rest := SortedKeys(keys), SortedKeys(keys - {k});
      forall i, j | 0 <= i < j < |order| ensures order[i] != order[j] {
        assert order[j] == rest[j - 1] && rest[j - 1] in keys - {k};
        if i > 0 {
          assert order[i] == rest[i - 1];
        }
      }
    }
  }

  lemma LeastIn(k: string, keys: set<string>)
    requires IsLeast(k, keys)
    ensures k in keys
  {
  }

  lemma DecimalInjective(i: nat, j: nat)
    requires Decimal(i) == Decimal(j)
    ensures i == j
  {
    DecimalShape(i);
    DecimalShape(j);
  }

  /** Reference tokens of siblings are distinct because escaping and printing are injective. */
  lemma SlotsGood(b: Value, a: Value)
    requires SameKind(b, a)
    ensures GoodTokens(Slots(b, a))
  {
    hide Escape, Decimal, SortedKeys;
    var slots := Slots(b, a);
    if b.Object? {
      var keys := SortedKeys(b.fields.Keys + a.fields.Keys);
      SortedKeysDistinct(b.fields.Keys + a.fields.Keys);
      forall i | 0 <= i < |slots| ensures '/' !in slots[i].token {
        EscapeShape(keys[i]);
      }
      forall i, j | 0 <= i < j < |slots| ensures slots[i].token != slots[j].token {
        if Escape(keys[i]) == Escape(keys[j]) {
          EscapeInjective(keys[i], keys[j]);
        }
      }
    } else {
      forall i | 0 <= i < |slots| ensures '/' !in slots[i].token {
        DecimalShape(i);
      }
      forall i, j | 0 <= i < j < |slots| ensures slots[i].token != slots[j].token {
        if Decimal(i) == Decimal(j) {
          DecimalInjective(i, j);
        }
      }
    }
  }

  /** Each slot shows what a pointer lookup finds on either side. */
  lemma SlotLookup(b: Value, a: Value, i: nat, rest: string)
    requires SameKind(b, a) && i < |Slots(b, a)| && PathShape(rest)
    ensures var s := Slots(b, a)[i];
            && Lookup(b, "/" + s.token + rest) == (if s.before.None? then None else Lookup(s.before.value, rest))
            && Lookup(a, "/" + s.token + rest) == (if s.after.None? then None else Lookup(s.after.value, rest))
  {
    hide Escape, Decimal, SortedKeys, Lookup;
    if b.Object? {
      var key := SortedKeys(b.fields.Keys + a.fields.Keys)[i];
      LookupMember(b.fields, key, rest);
      LookupMember(a.fields, key, rest);
    } else {
      LookupItem(b.items, i, rest);
      LookupItem(a.items, i, rest);
    }
  }

  // ---------------------------------------------------------------- where changes lie

  /** `inner` is `outer` or lies inside it. */
  predicate Within(outer: string, inner: string) {
    outer <= inner && (|inner| == |outer| || inner[|outer|] == '/')
  }

  lemma WithinChild(path: string, token: string, inner: string)
    requires Within(path + "/" + token, inner)
    ensures Within(path, inner) && inner != path
  {
    assert path <= path + "/" + token;
    assert (path + "/" + token)[|path|] == '/';
  }

  /** Siblings with different tokens have no path in common. */
  lemma SiblingsApart(path: string, s: string, t: string, x: string, y: string)
    requires '/' !in s && '/' !in t && s != t
    requires Within(path + "/" + s, x) && Within(path + "/" + t, y)
    ensures !Within(x, y) && !Within(y, x)
  {
    var p, q := path + "/" + s, path + "/" + t;
    if Within(x, y) {
      assert p <= y;
      CommonChild(path, s, t, y);
    } else if Within(y, x) {
      assert q <= x;
      CommonChild(path, t, s, x);
    }
  }

  lemma CommonChild(path: string, s: string, t: string, y: string)
    requires '/' !in s && '/' !in t && path + "/" + s <= y && Within(path + "/" + t, y)
    requires |y| > |path| + 1 + |s| ==> y[|path| + 1 + |s|] == '/'
    ensures s == t
  {
    var n := |path| + 1;
    assert forall i :: 0 <= i < |s| ==> y[n + i] == s[i];
    assert forall i :: 0 <= i < |t| ==> y[n + i] == t[i];
    assert |s| == |t|;
  }

  ghost function SlotDiff(path: string, s: Slot): seq<Change> {
    Diff(path + "/" + s.token, s.before, s.after)
  }

  /** The changes of a container are those of its slots. */
  lemma {:induction false} SlotChanges(path: string, parent: Value, slots: seq<Slot>, c: Change)
    requires Below(slots, parent)
    ensures c in DiffSlots(path, parent, slots) <==> exists i :: 0 <= i < |slots| && c in SlotDiff(path, slots[i])
    decreases |slots|
  {
    hide DiffValue;
    if slots == [] {
    } else {
      assert DiffSlots(path, parent, slots) == SlotDiff(path, slots[0]) + DiffSlots(path, parent, slots[1..]);
      SlotChanges(path, parent, slots[1..], c);
      if exists i :: 0 <= i < |slots| && c in SlotDiff(path, slots[i]) {
        var i :| 0 <= i < |slots| && c in SlotDiff(path, slots[i]);
        if i > 0 {
          assert slots[1..][i - 1] == slots[i];
        }
      }
      if exists i :: 0 <= i < |slots| - 1 && c in SlotDiff(path, slots[1..][i]) {
        var i :| 0 <= i < |slots| - 1 && c in SlotDiff(path, slots[1..][i]);
        assert slots[i + 1] == slots[1..][i];
      }
    }
  }

  /** Every change lies at or below the compared path. */
  lemma {:induction false} ChangesWithin(path: string, b: Value, a: Value, c: Change)
    requires c in DiffValue(path, b, a)
    ensures Within(path, c.path) && (SameKind(b, a) ==> c.path != path)
    decreases b
  {
    hide DiffSlots, Slots;
    if SameKind(b, a) {
      var slots := Slots(b, a);
      SlotChanges(path, b, slots, c);
      var i :| 0 <= i < |slots| && c in SlotDiff(path, slots[i]);
      SlotWithin(path, b, slots, i, c);
      WithinChild(path, slots[i].token, c.path);
    }
  }

  lemma SlotWithin(path: string, b: Value, slots: seq<Slot>, i: nat, c: Change)
    requires Below(slots, b) && i < |slots| && c in SlotDiff(path, slots[i])
    ensures Within(path + "/" + slots[i].token, c.path)
    decreases b, 0
  {
    var s := slots[i];
    if s.before.Some? && s.after.Some? {
      ChangesWithin(path + "/" + s.token, s.before.value, s.after.value, c);
    }
  }

  /**
    Change paths are pairwise distinct and none lies inside another, so the order in which changes
    are applied does not matter.
   */
  lemma {:induction false} ChangesApart(path: string, b: Value, a: Value, i: nat, j: nat)
    requires i < j < |DiffValue(path, b, a)|
    ensures var d := DiffValue(path, b, a); !Within(d[i].path, d[j].path) && !Within(d[j].path, d[i].path)
    decreases b, 1
  {
    hide Within, Slots, DiffSlots;
    if SameKind(b, a) {
      SlotsGood(b, a);
      SlotsApart(path, b, Slots(b, a), i, j);
    }
  }

  lemma {:induction false} SlotsApart(path: string, b: Value, slots: seq<Slot>, i: nat, j: nat)
    requires Below(slots, b) && GoodTokens(slots) && i < j < |DiffSlots(path, b, slots)|
    ensures var d := DiffSlots(path, b, slots); !Within(d[i].path, d[j].path) && !Within(d[j].path, d[i].path)
    decreases b, 0, |slots|
  {
    hide Within, DiffValue;
    var first, rest := SlotDiff(path, slots[0]), DiffSlots(path, b, slots[1..]);
    var d := DiffSlots(path, b, slots);
    assert d == first + rest;
    var n := |first|;
    if j < n {
      assert d[i] == first[i] && d[j] == first[j];
      var s := slots[0];
      ChangesApart(path + "/" + s.token, s.before.value, s.after.value, i, j);
    } else if i >= n {
      assert d[i] == rest[i - n] && d[j] == rest[j - n];
      SlotsApart(path, b, slots[1..], i - n, j - n);
    } else {
      assert d[i] == first[i] && d[j] == rest[j - n];
      SlotWithin(path, b, slots, 0, d[i]);
      SlotChanges(path, b, slots[1..], d[j]);
      var k :| 0 <= k < |slots| - 1 && d[j] in SlotDiff(path, slots[1..][k]);
      assert slots[1..][k] == slots[k + 1];
      SlotWithin(path, b, slots, k + 1, d[j]);
      SiblingsApart(path, slots[0].token, slots[k + 1].token, d[i].path, d[j].path);
    }
  }

  // ---------------------------------------------------------------- what changes say

  function LookupIn(v: Option<Value>, p: string): Option<Value> {
    if v.None? then None else Lookup(v.value, p)
  }

  /** A change reports exactly what pointer lookups find in the two states, and they differ. */
  lemma {:induction false} ChangesTrue(path: string, b: Value, a: Value, c: Change)
    requires c in DiffValue(path, b, a)
    ensures path <= c.path && PathShape(c.path[|path|..])
    ensures Lookup(b, c.path[|path|..]) == c.before && Lookup(a, c.path[|path|..]) == c.after && c.before != c.after
    decreases b
  {
    hide DiffSlots, Slots, Lookup, SlotDiff;
    if SameKind(b, a) {
      var slots := Slots(b, a);
      SlotChanges(path, b, slots, c);
      var i :| 0 <= i < |slots| && c in SlotDiff(path, slots[i]);
      SlotTrue(path, b, slots, i, c);
      SlotLookup(b, a, i, c.path[|path| + 1 + |slots[i].token|..]);
      PathSplit(path, slots[i].token, c.path);
    } else {
      assert c.path[|path|..] == "";
      LookupSelf(b);
      LookupSelf(a);
    }
  }

  lemma LookupSelf(v: Value)
    ensures Lookup(v, "") == Some(v)
  {
  }

  lemma SlotTrue(path: string, b: Value, slots: seq<Slot>, i: nat, c: Change)
    requires Below(slots, b) && i < |slots| && c in SlotDiff(path, slots[i])
    ensures path + "/" + slots[i].token <= c.path
    ensures var rest := c.path[|path| + 1 + |slots[i].token|..];
            && PathShape(rest) && c.before != c.after
            && LookupIn(slots[i].before, rest) == c.before && LookupIn(slots[i].after, rest) == c.after
    decreases b, 0
  {
    hide DiffValue, Lookup;
    var s := slots[i];
    var child := path + "/" + s.token;
    assert |child| == |path| + 1 + |s.token|;
    if s.before.Some? && s.after.Some? {
      ChangesTrue(child, s.before.value, s.after.value, c);
    } else {
      assert c == Change(child, s.before, s.after) && c.path[|child|..] == "";
      LookupSelf(if s.before.Some? then s.before.value else s.after.value);
    }
  }

  lemma PathSplit(path: string, token: string, full: string)
    requires path + "/" + token <= full
    ensures path <= full && full[|path|..] == "/" + token + full[|path| + 1 + |token|..]
  {
    var child := path + "/" + token;
    assert full == child + full[|child|..];
  }

  /** Only equal states have no changes. */
  lemma {:induction false} NoChangesEqual(path: string, b: Value, a: Value)
    ensures DiffValue(path, b, a) == [] ==> b == a
    decreases b
  {
    if b != a && SameKind(b, a) {
      hide DiffSlots;
      var i := DifferentSlot(b, a);
      var s := Slots(b, a)[i];
      var child := path + "/" + s.token;
      if s.before.Some? && s.after.Some? {
        NoChangesEqual(child, s.before.value, s.after.value);
      }
      var c := Diff(child, s.before, s.after)[0];
      assert c in SlotDiff(path, s);
      SlotChanges(path, b, Slots(b, a), c);
    }
  }

  lemma SameMembersEqual(b: Value, a: Value)
    requires b.Object? && a.Object? && forall k :: k in b.fields.Keys + a.fields.Keys ==> Member(b, k) == Member(a, k)
    ensures b == a
  {
    assert forall k :: k in b.fields <==> Member(b, k).Some?;
    assert forall k :: k in a.fields <==> Member(a, k).Some?;
    assert b.fields == a.fields;
  }

  lemma SameItemsEqual(b: Value, a: Value)
    requires b.Array? && a.Array? && forall j :: 0 <= j < Max(|b.items|, |a.items|) ==> Item(b, j) == Item(a, j)
    ensures b == a
  {
    assert |b.items| < |a.items| ==> Item(b, |b.items|) != Item(a, |b.items|);
    assert |a.items| < |b.items| ==> Item(b, |a.items|) != Item(a, |a.items|);
    assert forall j :: 0 <= j < |b.items| ==> Some(b.items[j]) == Item(b, j);
    assert forall j :: 0 <= j < |a.items| ==> Some(a.items[j]) == Item(a, j);
    assert b.items == a.items;
  }

  lemma DifferentSlot(b: Value, a: Value) returns (i: nat)
    requires b != a && SameKind(b, a)
    ensures i < |Slots(b, a)| && Slots(b, a)[i].before != Slots(b, a)[i].after
  {
    hide Escape, Decimal, SortedKeys, Member, Item;
    if b.Object? {
      var keys := SortedKeys(b.fields.Keys + a.fields.Keys);
      if forall k :: k in b.fields.Keys + a.fields.Keys ==> Member(b, k) == Member(a, k) {
        SameMembersEqual(b, a);
      }
      var k :| k in b.fields.Keys + a.fields.Keys && Member(b, k) != Member(a, k);
      assert k in keys;
      i :| 0 <= i < |keys| && keys[i] == k;
    } else {
      var n := Max(|b.items|, |a.items|);
      if forall j :: 0 <= j < n ==> Item(b, j) == Item(a, j) {
        SameItemsEqual(b, a);
      }
      i :| 0 <= i < n && Item(b, i) != Item(a, i);
    }
  }

  // ---------------------------------------------------------------- before plus changes determine after

  /** A slot's changes are the container's changes at or below its path. */
  lemma ChangesOfSlot(path: string, b: Value, a: Value, i: nat, c: Change)
    requires SameKind(b, a) && b != a && i < |Slots(b, a)|
    ensures c in SlotDiff(path, Slots(b, a)[i])
       <==> c in DiffValue(path, b, a) && Within(path + "/" + Slots(b, a)[i].token, c.path)
  {
    hide DiffSlots, Within, SlotDiff, Slots;
    var slots := Slots(b, a);
    SlotChanges(path, b, slots, c);
    SlotsGood(b, a);
    if c in SlotDiff(path, slots[i]) {
      SlotWithin(path, b, slots, i, c);
    } else if c in DiffValue(path, b, a) && Within(path + "/" + slots[i].token, c.path) {
      var j :| 0 <= j < |slots| && c in SlotDiff(path, slots[j]);
      SlotWithin(path, b, slots, j, c);
      WithinSelf(c.path);
      SiblingsApart(path, slots[i].token, slots[j].token, c.path, c.path);
    }
  }

  lemma WithinSelf(p: string)
    ensures Within(p, p)
  {
  }

  /** No slot, no change there. */
  lemma NoSlotNoChange(path: string, b: Value, a: Value, token: string, c: Change)
    requires SameKind(b, a) && c in DiffValue(path, b, a) && '/' !in token
    requires forall i :: 0 <= i < |Slots(b, a)| ==> Slots(b, a)[i].token != token
    ensures !Within(path + "/" + token, c.path)
  {
    hide DiffSlots, Within, SlotDiff, Slots;
    var slots := Slots(b, a);
    SlotChanges(path, b, slots, c);
    SlotsGood(b, a);
    var j :| 0 <= j < |slots| && c in SlotDiff(path, slots[j]);
    SlotWithin(path, b, slots, j, c);
    if Within(path + "/" + token, c.path) {
      WithinSelf(c.path);
      SiblingsApart(path, token, slots[j].token, c.path, c.path);
    }
  }

  /** The two change lists agree as sets. */
  ghost predicate SameChanges(d: seq<Change>, e: seq<Change>) {
    forall c :: c in d <==> c in e
  }

  /** The state after is determined by the state before and the changes. */
  lemma {:induction false} ChangesDetermine(path: string, b: Value, a1: Value, a2: Value)
    requires SameChanges(DiffValue(path, b, a1), DiffValue(path, b, a2))
    ensures a1 == a2
    decreases b, 3
  {
    hide DiffSlots, Within, Slots;
    var d1, d2 := DiffValue(path, b, a1), DiffValue(path, b, a2);
    if d1 == [] || d2 == [] {
      EmptyTogether(d1, d2);
      NoChangesEqual(path, b, a1);
      NoChangesEqual(path, b, a2);
    } else if !SameKind(b, a1) || !SameKind(b, a2) {
      LeafDetermines(path, b, a1, a2);
    } else {
      ContainerDetermines(path, b, a1, a2);
    }
  }

  lemma EmptyTogether(d: seq<Change>, e: seq<Change>)
    requires SameChanges(d, e)
    ensures d == [] <==> e == []
  {
    assert d != [] ==> d[0] in e;
    assert e != [] ==> e[0] in d;
  }

  lemma LeafDetermines(path: string, b: Value, a1: Value, a2: Value)
    requires SameChanges(DiffValue(path, b, a1), DiffValue(path, b, a2)) && b != a1 && b != a2
    requires !SameKind(b, a1) || !SameKind(b, a2)
    ensures a1 == a2
  {
    hide DiffSlots, Slots;
    if !SameKind(b, a1) {
      var c := Change(path, Some(b), Some(a1));
      assert c in DiffValue(path, b, a1);
      assert c in DiffValue(path, b, a2);
      ChangesWithin(path, b, a2, c);
    } else {
      var c := Change(path, Some(b), Some(a2));
      assert c in DiffValue(path, b, a2);
      assert c in DiffValue(path, b, a1);
      ChangesWithin(path, b, a1, c);
    }
  }

  lemma {:induction false} ContainerDetermines(path: string, b: Value, a1: Value, a2: Value)
    requires SameKind(b, a1) && SameKind(b, a2) && b != a1 && b != a2
    requires SameChanges(DiffValue(path, b, a1), DiffValue(path, b, a2))
    ensures a1 == a2
    decreases b, 2
  {
    hide DiffValue, Within, Escape, Decimal, Member, Item, SameChanges;
    if b.Object? {
      forall k | k in a1.fields.Keys + a2.fields.Keys ensures Member(a1, k) == Member(a2, k) {
        var s1, s2 := MemberSlot(b, a1, k), MemberSlot(b, a2, k);
        MemberSlotOf(b, a1, k);
        MemberSlotOf(b, a2, k);
        SlotDetermines(path, b, a1, a2, s1, s2);
      }
      SameMembersEqual(a1, a2);
    } else {
      forall j | 0 <= j < Max(|a1.items|, |a2.items|) ensures Item(a1, j) == Item(a2, j) {
        ItemSlotOf(b, a1, j);
        ItemSlotOf(b, a2, j);
        var s1, s2 := ItemSlot(b, a1, j), ItemSlot(b, a2, j);
        SlotDetermines(path, b, a1, a2, s1, s2);
      }
      SameItemsEqual(a1, a2);
    }
  }

  function MemberSlot(b: Value, a: Value, k: string): Slot {
    Slot(Escape(k), Member(b, k), Member(a, k))
  }

  function ItemSlot(b: Value, a: Value, j: nat): Slot {
    Slot(Decimal(j), Item(b, j), Item(a, j))
  }

  /** What both sides hold under a token, present as a slot or absent on both sides. */
  ghost predicate SlotOf(s: Slot, b: Value, a: Value)
    requires SameKind(b, a)
  {
    && '/' !in s.token && (s.before.Some? ==> s.before.value < b)
    && ((exists i :: 0 <= i < |Slots(b, a)| && Slots(b, a)[i] == s)
        || (s.before == None && s.after == None && forall i :: 0 <= i < |Slots(b, a)| ==>
              Slots(b, a)[i].token != s.token))
  }

  lemma MemberSlotOf(b: Value, a: Value, k: string)
    requires b.Object? && a.Object?
    ensures SlotOf(MemberSlot(b, a, k), b, a)
  {
    hide Escape, SortedKeys;
    EscapeShape(k);
    var keys := SortedKeys(b.fields.Keys + a.fields.Keys);
    if k in keys {
      var i :| 0 <= i < |keys| && keys[i] == k;
      assert Slots(b, a)[i] == MemberSlot(b, a, k);
    } else {
      forall i | 0 <= i < |keys| ensures Slots(b, a)[i].token != Escape(k) {
        if Escape(keys[i]) == Escape(k) {
          EscapeInjective(keys[i], k);
        }
      }
    }
  }

  lemma ItemSlotOf(b: Value, a: Value, j: nat)
    requires b.Array? && a.Array?
    ensures SlotOf(ItemSlot(b, a, j), b, a)
  {
    hide Decimal;
    DecimalShape(j);
    var n := Max(|b.items|, |a.items|);
    if j < n {
      assert Slots(b, a)[j] == ItemSlot(b, a, j);
    } else {
      forall i | 0 <= i < n ensures Slots(b, a)[i].token != Decimal(j) {
        if Decimal(i) == Decimal(j) {
          DecimalInjective(i, j);
        }
      }
    }
  }

  lemma SlotChangesAre(path: string, b: Value, a: Value, s: Slot, c: Change)
    requires SameKind(b, a) && b != a && SlotOf(s, b, a)
    ensures c in SlotDiff(path, s) <==> c in DiffValue(path, b, a) && Within(path + "/" + s.token, c.path)
  {
    hide DiffValue, Within, Slots;
    if exists i :: 0 <= i < |Slots(b, a)| && Slots(b, a)[i] == s {
      var i :| 0 <= i < |Slots(b, a)| && Slots(b, a)[i] == s;
      ChangesOfSlot(path, b, a, i, c);
    } else {
      assert SlotDiff(path, s) == [];
      if c in DiffValue(path, b, a) {
        NoSlotNoChange(path, b, a, s.token, c);
      }
    }
  }

  lemma {:induction false} SlotDetermines(path: string, b: Value, a1: Value, a2: Value, s1: Slot, s2: Slot)
    requires SameKind(b, a1) && SameKind(b, a2) && b != a1 && b != a2
    requires SameChanges(DiffValue(path, b, a1), DiffValue(path, b, a2))
    requires SlotOf(s1, b, a1) && SlotOf(s2, b, a2) && s1.token == s2.token && s1.before == s2.before
    ensures s1.after == s2.after
    decreases b, 1
  {
    hide DiffValue, Within, Slots;
    forall c ensures c in SlotDiff(path, s1) <==> c in SlotDiff(path, s2) {
      SlotChangesAre(path, b, a1, s1, c);
      SlotChangesAre(path, b, a2, s2, c);
    }
    assert SameChanges(SlotDiff(path, s1), SlotDiff(path, s2));
    OptionDetermines(path + "/" + s1.token, b, s1, s2);
  }

  lemma {:induction false} OptionDetermines(child: string, parent: Value, s1: Slot, s2: Slot)
    requires s1.before == s2.before && (s1.before.Some? ==> s1.before.value < parent)
    requires SameChanges(Diff(child, s1.before, s1.after), Diff(child, s2.before, s2.after))
    ensures s1.after == s2.after
    decreases parent, 0
  {
    hide DiffValue;
    var d1, d2 := Diff(child, s1.before, s1.after), Diff(child, s2.before, s2.after);
    if s1.before.Some? && s1.after.Some? && s2.after.Some? {
      ChangesDetermine(child, s1.before.value, s1.after.value, s2.after.value);
    } else if s1.before.Some? && s1.after != s2.after {
      // one side removed the value, the other kept or changed it
      var kept := if s1.after.Some? then s1.after.value else s2.after.value;
      var c := Change(child, s1.before, None);
      assert c in d1 || c in d2;
      assert c in DiffValue(child, s1.before.value, kept);
      ChangesWithin(child, s1.before.value, kept, c);
      LeafAfter(child, s1.before.value, kept, c);
    } else if s1.before.None? {
      assert s1.after.Some? ==> Change(child, None, s1.after) in d1;
      assert s2.after.Some? ==> Change(child, None, s2.after) in d2;
    }
  }

  lemma LeafAfter(path: string, b: Value, a: Value, c: Change)
    requires c in DiffValue(path, b, a) && !SameKind(b, a)
    ensures c.after == Some(a)
  {
  }

  // ---------------------------------------------------------------- completeness

  lemma {:induction false} DecimalCanonical(s: string)
    requires s != "" && (forall c :: c in s ==> IsDigit(c)) && (s[0] == '0' ==> |s| == 1)
    ensures Decimal(DecimalValue(s)) == s
  {
    var n := |s|;
    assert IsDigit(s[n - 1]) && IsDigit(s[0]);
    if n == 1 {
      assert s[..0] == "" && s == [s[0]];
    } else {
      var init := s[..n - 1];
      assert init[0] == s[0] && s == init + [s[n - 1]];
      DecimalCanonical(init);
      DecimalShape(DecimalValue(init));
    }
  }

  lemma PlainWhenDigits(token: string)
    requires ValidEscapes(token) && '/' !in token && forall c :: c in Unescape(token) ==> IsDigit(c)
    ensures Unescape(token) == token
  {
    UnescapeRoundTrip(token);
    EscapeDigits(Unescape(token));
  }

  lemma EscapeDigits(s: string)
    requires forall c :: c in s ==> IsDigit(c)
    ensures Escape(s) == s
  {
    if s == "" {
    } else {
      assert s == [s[0]] + s[1..];
      EscapeStep(s[0], s[1..]);
      EscapeDigits(s[1..]);
      assert IsDigit(s[0]);
    }
  }

  /** A token that selects something on either side belongs to a slot. */
  lemma ChildHasSlot(b: Value, a: Value, token: string) returns (i: nat)
    requires SameKind(b, a) && ValidEscapes(token) && '/' !in token
    requires Child(b, token).Some? || Child(a, token).Some?
    ensures i < |Slots(b, a)| && Slots(b, a)[i].token == token
  {
    hide Escape, Unescape, Decimal, SortedKeys, ValidEscapes, DecimalValue;
    var key := Unescape(token);
    if b.Object? {
      UnescapeRoundTrip(token);
      var keys := SortedKeys(b.fields.Keys + a.fields.Keys);
      assert key in keys;
      i :| 0 <= i < |keys| && keys[i] == key;
    } else {
      assert forall c :: c in key ==> IsDigit(c);
      PlainWhenDigits(token);
      DecimalCanonical(key);
      i := DecimalValue(key);
    }
  }

  lemma ChildPath(path: string, token: string, rest: string)
    ensures path + ("/" + token + rest) == (path + "/" + token) + rest
  {
  }

  lemma WithinAppend(path: string, rest: string)
    requires PathShape(rest)
    ensures Within(path, path + rest)
  {
  }

  /** Wherever two states differ, some change lies at, above or below that pointer. */
  lemma {:induction false} ChangesComplete(path: string, b: Value, a: Value, q: string) returns (c: Change)
    requires PathShape(q) && ValidEscapes(q) && Lookup(b, q) != Lookup(a, q)
    ensures c in DiffValue(path, b, a) && (Within(c.path, path + q) || Within(path + q, c.path))
    decreases b
  {
    hide DiffSlots, DiffValue, Slots, Within, Lookup, ValidEscapes, Child;
    if q == "" || !SameKind(b, a) {
      c := ChangeHere(path, b, a, q);
      return;
    }
    var n := TokenLength(q[1..]);
    var token, rest := q[1..1 + n], q[1 + n..];
    assert q[1..] == token + rest && q == "/" + token + rest && token == q[1..][..n];
    EscapesBelow(token, rest, q);
    LookupStep(b, token, rest);
    LookupStep(a, token, rest);
    var i := ChildHasSlot(b, a, token);
    var s := Slots(b, a)[i];
    SlotLookup(b, a, i, rest);
    ChildPath(path, token, rest);
    if s.before.Some? && s.after.Some? {
      BelowAt(b, a, i);
      c := ChangesComplete(path + "/" + token, s.before.value, s.after.value, rest);
    } else {
      c := Change(path + "/" + token, s.before, s.after);
      WithinAppend(path + "/" + token, rest);
    }
    assert c in SlotDiff(path, s);
    SlotChangeIn(path, b, a, i, c);
  }

  /** Where the pointer ends, or the kinds differ, any change reported lies at or below it. */
  lemma ChangeHere(path: string, b: Value, a: Value, q: string) returns (c: Change)
    requires PathShape(q) && Lookup(b, q) != Lookup(a, q) && (q == "" || !SameKind(b, a))
    ensures c in DiffValue(path, b, a) && (Within(c.path, path + q) || Within(path + q, c.path))
  {
    hide DiffSlots, Slots, Within, Child;
    NoChangesEqual(path, b, a);
    c := DiffValue(path, b, a)[0];
    ChangesWithin(path, b, a, c);
    WithinAppend(path, q);
    assert q == "" ==> path + q == path;
  }

  lemma SlotChangeIn(path: string, b: Value, a: Value, i: nat, c: Change)
    requires SameKind(b, a) && b != a && i < |Slots(b, a)| && c in SlotDiff(path, Slots(b, a)[i])
    ensures c in DiffValue(path, b, a)
  {
    hide DiffSlots, Slots, SlotDiff;
    SlotChanges(path, b, Slots(b, a), c);
  }

  lemma BelowAt(b: Value, a: Value, i: nat)
    requires SameKind(b, a) && i < |Slots(b, a)| && Slots(b, a)[i].before.Some?
    ensures Slots(b, a)[i].before.value < b
  {
  }

  lemma EscapesBelow(token: string, rest: string, q: string)
    requires q == "/" + token + rest && PathShape(rest) && ValidEscapes(q)
    ensures ValidEscapes(token) && ValidEscapes(rest)
  {
    assert q[1..] == token + rest;
    ValidEscapesSplit(token, rest);
  }

  // ---------------------------------------------------------------- the bounded response

  const MAX_CHANGES := 1_000

  datatype Response = Response(changes: seq<Change>, bytes: nat, truncated: bool)

  /** Take changes in order until one exceeds the count or byte budget; then stop for good. */
  function Take(r: Response, d: seq<Change>, size: Change -> nat): Response
    decreases |d|
  {
    if d == [] || r.truncated then r
    else if |r.changes| >= MAX_CHANGES || r.bytes + size(d[0]) + 1 > MAX_PAGE_BYTES then r.(truncated := true)
    else Take(Response(r.changes + [d[0]], r.bytes + size(d[0]) + 1, false), d[1..], size)
  }

  lemma {:induction false} TakeAppend(r: Response, d: seq<Change>, e: seq<Change>, size: Change -> nat)
    ensures Take(r, d + e, size) == Take(Take(r, d, size), e, size)
    decreases |d|
  {
    if d == [] {
      assert d + e == e;
    } else if !r.truncated && |r.changes| < MAX_CHANGES && r.bytes + size(d[0]) + 1 <= MAX_PAGE_BYTES {
      assert (d + e)[1..] == d[1..] + e;
      TakeAppend(Response(r.changes + [d[0]], r.bytes + size(d[0]) + 1, false), d[1..], e, size);
    }
  }

  /** A truncated list is a proper prefix of the complete one; an untruncated list is the complete one. */
  lemma {:induction false} TakePrefix(r: Response, d: seq<Change>, size: Change -> nat)
    requires !r.truncated
    ensures var t := Take(r, d, size);
            && |r.changes| <= |t.changes| <= |r.changes| + |d|
            && t.changes == r.changes + d[..|t.changes| - |r.changes|]
            && (t.truncated <==> |t.changes| < |r.changes| + |d|)
    decreases |d|
  {
    if d != [] && |r.changes| < MAX_CHANGES && r.bytes + size(d[0]) + 1 <= MAX_PAGE_BYTES {
      var next := Response(r.changes + [d[0]], r.bytes + size(d[0]) + 1, false);
      TakePrefix(next, d[1..], size);
      var t := Take(next, d[1..], size);
      var k := |t.changes| - |next.changes|;
      assert [d[0]] + d[1..][..k] == d[..k + 1];
      assert t.changes == r.changes + ([d[0]] + d[1..][..k]);
    } else {
      assert d[..0] == [];
    }
  }

  /** Bytes a list of changes takes in the response. */
  function Wire(changes: seq<Change>, size: Change -> nat): nat {
    if changes == [] then 16 * 1024
    else Wire(changes[..|changes| - 1], size) + size(changes[|changes| - 1]) + 1
  }

  /** One change more would break the limit of a thousand changes or of a page. */
  predicate Full(changes: seq<Change>, next: Change, size: Change -> nat) {
    |changes| >= 1_000 || Wire(changes, size) + size(next) + 1 > 16 * 1024 * 1024
  }

  /** The list stops only where it is full, and is within both limits. */
  lemma {:induction false} TakeMaximal(r: Response, d: seq<Change>, size: Change -> nat)
    requires !r.truncated && r.bytes == Wire(r.changes, size) <= 16 * 1024 * 1024 && |r.changes| <= 1_000
    ensures var t := Take(r, d, size);
            && |r.changes| <= |t.changes| <= |r.changes| + |d|
            && |t.changes| <= 1_000 && Wire(t.changes, size) <= 16 * 1024 * 1024
            && (|t.changes| < |r.changes| + |d| ==> Full(t.changes, d[|t.changes| - |r.changes|], size))
    decreases |d|
  {
    hide Wire, Full;
    if d == [] {
    } else if |r.changes| < MAX_CHANGES && r.bytes + size(d[0]) + 1 <= MAX_PAGE_BYTES {
      WireGrows(r.changes, d[0], size);
      TakeMaximal(Response(r.changes + [d[0]], r.bytes + size(d[0]) + 1, false), d[1..], size);
    } else {
      FullHere(r.changes, d[0], size);
    }
  }

  lemma WireGrows(changes: seq<Change>, c: Change, size: Change -> nat)
    ensures Wire(changes + [c], size) == Wire(changes, size) + size(c) + 1
  {
    assert (changes + [c])[..|changes|] == changes;
  }

  lemma FullHere(changes: seq<Change>, next: Change, size: Change -> nat)
    requires |changes| >= MAX_CHANGES || Wire(changes, size) + size(next) + 1 > MAX_PAGE_BYTES
    ensures Full(changes, next, size)
  {
  }

  class Differ {
    var changes: seq<Change>
    var bytes: nat
    var truncated: bool
    /** Length of a change as JSON text. */
    const size: Change -> nat

    function Now(): Response
      reads this
    {
      Response(changes, bytes, truncated)
    }

    constructor (size: Change -> nat)
      ensures this.size == size && Now() == Response([], PAGE_ENVELOPE_RESERVE, false)
    {
      this.size := size;
      changes, bytes, truncated := [], PAGE_ENVELOPE_RESERVE, false;
    }

    method Report(c: Change)
      requires !truncated
      modifies this
      ensures Now() == Take(old(Now()), [c], size)
    {
      if |changes| >= MAX_CHANGES || bytes + (size(c) + 1) > MAX_PAGE_BYTES {
        truncated := true;
      } else {
        bytes := bytes + (size(c) + 1);
        changes := changes + [c];
      }
    }

    /** The recursive walk with its shared response, byte counter and stop flag. */
    method Walk(path: string, b: Option<Value>, a: Option<Value>)
      modifies this
      ensures Now() == Take(old(Now()), Diff(path, b, a), size)
      decreases if b.Some? then 1 else 0, if b.Some? then b.value else Null, 1
    {
      hide Slots, DiffSlots;
      if b == a || truncated {
        return;
      }
      if b.Some? && a.Some? && SameKind(b.value, a.value) {
        var slots := CollectSlots(b.value, a.value);
        WalkSlots(path, b.value, slots);
      } else {
        Report(Change(path, b, a));
      }
    }

    method WalkSlots(path: string, parent: Value, slots: seq<Slot>)
      requires Below(slots, parent)
      modifies this
      ensures Now() == Take(old(Now()), DiffSlots(path, parent, slots), size)
      decreases 1, parent, 0
    {
      hide DiffValue, Take;
      ghost var start := Now();
      assert slots[0..] == slots;
      var i := 0;
      while i < |slots|
        invariant i <= |slots|
        invariant Take(Now(), DiffSlots(path, parent, slots[i..]), size)
                  == Take(start, DiffSlots(path, parent, slots), size)
      {
        var s := slots[i];
        ghost var rest := slots[i..];
        assert rest[0] == s && rest[1..] == slots[i + 1..];
        assert DiffSlots(path, parent, rest) == SlotDiff(path, s) + DiffSlots(path, parent, rest[1..]);
        TakeAppend(Now(), SlotDiff(path, s), DiffSlots(path, parent, rest[1..]), size);
        if s.before.Some? {
          Walk(path + "/" + s.token, s.before, s.after);
        } else {
          WalkAdded(path + "/" + s.token, s.after);
        }
        i := i + 1;
        if truncated {
          TakeStopped(Now(), DiffSlots(path, parent, slots[i..]), size);
          break;
        }
      }
      if i == |slots| {
        TakeNothing(Now(), path, parent, slots[i..], size);
      }
    }

    /** A member that did not exist before. */
    method WalkAdded(path: string, a: Option<Value>)
      modifies this
      ensures Now() == Take(old(Now()), Diff(path, None, a), size)
    {
      if a.Some? && !truncated {
        Report(Change(path, None, a));
      }
    }
  }

  lemma TakeStopped(r: Response, d: seq<Change>, size: Change -> nat)
    requires r.truncated
    ensures Take(r, d, size) == r
  {
  }

  lemma TakeNothing(r: Response, path: string, parent: Value, slots: seq<Slot>, size: Change -> nat)
    requires slots == []
    ensures Take(r, DiffSlots(path, parent, slots), size) == r
  {
  }

  method CollectSlots(b: Value, a: Value) returns (slots: seq<Slot>)
    requires SameKind(b, a)
    ensures slots == Slots(b, a)
  {
    hide MemberSlots, ItemSlots, SortedKeys;
    if b.Object? {
      var keys := WalkOrder(b.fields.Keys + a.fields.Keys);
      slots := CollectMembers(b, a, keys);
    } else {
      slots := CollectItems(b, a, Max(|b.items|, |a.items|));
    }
  }

  method CollectMembers(b: Value, a: Value, keys: seq<string>) returns (slots: seq<Slot>)
    ensures slots == MemberSlots(b, a, keys)
  {
    hide Escape, Member, MemberSlots;
    slots := [];
    for i := 0 to |keys|
      invariant |slots| == i && forall j :: 0 <= j < i ==>
                slots[j] == Slot(Escape(keys[j]), Member(b, keys[j]), Member(a, keys[j]))
    {
      slots := slots + [Slot(Escape(keys[i]), Member(b, keys[i]), Member(a, keys[i]))];
    }
  }

  method CollectItems(b: Value, a: Value, n: nat) returns (slots: seq<Slot>)
    ensures slots == ItemSlots(b, a, n)
  {
    hide Decimal, Item, ItemSlots;
    slots := [];
    for i := 0 to n
      invariant |slots| == i && forall j :: 0 <= j < i ==> slots[j] == Slot(Decimal(j), Item(b, j), Item(a, j))
    {
      slots := slots + [Slot(Decimal(i), Item(b, i), Item(a, i))];
    }
  }

  /**
    Compare two states: the reported changes are the complete difference, or a proper prefix of it
    and marked as truncated.
   */
  lemma WireNothing(size: Change -> nat)
    ensures Wire([], size) == PAGE_ENVELOPE_RESERVE
  {
  }

  method Compare(before: Value, after: Value, size: Change -> nat) returns (changes: seq<Change>, truncated: bool)
    ensures changes <= DiffValue("", before, after)
    ensures truncated <==> changes != DiffValue("", before, after)
    ensures |changes| <= 1_000 && Wire(changes, size) <= 16 * 1024 * 1024
    ensures truncated ==>
              |changes| < |DiffValue("", before, after)| && Full(changes, DiffValue("", before, after)[|changes|], size)
  {
    hide DiffValue, Take, Wire, Full;
    WireNothing(size);
    TakeMaximal(Response([], PAGE_ENVELOPE_RESERVE, false), DiffValue("", before, after), size);
    var differ := new Differ(size);
    differ.Walk("", Some(before), Some(after));
    TakePrefix(Response([], PAGE_ENVELOPE_RESERVE, false), DiffValue("", before, after), size);
    return differ.changes, differ.truncated;
  }
}
