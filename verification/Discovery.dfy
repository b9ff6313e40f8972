/**
  Discovery of numeric fields in a state tree under node, field, object-size and path-length caps,
  with every skipped subtree recorded. `Discover` specifies the walk; `Walker.Visit` is the walk.
 */
module Discovery {
  import opened Text
  import opened Json

  const MAX_SOURCE_FIELDS := 4096
  const MAX_OBJECT_FIELDS := 256
  const MAX_DISCOVERY_NODES := 8192

  datatype Found = Found(fields: set<string>, nodes: nat, truncated: bool, exclusions: set<string>) {
    function Skip(path: string): Found {
      this.(truncated := true, exclusions := exclusions + {path})
    }
  }

  const NOTHING := Found({}, 0, false, {})

  /** `rsplit_once('/')`: everything before the last slash, or nothing. */
  function Parent(path: string): (parent: string)
    ensures '/' in path ==> |parent| < |path| && parent + "/" <= path
    ensures '/' !in path ==> parent == ""
  {
    if path == "" then ""
    else if path[|path| - 1] == '/' then path[..|path| - 1]
    else
      assert path == path[..|path| - 1] + [path[|path| - 1]];
      Parent(path[..|path| - 1])
  }

  function MemberPath(path: string, key: string): string {
    path + "/" + Escape(key)
  }

  lemma MemberPathAppend(path: string, key: string, rest: string)
    ensures path + ("/" + Escape(key) + rest) == MemberPath(path, key) + rest
  {
  }

  ghost function Discover(path: string, v: Value, st: Found): Found
    decreases v
  {
    var st := st.(nodes := st.nodes + 1);
    if st.nodes > MAX_DISCOVERY_NODES || Bytes(path) > MAX_POINTER_BYTES then st.Skip(Parent(path))
    else
      match v
      case Object(fields) =>
        if |fields| <= MAX_OBJECT_FIELDS then DiscoverMembers(path, v, SortedKeys(fields.Keys), st)
        else st.Skip(path)
      case Array(_) => st.(exclusions := st.exclusions + {path})
      case Number(_, float) =>
        if |st.fields| >= MAX_SOURCE_FIELDS then st.Skip(path)
        else if float.Some? then st.(fields := st.fields + {path})
        else st
      case _ => st
  }

  ghost function DiscoverMembers(path: string, v: Value, keys: seq<string>, st: Found): Found
    requires v.Object? && forall k :: k in keys ==> k in v.fields
    decreases v, |keys|
  {
    if keys == [] then st
    else if st.nodes >= MAX_DISCOVERY_NODES then st.Skip(path)
    else DiscoverMembers(path, v, keys[1..], Discover(MemberPath(path, keys[0]), v.fields[keys[0]], st))
  }

  /** `Projected::excludes`: some skipped subtree contains the path. */
  predicate Excluded(exclusions: set<string>, path: string) {
    exists e :: e in exclusions && e <= path && (|path| == |e| || path[|e|] == '/')
  }

  // ---------------------------------------------------------------- what discovery keeps

  predicate Grows(a: Found, b: Found) {
    a.fields <= b.fields && a.exclusions <= b.exclusions && a.nodes <= b.nodes
  }

  lemma DiscoverGrows(path: string, v: Value, st: Found)
    ensures Grows(st, Discover(path, v, st))
    decreases v
  {
    var st1 := st.(nodes := st.nodes + 1);
    if st1.nodes <= MAX_DISCOVERY_NODES && Bytes(path) <= MAX_POINTER_BYTES && v.Object?
      && |v.fields| <= MAX_OBJECT_FIELDS {
      DiscoverMembersGrows(path, v, SortedKeys(v.fields.Keys), st1);
    }
  }

  lemma DiscoverMembersGrows(path: string, v: Value, keys: seq<string>, st: Found)
    requires v.Object? && forall k :: k in keys ==> k in v.fields
    ensures Grows(st, DiscoverMembers(path, v, keys, st))
    decreases v, |keys|
  {
    if keys != [] && st.nodes < MAX_DISCOVERY_NODES {
      var next := Discover(MemberPath(path, keys[0]), v.fields[keys[0]], st);
      DiscoverGrows(MemberPath(path, keys[0]), v.fields[keys[0]], st);
      DiscoverMembersGrows(path, v, keys[1..], next);
    }
  }

  lemma SkippedCovers(path: string, suffix: string, exclusions: set<string>)
    requires PathShape(path) && PathShape(suffix)
    requires path in exclusions || Parent(path) in exclusions
    ensures Excluded(exclusions, path + suffix)
  {
    var full := path + suffix;
    if path in exclusions {
      assert path <= full;
    } else {
      var parent := Parent(path);
      if path != "" {
        assert '/' in path;
        assert full[|parent|] == '/' && parent <= full;
      }
    }
  }

  /** Only containers have anything below them, and a container is not itself a number. */
  lemma NumberShape(v: Value, suffix: string)
    requires NumberAt(v, suffix).Some?
    ensures v.Object? || v.Array? ==> suffix != ""
    ensures !v.Object? && !v.Array? ==> suffix == "" && v.Number? && v.float.Some?
  {
  }

  /**
    Discovery is complete up to its recorded skips: a finite number below `path` is either a
    discovered field or lies inside a skipped subtree.
   */
  lemma {:induction false} DiscoverComplete(path: string, v: Value, st: Found, suffix: string)
    requires PathShape(path) && PathShape(suffix) && ValidEscapes(suffix)
    requires NumberAt(v, suffix).Some?
    ensures var r := Discover(path, v, st);
            path + suffix in r.fields || Excluded(r.exclusions, path + suffix)
    decreases v
  {
    hide DiscoverMembers, Excluded, SortedKeys, Escape, Lookup, ValidEscapes;
    var st1 := st.(nodes := st.nodes + 1);
    NumberShape(v, suffix);
    if st1.nodes <= MAX_DISCOVERY_NODES && Bytes(path) <= MAX_POINTER_BYTES && v.Object?
      && |v.fields| <= MAX_OBJECT_FIELDS {
      var key, rest := SplitPointer(suffix);
      LookupMember(v.fields, key, rest);
      DiscoverMembersComplete(path, v, SortedKeys(v.fields.Keys), st1, key, rest);
      MemberPathAppend(path, key, rest);
    } else {
      DiscoverLeafComplete(path, v, st, suffix);
    }
  }

  lemma DiscoverLeafComplete(path: string, v: Value, st: Found, suffix: string)
    requires PathShape(path) && PathShape(suffix)
    requires st.nodes >= MAX_DISCOVERY_NODES || Bytes(path) > MAX_POINTER_BYTES
          || (v.Object? && |v.fields| > MAX_OBJECT_FIELDS) || v.Array? || (v.Number? && v.float.Some? && suffix == "")
    ensures var r := Discover(path, v, st);
            path + suffix in r.fields || Excluded(r.exclusions, path + suffix)
  {
    var r := Discover(path, v, st);
    if path in r.exclusions || Parent(path) in r.exclusions {
      SkippedCovers(path, suffix, r.exclusions);
    } else {
      assert path + suffix == path;
    }
  }

  lemma {:induction false} DiscoverMembersComplete(path: string, v: Value, keys: seq<string>, st: Found, key: string,
                                                   rest: string)
    requires v.Object? && forall k :: k in keys ==> k in v.fields
    requires key in keys
    requires PathShape(path) && PathShape(rest) && ValidEscapes(rest)
    requires NumberAt(v.fields[key], rest).Some?
    ensures var r := DiscoverMembers(path, v, keys, st);
            MemberPath(path, key) + rest in r.fields || Excluded(r.exclusions, MemberPath(path, key) + rest)
    decreases v, |keys|
  {
    var r := DiscoverMembers(path, v, keys, st);
    if st.nodes >= MAX_DISCOVERY_NODES {
      SkippedCovers(path, "/" + Escape(key) + rest, r.exclusions);
      MemberPathAppend(path, key, rest);
    } else {
      var next := Discover(MemberPath(path, keys[0]), v.fields[keys[0]], st);
      if key == keys[0] {
        assert PathShape(MemberPath(path, key));
        DiscoverComplete(MemberPath(path, key), v.fields[key], st, rest);
        DiscoverMembersGrows(path, v, keys[1..], next);
      } else {
        DiscoverMembersComplete(path, v, keys[1..], next, key, rest);
      }
    }
  }

  /** Discovery is sound: a new field is a finite number of the state. */
  lemma {:induction false} DiscoverSound(path: string, v: Value, st: Found, field: string)
    requires field in Discover(path, v, st).fields && field !in st.fields
    ensures path <= field && PathShape(field[|path|..]) && ValidEscapes(field[|path|..])
    ensures NumberAt(v, field[|path|..]).Some? && Bytes(field) <= MAX_POINTER_BYTES
    decreases v
  {
    var st1 := st.(nodes := st.nodes + 1);
    if v.Object? && |v.fields| <= MAX_OBJECT_FIELDS {
      DiscoverMembersSound(path, v, SortedKeys(v.fields.Keys), st1, field);
    } else {
      assert field == path && field[|path|..] == "";
    }
  }

  lemma {:induction false} DiscoverMembersSound(path: string, v: Value, keys: seq<string>, st: Found, field: string)
    requires v.Object? && forall k :: k in keys ==> k in v.fields
    requires field in DiscoverMembers(path, v, keys, st).fields && field !in st.fields
    ensures path <= field && PathShape(field[|path|..]) && ValidEscapes(field[|path|..])
    ensures NumberAt(v, field[|path|..]).Some? && Bytes(field) <= MAX_POINTER_BYTES
    decreases v, |keys|
  {
    hide Discover, Lookup, Escape, ValidEscapes, SortedKeys, Bytes;
    var member := MemberPath(path, keys[0]);
    var next := Discover(member, v.fields[keys[0]], st);
    if field in next.fields {
      DiscoverSound(member, v.fields[keys[0]], st, field);
      var rest := field[|member|..];
      LookupMember(v.fields, keys[0], rest);
      assert field[|path|..] == "/" + Escape(keys[0]) + rest;
      EscapeShape(keys[0]);
      ValidEscapesJoin("/" + Escape(keys[0]), rest);
    } else {
      DiscoverMembersSound(path, v, keys[1..], next, field);
    }
  }

  lemma ValidEscapesJoin(a: string, b: string)
    requires ValidEscapes(a) && ValidEscapes(b)
    ensures ValidEscapes(a + b)
  {
    if a == "" {
      assert a + b == b;
    } else {
      var n := if a[0] == '~' then 2 else 1;
      assert (a + b)[n..] == a[n..] + b;
      ValidEscapesJoin(a[n..], b);
    }
  }

  // ---------------------------------------------------------------- within the caps nothing is skipped

  /** Every path in the tree is short enough, no object too wide, and there are no arrays. */
  ghost predicate Modest(path: string, v: Value)
    decreases v
  {
    && Bytes(path) <= MAX_POINTER_BYTES && !v.Array?
    && (v.Object? ==>
          && |v.fields| <= MAX_OBJECT_FIELDS
          && forall k :: k in v.fields ==> Modest(MemberPath(path, k), v.fields[k]))
  }

  /** Values in the tree, and how many of them are numbers. */
  ghost function Size(v: Value): nat
    decreases v, 1, 0
  {
    1 + if v.Object? then SizeOf(v, SortedKeys(v.fields.Keys)) else 0
  }

  ghost function SizeOf(v: Value, keys: seq<string>): nat
    requires v.Object? && forall k :: k in keys ==> k in v.fields
    decreases v, 0, |keys|
  {
    if keys == [] then 0 else Size(v.fields[keys[0]]) + SizeOf(v, keys[1..])
  }

  ghost function Numerals(v: Value): nat
    decreases v, 1, 0
  {
    match v
    case Number(_, _) => 1
    case Object(fields) => NumeralsOf(v, SortedKeys(fields.Keys))
    case _ => 0
  }

  ghost function NumeralsOf(v: Value, keys: seq<string>): nat
    requires v.Object? && forall k :: k in keys ==> k in v.fields
    decreases v, 0, |keys|
  {
    if keys == [] then 0 else Numerals(v.fields[keys[0]]) + NumeralsOf(v, keys[1..])
  }

  /** Discovery from `st` to `r` met this many values and numbers and skipped nothing. */
  ghost predicate Clean(st: Found, r: Found, values: nat, numerals: nat) {
    && r.exclusions == st.exclusions && r.truncated == st.truncated && r.nodes == st.nodes + values
    && |r.fields| <= |st.fields| + numerals
  }

  lemma {:induction false} ModestSkipsNothing(path: string, v: Value, st: Found)
    requires Modest(path, v)
    requires st.nodes + Size(v) <= MAX_DISCOVERY_NODES && |st.fields| + Numerals(v) <= MAX_SOURCE_FIELDS
    ensures Clean(st, Discover(path, v, st), Size(v), Numerals(v))
    decreases v, 1, 0
  {
    hide Bytes, SortedKeys;
    if v.Object? {
      ModestMembers(path, v, SortedKeys(v.fields.Keys), st.(nodes := st.nodes + 1));
    }
  }

  lemma {:induction false} ModestMembers(path: string, v: Value, keys: seq<string>, st: Found)
    requires v.Object? && Modest(path, v) && forall k :: k in keys ==> k in v.fields
    requires st.nodes + SizeOf(v, keys) <= MAX_DISCOVERY_NODES
    requires |st.fields| + NumeralsOf(v, keys) <= MAX_SOURCE_FIELDS
    ensures Clean(st, DiscoverMembers(path, v, keys, st), SizeOf(v, keys), NumeralsOf(v, keys))
    decreases v, 0, |keys|
  {
    hide Bytes, SortedKeys, Discover, Escape;
    if keys == [] {
    } else {
      ModestSkipsNothing(MemberPath(path, keys[0]), v.fields[keys[0]], st);
      ModestMembers(path, v, keys[1..], Discover(MemberPath(path, keys[0]), v.fields[keys[0]], st));
    }
  }

  /** A state within all caps is discovered completely: no exclusion, and every finite number is a field. */
  lemma ModestFullyDiscovered(state: Value, pointer: string)
    requires Modest("", state) && Size(state) <= MAX_DISCOVERY_NODES && Numerals(state) <= MAX_SOURCE_FIELDS
    ensures var r := Discover("", state, NOTHING);
            && r.exclusions == {} && !r.truncated && |r.fields| <= Numerals(state)
            && (PathShape(pointer) && ValidEscapes(pointer) && NumberAt(state, pointer).Some? ==> pointer in r.fields)
  {
    hide Discover, NumberAt, ValidEscapes, Size, Numerals, Modest;
    ModestSkipsNothing("", state, NOTHING);
    if PathShape(pointer) && ValidEscapes(pointer) && NumberAt(state, pointer).Some? {
      DiscoverComplete("", state, NOTHING, pointer);
      assert "" + pointer == pointer;
    }
  }

  // ---------------------------------------------------------------- the walk

  class Walker {
    var fields: set<string>
    var nodes: nat
    var truncated: bool
    var exclusions: set<string>

    ghost function State(): Found
      reads this
    {
      Found(fields, nodes, truncated, exclusions)
    }

    constructor ()
      ensures State() == NOTHING
    {
      fields, nodes, truncated, exclusions := {}, 0, false, {};
    }

    method Skip(path: string)
      modifies this
      ensures State() == old(State()).Skip(path)
    {
      truncated := true;
      exclusions := exclusions + {path};
    }

    /** The recursive walk with its shared counter, flag and growing sets. */
    method Visit(path: string, v: Value)
      modifies this
      ensures State() == Discover(path, v, old(State()))
      decreases v
    {
      hide DiscoverMembers, SortedKeys, Bytes, Parent, Escape;
      nodes := nodes + 1;
      if nodes > MAX_DISCOVERY_NODES || Bytes(path) > MAX_POINTER_BYTES {
        Skip(Parent(path));
        return;
      }
      match v
      case Object(members) =>
        if |members| <= MAX_OBJECT_FIELDS {
          var keys := WalkOrder(members.Keys);
          VisitMembers(path, v, keys);
        } else {
          Skip(path);
        }
      case Array(_) => exclusions := exclusions + {path};
      case Number(_, float) =>
        if |fields| >= MAX_SOURCE_FIELDS {
          Skip(path);
        } else if float.Some? {
          fields := fields + {path};
        }
      case _ =>
    }

    method VisitMembers(path: string, v: Value, keys: seq<string>)
      requires v.Object? && forall k :: k in keys ==> k in v.fields
      modifies this
      ensures State() == DiscoverMembers(path, v, keys, old(State()))
      decreases v, 0
    {
      ghost var start := State();
      assert keys[0..] == keys;
      for i := 0 to |keys|
        invariant DiscoverMembers(path, v, keys[i..], State()) == DiscoverMembers(path, v, keys, start)
      {
        assert keys[i..][0] == keys[i] && keys[i..][1..] == keys[i + 1..];
        if nodes >= MAX_DISCOVERY_NODES {
          Skip(path);
          return;
        }
        Visit(MemberPath(path, keys[i]), v.fields[keys[i]]);
      }
    }
  }
}
