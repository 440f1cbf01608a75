/**
 * The nested string-keyed map that the directory walk fills in
 * (provider/dirmap.go:17, 72-89): looking a path up in it, walking the
 * insertion cursor down its directory segments, and inserting one decoded
 * document under its leaf key.
 */
module Tree {
  import opened Wrappers
  import opened Values

  /** Go's `map[string]interface{}`: the root of the result and every directory below it. */
  type Tree = map<string, Value>

  /** The value reached from `v` by following the keys of `p` through string-keyed maps. */
  function LookupIn(v: Value, p: seq<string>): Option<Value>
    decreases |p|
  {
    if p == [] then Some(v)
    else
      match v
      case StrMap(m) => if p[0] in m then LookupIn(m[p[0]], p[1..]) else None
      case _ => None
  }

  function Lookup(t: Tree, p: seq<string>): Option<Value> {
    LookupIn(StrMap(t), p)
  }

  /** `p` leads to a string-keyed map, which the cursor can descend into. */
  predicate IsMapAt(t: Tree, p: seq<string>) {
    Lookup(t, p).Some? && Lookup(t, p).value.StrMap?
  }

  /** `p` leads to a value that is not a string-keyed map, which stops the cursor. */
  predicate BlocksAt(t: Tree, p: seq<string>) {
    Lookup(t, p).Some? && !Lookup(t, p).value.StrMap?
  }

  /** The keys of the map at `p`, or none when there is no map there. */
  function KeysAt(t: Tree, p: seq<string>): set<string> {
    if IsMapAt(t, p) then Lookup(t, p).value.entries.Keys else {}
  }

  predicate IsPrefix(a: seq<string>, b: seq<string>) {
    |a| <= |b| && b[..|a|] == a
  }

  /** What the cursor finds under `d`: the entry, or a new empty map when there is none (dirmap.go:79-81). */
  function Child(t: Tree, d: string): Value {
    if d in t then t[d] else StrMap(map[])
  }

  function ChildMap(t: Tree, d: string): Tree {
    match Child(t, d)
    case StrMap(m) => m
    case _ => map[]
  }

  /**
   * Where the cursor stands after the directory segments: at a map, or stopped
   * by the segment with the given index, whose entry is not a string-keyed map
   * (the failed type assertion of dirmap.go:82).
   */
  datatype Cursor = At(node: Tree) | Blocked(depth: nat)

  function Descend(t: Tree, dirs: seq<string>): Cursor
    decreases |dirs|
  {
    if dirs == [] then At(t)
    else
      match Child(t, dirs[0])
      case StrMap(m) =>
        (match Descend(m, dirs[1..])
         case At(n) => At(n)
         case Blocked(i) => Blocked(i + 1))
      case _ => Blocked(0)
  }

  /** `t` with the map at `dirs` replaced by `n`, every directory on the way a map. */
  function Graft(t: Tree, dirs: seq<string>, n: Tree): Tree
    decreases |dirs|
  {
    if dirs == [] then n
    else t[dirs[0] := StrMap(Graft(ChildMap(t, dirs[0]), dirs[1..], n))]
  }

  /** The outcome of one insertion: the new tree, a taken key, or a blocked directory segment. */
  datatype Placement = Placed(tree: Tree) | KeyTaken | Conflict(depth: nat)

  /** Inserts `data` under `key` in the map at the directory path `dirs` (dirmap.go:77-89). */
  function Insert(t: Tree, dirs: seq<string>, key: string, data: Value): Placement {
    match Descend(t, dirs)
    case Blocked(i) => Conflict(i)
    case At(n) => if key in n then KeyTaken else Placed(Graft(t, dirs, n[key := data]))
  }

  // ----- Lemmas -------------------------------------------------------------

  lemma LookupCons(t: Tree, k: string, r: seq<string>)
    ensures Lookup(t, [k] + r) == if k in t then LookupIn(t[k], r) else None
  {
    assert ([k] + r)[1..] == r;
  }

  /** Looking up `a + b` is looking up `a`, then `b` from there. */
  lemma {:induction false} LookupAppend(v: Value, a: seq<string>, b: seq<string>)
    ensures LookupIn(v, a + b) == match LookupIn(v, a) case Some(w) => LookupIn(w, b) case None => None
    decreases |a|
  {
    if a == [] {
      assert a + b == b;
    } else {
      assert (a + b)[0] == a[0] && (a + b)[1..] == a[1..] + b;
      match v
      case StrMap(m) =>
        if a[0] in m {
          LookupAppend(m[a[0]], a[1..], b);
        }
      case _ =>
    }
  }

  /** One more directory segment moves the cursor one step (the body of the loop at dirmap.go:78-83). */
  lemma {:induction false} DescendSnoc(t: Tree, q: seq<string>, d: string)
    ensures Descend(t, q + [d]) ==
      match Descend(t, q)
      case At(n) => (match Child(n, d) case StrMap(m) => At(m) case _ => Blocked(|q|))
      case Blocked(i) => Blocked(i)
    decreases |q|
  {
    if q == [] {
      assert [] + [d] == [d];
    } else {
      assert (q + [d])[0] == q[0] && (q + [d])[1..] == q[1..] + [d];
      match Child(t, q[0])
      case StrMap(m) => DescendSnoc(m, q[1..], d);
      case _ =>
    }
  }

  /** Nothing lies below a path that leads nowhere. */
  lemma LookupBelowMissing(t: Tree, a: seq<string>, p: seq<string>)
    ensures IsPrefix(a, p) && Lookup(t, a) == None ==> Lookup(t, p) == None
  {
    if IsPrefix(a, p) {
      LookupAppend(StrMap(t), a, p[|a|..]);
      assert a + p[|a|..] == p;
    }
  }

  /** Once blocked, the cursor stays blocked at the same segment whatever follows. */
  lemma {:induction false} DescendBlockedStays(t: Tree, q: seq<string>, r: seq<string>)
    requires Descend(t, q).Blocked?
    ensures Descend(t, q + r) == Descend(t, q)
    decreases |q|
  {
    assert q != [];
    assert (q + r)[0] == q[0] && (q + r)[1..] == q[1..] + r;
    match Child(t, q[0])
    case StrMap(m) => DescendBlockedStays(m, q[1..], r);
    case _ =>
  }

  lemma LookupEmpty(p: seq<string>)
    requires p != []
    ensures Lookup(map[], p) == None
  {
  }

  /**
   * The cursor is blocked exactly where the path meets a value that is not a
   * string-keyed map; otherwise it ends at the map already at `dirs`, or at a
   * new empty map when `dirs` is absent.
   */
  lemma {:induction false} DescendSound(t: Tree, dirs: seq<string>)
    ensures Descend(t, dirs).Blocked? ==>
      && Descend(t, dirs).depth < |dirs| && BlocksAt(t, dirs[..Descend(t, dirs).depth + 1])
      && (forall i | 0 < i <= Descend(t, dirs).depth :: !BlocksAt(t, dirs[..i]))
    ensures Descend(t, dirs).At? ==>
      && (forall i | 0 < i <= |dirs| :: !BlocksAt(t, dirs[..i]))
      && (Lookup(t, dirs) == Some(StrMap(Descend(t, dirs).node))
          || (Lookup(t, dirs) == None && Descend(t, dirs).node == map[]))
    decreases |dirs|
  {
    if dirs != [] {
      var d, ds := dirs[0], dirs[1..];
      assert dirs == [d] + ds;
      forall r ensures Lookup(t, [d] + r) == if d in t then LookupIn(t[d], r) else None {
        LookupCons(t, d, r);
      }
      match Child(t, d)
      case StrMap(m) =>
        DescendSound(m, ds);
        forall i | 0 < i <= |dirs| ensures dirs[..i] == [d] + ds[..i - 1] {
          assert dirs[..i] == [d] + dirs[1..][..i - 1];
        }
        if d !in t {
          assert m == map[];
          if ds != [] {
            LookupEmpty(ds);
            assert Descend(m, ds).node == map[];
          }
          forall i | 0 < i <= |dirs| ensures !BlocksAt(t, dirs[..i]) {
            assert Lookup(t, [d] + ds[..i - 1]) == None;
          }
        } else {
          assert t[d] == StrMap(m);
        }
      case _ =>
        assert dirs[..1] == [d] + [];
        LookupCons(t, d, []);
    }
  }

  /**
   * The three outcomes of an insertion: a conflict exactly when some directory
   * segment already holds a value that is not a string-keyed map, naming that
   * segment; otherwise a taken key exactly when the destination already holds
   * something; otherwise the insertion succeeds.
   */
  lemma InsertOutcome(t: Tree, dirs: seq<string>, key: string, data: Value)
    ensures Insert(t, dirs, key, data).Conflict? <==> exists i | 0 < i <= |dirs| :: BlocksAt(t, dirs[..i])
    ensures Insert(t, dirs, key, data).Conflict? ==>
      && Insert(t, dirs, key, data).depth < |dirs|
      && BlocksAt(t, dirs[..Insert(t, dirs, key, data).depth + 1])
      && (forall i | 0 < i <= Insert(t, dirs, key, data).depth :: !BlocksAt(t, dirs[..i]))
    ensures Insert(t, dirs, key, data).KeyTaken? <==>
      !Insert(t, dirs, key, data).Conflict? && Lookup(t, dirs + [key]).Some?
    ensures Insert(t, dirs, key, data).Placed? ==> Lookup(t, dirs + [key]) == None
  {
    DescendSound(t, dirs);
    LookupAppend(StrMap(t), dirs, [key]);
    match Descend(t, dirs)
    case Blocked(i) =>
      assert BlocksAt(t, dirs[..i + 1]);
    case At(n) =>
  }

  /** Prefixes of two paths that start with the same segment are prefixes of their tails. */
  lemma IsPrefixCons(d: string, a: seq<string>, b: seq<string>)
    ensures IsPrefix([d] + a, [d] + b) <==> IsPrefix(a, b)
    ensures IsPrefix([d] + a, [d] + b) ==> ([d] + b)[|[d] + a|..] == b[|a|..]
  {
    if |a| <= |b| {
      var x := b[..|a|];
      assert ([d] + b)[..|[d] + a|] == [d] + x;
      assert ([d] + b)[|[d] + a|..] == b[|a|..];
      assert ([d] + x)[1..] == x && ([d] + a)[1..] == a;
    }
  }

  /**
   * Grafting a map at an open path: below the path the new map is seen, each
   * map on the way gains exactly the next segment as a key, and every path off
   * the way is unchanged.
   */
  lemma {:induction false} GraftLookup(t: Tree, dirs: seq<string>, n: Tree, p: seq<string>)
    requires Descend(t, dirs).At?
    ensures IsPrefix(dirs, p) ==> Lookup(Graft(t, dirs, n), p) == Lookup(n, p[|dirs|..])
    ensures |p| < |dirs| && IsPrefix(p, dirs) ==>
      IsMapAt(Graft(t, dirs, n), p) && KeysAt(Graft(t, dirs, n), p) == KeysAt(t, p) + {dirs[|p|]}
    ensures !IsPrefix(p, dirs) && !IsPrefix(dirs, p) ==> Lookup(Graft(t, dirs, n), p) == Lookup(t, p)
    decreases |dirs|
  {
    if dirs != [] {
      if p == [] {
        assert Lookup(Graft(t, dirs, n), p) == Some(StrMap(Graft(t, dirs, n)));
      } else if p[0] == dirs[0] {
        GraftLookupBelow(t, dirs, n, p);
      } else {
        var r := p[1..];
        assert p == [p[0]] + r;
        LookupCons(Graft(t, dirs, n), p[0], r);
        LookupCons(t, p[0], r);
      }
    }
  }

  /** The case of `GraftLookup` where the path enters the first grafted directory. */
  lemma {:induction false} GraftLookupBelow(t: Tree, dirs: seq<string>, n: Tree, p: seq<string>)
    requires Descend(t, dirs).At?
    requires dirs != [] && p != [] && p[0] == dirs[0]
    ensures IsPrefix(dirs, p) ==> Lookup(Graft(t, dirs, n), p) == Lookup(n, p[|dirs|..])
    ensures |p| < |dirs| && IsPrefix(p, dirs) ==>
      IsMapAt(Graft(t, dirs, n), p) && KeysAt(Graft(t, dirs, n), p) == KeysAt(t, p) + {dirs[|p|]}
    ensures !IsPrefix(p, dirs) && !IsPrefix(dirs, p) ==> Lookup(Graft(t, dirs, n), p) == Lookup(t, p)
    decreases |dirs|, 0
  {
    var d, ds, r := dirs[0], dirs[1..], p[1..];
    var m := ChildMap(t, d);
    var g := Graft(t, dirs, n);
    var gm := Graft(m, ds, n);
    assert dirs == [d] + ds && p == [d] + r;
    assert g == t[d := StrMap(gm)];
    assert Child(t, d) == StrMap(m);
    assert Descend(m, ds).At?;
    GraftLookup(m, ds, n, r);
    LookupCons(g, d, r);
    LookupCons(t, d, r);
    assert Lookup(g, p) == Lookup(gm, r);
    if d !in t && r != [] {
      LookupEmpty(r);
    }
    assert Lookup(t, p) == Lookup(m, r) || (d !in t && r == []);
    IsPrefixCons(d, ds, r);
    IsPrefixCons(d, r, ds);
  }

  /**
   * After a successful insertion the destination `dirs + [key]` holds the
   * document (and whatever lies inside it), every map on the way to it gains
   * exactly the next segment as a key, and every other path reads as before.
   */
  lemma {:induction false} InsertLookup(t: Tree, dirs: seq<string>, key: string, data: Value, p: seq<string>)
    requires Insert(t, dirs, key, data).Placed?
    ensures IsPrefix(dirs + [key], p) ==>
      Lookup(Insert(t, dirs, key, data).tree, p) == LookupIn(data, p[|dirs| + 1..])
    ensures |p| <= |dirs| && IsPrefix(p, dirs + [key]) ==>
      && IsMapAt(Insert(t, dirs, key, data).tree, p)
      && KeysAt(Insert(t, dirs, key, data).tree, p) == KeysAt(t, p) + {(dirs + [key])[|p|]}
    ensures !IsPrefix(p, dirs + [key]) && !IsPrefix(dirs + [key], p) ==>
      Lookup(Insert(t, dirs, key, data).tree, p) == Lookup(t, p)
  {
    var path := dirs + [key];
    var n' := Descend(t, dirs).node[key := data];
    assert Insert(t, dirs, key, data).tree == Graft(t, dirs, n');
    DescendSound(t, dirs);
    GraftLookup(t, dirs, n', p);
    if IsPrefix(dirs, p) {
      InsertLookupBelow(t, dirs, key, data, p);
    } else {
      assert !IsPrefix(path, p);
      if IsPrefix(p, path) {
        assert |p| <= |dirs| && IsPrefix(p, dirs);
        assert |p| < |dirs|;
        assert path[|p|] == dirs[|p|];
      }
    }
  }

  /** The case of `InsertLookup` where the path passes through the directory of the insertion. */
  lemma InsertLookupBelow(t: Tree, dirs: seq<string>, key: string, data: Value, p: seq<string>)
    requires Insert(t, dirs, key, data).Placed?
    requires IsPrefix(dirs, p)
    ensures IsPrefix(dirs + [key], p) ==>
      Lookup(Insert(t, dirs, key, data).tree, p) == LookupIn(data, p[|dirs| + 1..])
    ensures |p| <= |dirs| ==>
      && IsMapAt(Insert(t, dirs, key, data).tree, p)
      && KeysAt(Insert(t, dirs, key, data).tree, p) == KeysAt(t, p) + {key}
    ensures !IsPrefix(p, dirs + [key]) && !IsPrefix(dirs + [key], p) ==>
      Lookup(Insert(t, dirs, key, data).tree, p) == Lookup(t, p)
  {
    var path := dirs + [key];
    var n := Descend(t, dirs).node;
    var n' := n[key := data];
    var t' := Graft(t, dirs, n');
    assert Insert(t, dirs, key, data).tree == t';
    DescendSound(t, dirs);
    GraftLookup(t, dirs, n', p);
    var r := p[|dirs|..];
    assert p == dirs + r;
    LookupAppend(StrMap(t), dirs, r);
    if r == [] {
      assert Lookup(t', p) == Some(StrMap(n'));
      assert KeysAt(t, p) == n.Keys;
    } else {
      assert r == [r[0]] + r[1..];
      LookupCons(n', r[0], r[1..]);
      LookupCons(n, r[0], r[1..]);
      if r[0] == key {
        assert IsPrefix(path, p);
        assert p[|dirs| + 1..] == r[1..];
      } else {
        assert !IsPrefix(path, p) && !IsPrefix(p, path);
      }
    }
  }

  /**
   * A successful insertion overwrites nothing: every path that led somewhere
   * still does, and every value that is not a string-keyed map is still there.
   */
  lemma InsertPreserves(t: Tree, dirs: seq<string>, key: string, data: Value, p: seq<string>)
    requires Insert(t, dirs, key, data).Placed?
    requires Lookup(t, p).Some?
    ensures Lookup(Insert(t, dirs, key, data).tree, p).Some?
    ensures !Lookup(t, p).value.StrMap? ==> Lookup(Insert(t, dirs, key, data).tree, p) == Lookup(t, p)
  {
    var path := dirs + [key];
    InsertOutcome(t, dirs, key, data);
    InsertLookup(t, dirs, key, data, p);
    LookupBelowMissing(t, path, p);
    if IsPrefix(p, path) && p != [] && !IsPrefix(path, p) {
      assert |p| <= |dirs| && dirs[..|p|] == p;
      assert !BlocksAt(t, dirs[..|p|]);
    }
  }
}
