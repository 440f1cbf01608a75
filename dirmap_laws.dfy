/**
 * What `buildMap` promises about whole walks: which entries are accepted and
 * under which key, that hidden directories contribute nothing, that the first
 * error ends the build, that no two files can land on one destination, and
 * that every accepted document is found in the finished map.
 */
module DirMapLaws {
  import opened Wrappers
  import opened Values
  import opened Paths
  import opened Tree
  import opened DirMap

  /** The path in the result map where an accepted file's document goes. */
  function Destination(v: Verdict): seq<string>
    requires v.Accept?
  {
    v.dirs + [v.key]
  }

  /**
   * A file is accepted exactly when the walk reports no error for it, its name
   * is not hidden, the filter (if any) matches its name, it can be read, its
   * extension is .yaml, .yml or .json and the matching decoder accepts it
   * (dirmap.go:20-65).
   */
  lemma ClassifyAccepts(e: Entry, filter: string, env: Env)
    ensures Classify(e, filter, env).Accept? <==>
      && e.walkError.None?
      && !IsHidden(e.name)
      && !e.isDir
      && (filter == "" || env.globMatch(filter, e.name) == Success(true))
      && e.content.Success?
      && IsRecognized(Ext(e.path))
      && Decode(env, Ext(e.path), e.content.value).Success?
  {
  }

  /**
   * An entry is passed over without error exactly when it is a hidden file,
   * a visible directory, a file the filter rejects, or a readable file with
   * some other extension (dirmap.go:25-42, 53-61).
   */
  lemma ClassifyIgnores(e: Entry, filter: string, env: Env)
    ensures Classify(e, filter, env).Ignore? <==>
      && e.walkError.None?
      && (|| (IsHidden(e.name) && !e.isDir)
          || (!IsHidden(e.name) && e.isDir)
          || (&& !IsHidden(e.name) && !e.isDir
              && (|| (filter != "" && env.globMatch(filter, e.name) == Success(false))
                  || ((filter == "" || env.globMatch(filter, e.name) == Success(true))
                      && e.content.Success? && !IsRecognized(Ext(e.path))))))
  {
  }

  /**
   * The errors that end the build before the result map is touched: a walk
   * error, a malformed filter pattern, an unreadable file, and a document its
   * decoder refuses, reported with the file's path (dirmap.go:20-21, 35-38, 45-48, 63-65).
   */
  lemma ClassifyAborts(e: Entry, filter: string, env: Env)
    ensures e.walkError.Some? ==> Classify(e, filter, env) == Abort(WalkFailed(e.walkError.value))
    ensures e.walkError.None? && !IsHidden(e.name) && !e.isDir && filter != ""
            && env.globMatch(filter, e.name).Failure? ==>
      Classify(e, filter, env) == Abort(BadPattern(env.globMatch(filter, e.name).error))
    ensures && e.walkError.None? && !IsHidden(e.name) && !e.isDir
            && (filter == "" || env.globMatch(filter, e.name) == Success(true))
            && e.content.Failure? ==>
      Classify(e, filter, env) == Abort(ReadFailed(e.content.error))
    ensures && e.walkError.None? && !IsHidden(e.name) && !e.isDir
            && (filter == "" || env.globMatch(filter, e.name) == Success(true))
            && e.content.Success? && IsRecognized(Ext(e.path))
            && Decode(env, Ext(e.path), e.content.value).Failure? ==>
      Classify(e, filter, env) == Abort(ParseFailed(e.path, Decode(env, Ext(e.path), e.content.value).error))
    ensures Classify(e, filter, env).Abort? && Classify(e, filter, env).err.ParseFailed? ==>
      && Classify(e, filter, env).err.path == e.path
      && e.content.Success? && IsRecognized(Ext(e.path))
      && Decode(env, Ext(e.path), e.content.value) == Failure(Classify(e, filter, env).err.cause)
  {
  }

  /** An accepted file goes where its relative path says, holding what its decoder produced. */
  lemma AcceptedLocation(e: Entry, filter: string, env: Env)
    requires Classify(e, filter, env).Accept?
    ensures IsRecognized(Ext(e.path)) && e.content.Success?
    ensures Classify(e, filter, env) ==
      Accept(LeafDirs(e.relPath), LeafKey(e.relPath, Ext(e.path)), Decode(env, Ext(e.path), e.content.value).value)
    ensures Decode(env, Ext(e.path), e.content.value).Success?
  {
    assert Classify(e, filter, env) == ClassifyFile(e, filter, env);
  }

  /**
   * The key is the last segment of the relative path less exactly its
   * extension, and the directory segments are the segments before it, in
   * order: joining them and the file name with '/' gives the relative path
   * back (dirmap.go:72-75).
   */
  lemma LeafSplit(relPath: string, ext: string)
    ensures var parts := Split(relPath, Separator);
      && parts == LeafDirs(relPath) + [parts[|parts| - 1]]
      && (HasSuffix(parts[|parts| - 1], ext) ==>
            && LeafKey(relPath, ext) + ext == parts[|parts| - 1]
            && Join(LeafDirs(relPath) + [LeafKey(relPath, ext) + ext], Separator) == relPath)
      && (!HasSuffix(parts[|parts| - 1], ext) ==> LeafKey(relPath, ext) == parts[|parts| - 1])
  {
    var parts := Split(relPath, Separator);
    assert parts == parts[..|parts| - 1] + [parts[|parts| - 1]];
  }

  /** The subtree of a directory is the run of deeper entries right after it. */
  lemma {:induction false} SubtreeLenExact(depth: nat, sub: seq<Entry>, rest: seq<Entry>)
    requires forall k | 0 <= k < |sub| :: sub[k].depth > depth
    requires rest == [] || rest[0].depth <= depth
    ensures SubtreeLen(depth, sub + rest) == |sub|
    decreases |sub|
  {
    if sub == [] {
      assert sub + rest == rest;
    } else {
      assert (sub + rest)[0] == sub[0] && (sub + rest)[1..] == sub[1..] + rest;
      SubtreeLenExact(depth, sub[1..], rest);
    }
  }

  /**
   * A hidden directory, reached without error, contributes nothing: its own
   * call only answers SkipDir, and its subtree is never handed to the callback
   * (dirmap.go:25-28).
   */
  lemma HiddenSubtreeSkipped(e: Entry, sub: seq<Entry>, rest: seq<Entry>)
    requires Prunes(e)
    requires forall k | 0 <= k < |sub| :: sub[k].depth > e.depth
    requires rest == [] || rest[0].depth <= e.depth
    ensures Visited([e] + sub + rest) == Visited(rest)
  {
    var es := [e] + sub + rest;
    assert es[1..] == sub + rest;
    SubtreeLenExact(e.depth, sub, rest);
    assert es[1 + |sub|..] == rest;
  }

  /**
   * A hidden base directory (such as "." itself, whose base name is ".")
   * prunes the whole walk: the build succeeds with an empty map (dirmap.go:25-28, 99).
   */
  lemma HiddenBaseGivesEmptyMap(filter: string, walk: seq<Entry>, env: Env)
    requires walk != [] && Prunes(walk[0])
    requires forall k | 1 <= k < |walk| :: walk[k].depth > walk[0].depth
    ensures Build(filter, walk, env) == Success(map[])
  {
    var sub := walk[1..];
    assert forall k | 0 <= k < |sub| :: sub[k] == walk[k + 1];
    HiddenSubtreeSkipped(walk[0], sub, []);
    assert [walk[0]] + sub + [] == walk;
  }

  /** The build runs the entries in order and stops at the first error: no partial map survives it. */
  lemma {:induction false} FoldAppend(t: Tree, a: seq<Entry>, b: seq<Entry>, decide: Entry -> Verdict)
    ensures Fold(t, a + b, decide) ==
      match Fold(t, a, decide)
      case Success(t1) => Fold(t1, b, decide)
      case Failure(err) => Failure(err)
    decreases |a|
  {
    if a == [] {
      assert a + b == b;
    } else {
      assert (a + b)[0] == a[0] && (a + b)[1..] == a[1..] + b;
      match Apply(t, decide(a[0]), a[0].relPath)
      case Fail(err) =>
      case Prune => FoldAppend(t, a[1..], b, decide);
      case Next(t1) => FoldAppend(t1, a[1..], b, decide);
    }
  }

  /** An entry whose callback fails ends the build with exactly that error (dirmap.go:95-97). */
  lemma FailingEntryEndsBuild(t: Tree, vs: seq<Entry>, i: nat, decide: Entry -> Verdict)
    requires i < |vs|
    requires Fold(t, vs[..i], decide).Success?
    requires Apply(Fold(t, vs[..i], decide).value, decide(vs[i]), vs[i].relPath).Fail?
    ensures Fold(t, vs, decide) ==
      Failure(Apply(Fold(t, vs[..i], decide).value, decide(vs[i]), vs[i].relPath).err)
  {
    FoldAppend(t, vs[..i], vs[i..], decide);
    assert vs[..i] + vs[i..] == vs;
    assert vs[i..][0] == vs[i];
  }

  /** One callback keeps every path of the map, and every value there that is not a string-keyed map. */
  lemma ApplyKeeps(t: Tree, v: Verdict, relPath: string, p: seq<string>)
    requires Apply(t, v, relPath).Next?
    requires Lookup(t, p).Some?
    ensures Lookup(Apply(t, v, relPath).tree, p).Some?
    ensures !Lookup(t, p).value.StrMap? ==> Lookup(Apply(t, v, relPath).tree, p) == Lookup(t, p)
  {
    if v.Accept? {
      InsertPreserves(t, v.dirs, v.key, v.data, p);
    }
  }

  /** A whole successful run keeps every path of the map it started from. */
  lemma {:induction false} FoldKeeps(t: Tree, vs: seq<Entry>, decide: Entry -> Verdict, p: seq<string>)
    requires Fold(t, vs, decide).Success?
    requires Lookup(t, p).Some?
    ensures Lookup(Fold(t, vs, decide).value, p).Some?
    ensures !Lookup(t, p).value.StrMap? ==> Lookup(Fold(t, vs, decide).value, p) == Lookup(t, p)
    decreases |vs|
  {
    if vs != [] {
      var s := Apply(t, decide(vs[0]), vs[0].relPath);
      if s.Prune? {
        FoldKeeps(t, vs[1..], decide, p);
      } else if s.Next? {
        ApplyKeeps(t, decide(vs[0]), vs[0].relPath, p);
        FoldKeeps(s.tree, vs[1..], decide, p);
      }
    }
  }

  /** A file whose destination is already taken cannot be inserted: the run fails (dirmap.go:85-87). */
  lemma {:induction false} TakenDestinationFails(t: Tree, vs: seq<Entry>, decide: Entry -> Verdict, j: nat)
    requires j < |vs|
    requires decide(vs[j]).Accept?
    requires Lookup(t, Destination(decide(vs[j]))).Some?
    ensures Fold(t, vs, decide).Failure?
    decreases j
  {
    var v := decide(vs[j]);
    if j == 0 {
      InsertOutcome(t, v.dirs, v.key, v.data);
    } else {
      assert vs[1..][j - 1] == vs[j];
      var s := Apply(t, decide(vs[0]), vs[0].relPath);
      if s.Prune? {
        TakenDestinationFails(t, vs[1..], decide, j - 1);
      } else if s.Next? {
        ApplyKeeps(t, decide(vs[0]), vs[0].relPath, Destination(v));
        TakenDestinationFails(s.tree, vs[1..], decide, j - 1);
      }
    }
  }

  /** Once a file is inserted, its destination is taken. */
  lemma FirstDestinationTaken(t: Tree, v: Verdict, relPath: string)
    requires v.Accept?
    ensures Apply(t, v, relPath).Next? ==> Lookup(Apply(t, v, relPath).tree, Destination(v)).Some?
  {
    if Insert(t, v.dirs, v.key, v.data).Placed? {
      InsertLookup(t, v.dirs, v.key, v.data, Destination(v));
      assert Destination(v)[|v.dirs| + 1..] == [];
    }
  }

  /** The earlier file of the pair is the first one visited: the later one finds its place taken. */
  lemma FirstOfPairFails(t: Tree, vs: seq<Entry>, decide: Entry -> Verdict, j: nat)
    requires 0 < j < |vs|
    requires decide(vs[0]).Accept? && decide(vs[j]).Accept?
    requires Destination(decide(vs[0])) == Destination(decide(vs[j]))
    ensures Fold(t, vs, decide).Failure?
  {
    assert vs[1..][j - 1] == vs[j];
    FirstDestinationTaken(t, decide(vs[0]), vs[0].relPath);
    var s := Apply(t, decide(vs[0]), vs[0].relPath);
    if s.Next? {
      TakenDestinationFails(s.tree, vs[1..], decide, j - 1);
    }
  }

  /**
   * No two files end up at one destination: when two visited files resolve to
   * the same directory segments and key, the run fails, whichever comes first.
   */
  lemma {:induction false} SameDestinationFails(t: Tree, vs: seq<Entry>, decide: Entry -> Verdict, i: nat, j: nat)
    requires i < j < |vs|
    requires decide(vs[i]).Accept? && decide(vs[j]).Accept?
    requires Destination(decide(vs[i])) == Destination(decide(vs[j]))
    ensures Fold(t, vs, decide).Failure?
    decreases i
  {
    if i == 0 {
      FirstOfPairFails(t, vs, decide, j);
    } else {
      assert vs[1..][i - 1] == vs[i] && vs[1..][j - 1] == vs[j];
      var s := Apply(t, decide(vs[0]), vs[0].relPath);
      if s.Prune? {
        SameDestinationFails(t, vs[1..], decide, i - 1, j - 1);
      } else if s.Next? {
        SameDestinationFails(s.tree, vs[1..], decide, i - 1, j - 1);
      }
    }
  }

  /**
   * After a successful run, every accepted file's destination is present,
   * holding exactly its document unless that document is a string-keyed map
   * that later files were inserted into.
   */
  lemma {:induction false} AcceptedInTree(t: Tree, vs: seq<Entry>, decide: Entry -> Verdict, i: nat)
    requires i < |vs|
    requires Fold(t, vs, decide).Success?
    requires decide(vs[i]).Accept?
    ensures Lookup(Fold(t, vs, decide).value, Destination(decide(vs[i]))).Some?
    ensures !decide(vs[i]).data.StrMap? ==>
      Lookup(Fold(t, vs, decide).value, Destination(decide(vs[i]))) == Some(decide(vs[i]).data)
    decreases i
  {
    var v := decide(vs[i]);
    if i == 0 {
      var t1 := Insert(t, v.dirs, v.key, v.data).tree;
      InsertLookup(t, v.dirs, v.key, v.data, Destination(v));
      assert Destination(v)[|v.dirs| + 1..] == [];
      FoldKeeps(t1, vs[1..], decide, Destination(v));
    } else {
      assert vs[1..][i - 1] == vs[i];
      var s := Apply(t, decide(vs[0]), vs[0].relPath);
      if s.Prune? {
        AcceptedInTree(t, vs[1..], decide, i - 1);
      } else {
        AcceptedInTree(s.tree, vs[1..], decide, i - 1);
      }
    }
  }

  /** `p` lies on the way to the destination of an accepted verdict, or inside its document. */
  predicate OnTheWay(p: seq<string>, v: Verdict) {
    v.Accept? && (IsPrefix(p, Destination(v)) || IsPrefix(Destination(v), p))
  }

  /** Some entry of `vs` is accepted with a destination that `p` leads to or lies below. */
  predicate LeadsToAccepted(p: seq<string>, vs: seq<Entry>, decide: Entry -> Verdict) {
    exists i | 0 <= i < |vs| :: OnTheWay(p, decide(vs[i]))
  }

  /**
   * A successful run adds nothing but the files it accepts: every path present
   * afterwards was present before, or leads to an accepted file's destination,
   * or lies inside its document.
   */
  lemma {:induction false} FoldOnlyAccepted(t: Tree, vs: seq<Entry>, decide: Entry -> Verdict, p: seq<string>)
    requires Fold(t, vs, decide).Success?
    requires Lookup(Fold(t, vs, decide).value, p).Some?
    ensures Lookup(t, p).Some? || LeadsToAccepted(p, vs, decide)
    decreases |vs|
  {
    if vs != [] {
      var v := decide(vs[0]);
      var s := Apply(t, v, vs[0].relPath);
      var t1 := if s.Next? then s.tree else t;
      FoldOnlyAccepted(t1, vs[1..], decide, p);
      if LeadsToAccepted(p, vs[1..], decide) {
        var i :| 0 <= i < |vs[1..]| && OnTheWay(p, decide(vs[1..][i]));
        assert vs[1..][i] == vs[i + 1];
      } else if OnTheWay(p, v) {
        assert OnTheWay(p, decide(vs[0]));
      } else if v.Accept? && s.Next? {
        InsertLookup(t, v.dirs, v.key, v.data, p);
      }
    }
  }

  /**
   * The map `buildMap` returns holds nothing but the accepted files: every path
   * in it other than the root leads to the destination of a visited file the
   * callback accepts, or lies inside that file's document (dirmap.go:72-89).
   */
  lemma BuildOnlyAccepted(filter: string, walk: seq<Entry>, env: Env, p: seq<string>)
    requires Build(filter, walk, env).Success?
    requires Lookup(Build(filter, walk, env).value, p).Some?
    ensures p == [] || LeadsToAccepted(p, Visited(walk), Classifier(filter, env))
  {
    FoldOnlyAccepted(map[], Visited(walk), Classifier(filter, env), p);
    if p != [] {
      LookupEmpty(p);
    }
  }

  /**
   * `buildMap` never lets two files share a destination: if two of the files
   * the walk hands the callback resolve to the same directory segments and
   * key, the build fails (dirmap.go:85-89).
   */
  lemma BuildRejectsSharedDestination(filter: string, walk: seq<Entry>, env: Env, i: nat, j: nat)
    requires i < j < |Visited(walk)|
    requires Classify(Visited(walk)[i], filter, env).Accept?
    requires Classify(Visited(walk)[j], filter, env).Accept?
    requires Destination(Classify(Visited(walk)[i], filter, env)) == Destination(Classify(Visited(walk)[j], filter, env))
    ensures Build(filter, walk, env).Failure?
  {
    var decide := Classifier(filter, env);
    assert decide(Visited(walk)[i]) == Classify(Visited(walk)[i], filter, env);
    assert decide(Visited(walk)[j]) == Classify(Visited(walk)[j], filter, env);
    SameDestinationFails(map[], Visited(walk), decide, i, j);
  }

  /**
   * Every file `buildMap` accepts is in the map it returns, at the directory
   * segments and key its relative path gives, holding its document unless
   * that is a string-keyed map later files were added into (dirmap.go:77-89).
   */
  lemma BuildContainsAccepted(filter: string, walk: seq<Entry>, env: Env, i: nat)
    requires i < |Visited(walk)|
    requires Build(filter, walk, env).Success?
    requires Classify(Visited(walk)[i], filter, env).Accept?
    ensures Lookup(Build(filter, walk, env).value, Destination(Classify(Visited(walk)[i], filter, env))).Some?
    ensures !Classify(Visited(walk)[i], filter, env).data.StrMap? ==>
      Lookup(Build(filter, walk, env).value, Destination(Classify(Visited(walk)[i], filter, env)))
        == Some(Classify(Visited(walk)[i], filter, env).data)
  {
    var decide := Classifier(filter, env);
    assert decide(Visited(walk)[i]) == Classify(Visited(walk)[i], filter, env);
    AcceptedInTree(map[], Visited(walk), decide, i);
  }
}
