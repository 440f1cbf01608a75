/**
 * The directory-to-tree builder `buildMap` (provider/dirmap.go:16-100): the
 * walk callback that filters each entry, decodes the accepted files and
 * inserts each one into the nested result map, and the walk that feeds it.
 */
module DirMap {
  import opened Wrappers
  import opened Values
  import opened Paths
  import opened Tree

  type Bytes = seq<bv8>

  /**
   * One call of the walk callback: the path handed to it, that path relative
   * to the base directory, the entry's base name, its depth below the base
   * directory (the base itself is at depth 0), whether it is a directory, the
   * error the walk passes along with it, and what reading the file yields.
   */
  datatype Entry = Entry(
    path: string,
    relPath: string,
    name: string,
    depth: nat,
    isDir: bool,
    walkError: Option<string>,
    content: Result<Bytes, string>)

  /** The library calls the builder makes: glob matching and the two decoders. */
  datatype Env = Env(
    globMatch: (string, string) -> Result<bool, string>,
    decodeYaml: Bytes -> Result<Value, string>,
    decodeJson: Bytes -> Result<Value, string>)

  /**
   * Every way the build can fail. `StructuralConflict` stands where the Go code
   * panics on its unchecked type assertion (dirmap.go:82).
   */
  datatype BuildError =
    | WalkFailed(msg: string)
    | BadPattern(msg: string)
    | ReadFailed(msg: string)
    | ParseFailed(path: string, cause: string)
    | KeyViolation(relPath: string)
    | StructuralConflict(relPath: string)

  predicate IsRecognized(ext: string) {
    ext == ".yaml" || ext == ".yml" || ext == ".json"
  }

  /** The decoder that the extension selects (dirmap.go:53-61). */
  function Decode(env: Env, ext: string, content: Bytes): Result<Value, string>
    requires IsRecognized(ext)
  {
    if ext == ".json" then env.decodeJson(content) else env.decodeYaml(content)
  }

  /** A hidden directory reached without an error: the callback answers SkipDir. */
  predicate Prunes(e: Entry) {
    e.walkError.None? && IsHidden(e.name) && e.isDir
  }

  /** The callback's decision about one entry before the result map is touched. */
  datatype Verdict =
    | Abort(err: BuildError)
    | SkipSubtree
    | Ignore
    | Accept(dirs: seq<string>, key: string, data: Value)

  /** dirmap.go:20-32: the walk error, hidden names and directories come first. */
  function Classify(e: Entry, filter: string, env: Env): Verdict {
    if e.walkError.Some? then Abort(WalkFailed(e.walkError.value))
    else if IsHidden(e.name) then (if e.isDir then SkipSubtree else Ignore)
    else if e.isDir then Ignore
    else ClassifyFile(e, filter, env)
  }

  /** dirmap.go:33-75 for a visible file: filter, read, extension, decode, path split. */
  function ClassifyFile(e: Entry, filter: string, env: Env): Verdict {
    if filter != "" && env.globMatch(filter, e.name).Failure? then
      Abort(BadPattern(env.globMatch(filter, e.name).error))
    else if filter != "" && !env.globMatch(filter, e.name).value then Ignore
    else if e.content.Failure? then Abort(ReadFailed(e.content.error))
    else if !IsRecognized(Ext(e.path)) then Ignore
    else
      match Decode(env, Ext(e.path), e.content.value)
      case Failure(cause) => Abort(ParseFailed(e.path, cause))
      case Success(data) => Accept(LeafDirs(e.relPath), LeafKey(e.relPath, Ext(e.path)), data)
  }

  /** dirmap.go:72, 75: every segment of the relative path but the last. */
  function LeafDirs(relPath: string): seq<string> {
    var parts := Split(relPath, Separator);
    parts[..|parts| - 1]
  }

  /** dirmap.go:72-74: the last segment of the relative path, less the extension. */
  function LeafKey(relPath: string, ext: string): string {
    var parts := Split(relPath, Separator);
    TrimSuffix(parts[|parts| - 1], ext)
  }

  /** The verdict for every entry, once the filter and the decoders are fixed. */
  function Classifier(filter: string, env: Env): Entry -> Verdict {
    e => Classify(e, filter, env)
  }

  /** What one callback does to the result map, and what it answers the walk. */
  datatype Step = Next(tree: Tree) | Prune | Fail(err: BuildError)

  /**
   * dirmap.go:77-92: carry out a verdict for the entry at `relPath`; a taken key
   * or a non-map on the way down fails with that path.
   */
  function Apply(t: Tree, v: Verdict, relPath: string): Step {
    match v
    case Abort(err) => Fail(err)
    case SkipSubtree => Prune
    case Ignore => Next(t)
    case Accept(dirs, key, data) =>
      match Insert(t, dirs, key, data)
      case Placed(t') => Next(t')
      case KeyTaken => Fail(KeyViolation(relPath))
      case Conflict(_) => Fail(StructuralConflict(relPath))
  }

  /** One call of the walk callback: it answers SkipDir exactly for the entries the walk prunes. */
  function Visit(t: Tree, e: Entry, filter: string, env: Env): (s: Step)
    ensures s.Prune? <==> Prunes(e)
  {
    Apply(t, Classify(e, filter, env), e.relPath)
  }

  /** How many of the entries after a directory lie inside it, in a pre-order walk. */
  function SubtreeLen(depth: nat, rest: seq<Entry>): (n: nat)
    ensures n <= |rest|
    ensures forall k | 0 <= k < n :: rest[k].depth > depth
    ensures n < |rest| ==> rest[n].depth <= depth
    decreases |rest|
  {
    if rest == [] || rest[0].depth <= depth then 0 else 1 + SubtreeLen(depth, rest[1..])
  }

  /**
   * The entries whose callback step can change the map. A directory answered
   * SkipDir is dropped: its own call contributes nothing, and its subtree is
   * never handed to the callback.
   */
  function Visited(es: seq<Entry>): seq<Entry>
    decreases |es|
  {
    if es == [] then []
    else if Prunes(es[0]) then Visited(es[1 + SubtreeLen(es[0].depth, es[1..])..])
    else [es[0]] + Visited(es[1..])
  }

  /**
   * The callback applied to the visited entries in order, each carrying out
   * the verdict `decide` gives it; the first error ends the walk.
   */
  function Fold(t: Tree, vs: seq<Entry>, decide: Entry -> Verdict): Result<Tree, BuildError>
    decreases |vs|
  {
    if vs == [] then Success(t)
    else
      match Apply(t, decide(vs[0]), vs[0].relPath)
      case Fail(err) => Failure(err)
      case Prune => Fold(t, vs[1..], decide)
      case Next(t') => Fold(t', vs[1..], decide)
  }

  /** One callback of the walk, seen from the fold over the visited entries. */
  lemma FoldVisitedStep(t: Tree, es: seq<Entry>, decide: Entry -> Verdict)
    requires es != []
    ensures Prunes(es[0]) ==> Visited(es) == Visited(es[1 + SubtreeLen(es[0].depth, es[1..])..])
    ensures !Prunes(es[0]) ==>
      match Apply(t, decide(es[0]), es[0].relPath)
      case Fail(err) => Fold(t, Visited(es), decide) == Failure(err)
      case Prune => Fold(t, Visited(es), decide) == Fold(t, Visited(es[1..]), decide)
      case Next(t') => Fold(t, Visited(es), decide) == Fold(t', Visited(es[1..]), decide)
  {
    if !Prunes(es[0]) {
      assert Visited(es) == [es[0]] + Visited(es[1..]);
      assert ([es[0]] + Visited(es[1..]))[1..] == Visited(es[1..]);
    }
  }

  /** The same step with the verdicts of `buildMap`'s own callback. */
  lemma VisitStep(t: Tree, es: seq<Entry>, filter: string, env: Env)
    requires es != []
    ensures Visit(t, es[0], filter, env).Prune? ==>
      Visited(es) == Visited(es[1 + SubtreeLen(es[0].depth, es[1..])..])
    ensures Visit(t, es[0], filter, env).Fail? ==>
      Fold(t, Visited(es), Classifier(filter, env)) == Failure(Visit(t, es[0], filter, env).err)
    ensures Visit(t, es[0], filter, env).Next? ==>
      Fold(t, Visited(es), Classifier(filter, env)) ==
        Fold(Visit(t, es[0], filter, env).tree, Visited(es[1..]), Classifier(filter, env))
  {
    FoldVisitedStep(t, es, Classifier(filter, env));
    assert Classifier(filter, env)(es[0]) == Classify(es[0], filter, env);
  }

  /** `buildMap(basePath, filter)` over the walk `walk` of the base directory. */
  function Build(filter: string, walk: seq<Entry>, env: Env): Result<Tree, BuildError> {
    Fold(map[], Visited(walk), Classifier(filter, env))
  }

  /** The answer the Go callback returns to `filepath.Walk`: nil, SkipDir or an error. */
  datatype Signal = Continue | SkipDir | Stop(err: BuildError)

  /** The result map that the walk callback fills in place. */
  class Builder {
    var result: Tree

    constructor ()
      ensures result == map[]
    {
      result := map[];
    }

    /**
     * dirmap.go:77-89: walk the cursor down the directory segments, creating
     * the missing maps, then add the document under its key.
     */
    method Place(dirs: seq<string>, key: string, data: Value) returns (p: Placement)
      modifies this
      ensures p == Insert(old(result), dirs, key, data)
      ensures result == if p.Placed? then p.tree else old(result)
    {
      var cur := result;
      var i := 0;
      while i < |dirs|
        invariant 0 <= i <= |dirs|
        invariant Descend(result, dirs[..i]) == At(cur)
        invariant result == old(result)
      {
        DescendSnoc(result, dirs[..i], dirs[i]);
        assert dirs[..i + 1] == dirs[..i] + [dirs[i]];
        var next := if dirs[i] in cur then cur[dirs[i]] else StrMap(map[]);
        match next {
          case StrMap(m) =>
            cur := m;
          case _ =>
            DescendBlockedStays(result, dirs[..i + 1], dirs[i + 1..]);
            assert dirs[..i + 1] + dirs[i + 1..] == dirs;
            return Conflict(i);
        }
        i := i + 1;
      }
      assert dirs[..i] == dirs;
      if key in cur {
        return KeyTaken;
      }
      result := Graft(result, dirs, cur[key := data]);
      return Placed(result);
    }

    /** The walk callback of dirmap.go:19-93 for one entry. */
    method Callback(e: Entry, filter: string, env: Env) returns (s: Signal)
      modifies this
      ensures Visit(old(result), e, filter, env) ==
        match s
        case Continue => Next(result)
        case SkipDir => Prune
        case Stop(err) => Fail(err)
      ensures !s.Continue? ==> result == old(result)
    {
      match Classify(e, filter, env)
      case Abort(err) =>
        s := Stop(err);
      case SkipSubtree =>
        s := SkipDir;
      case Ignore =>
        s := Continue;
      case Accept(dirs, key, data) =>
        var p := Place(dirs, key, data);
        match p
        case Placed(_) =>
          s := Continue;
        case KeyTaken =>
          s := Stop(KeyViolation(e.relPath));
        case Conflict(_) =>
          s := Stop(StructuralConflict(e.relPath));
    }
  }

  /**
   * `buildMap`: runs the callback over the walk, skipping the subtree of each
   * directory it answers SkipDir, and returns the whole map or the first error.
   */
  method BuildMap(filter: string, walk: seq<Entry>, env: Env) returns (r: Result<Tree, BuildError>)
    ensures r == Build(filter, walk, env)
  {
    var b := new Builder();
    var i := 0;
    assert walk[i..] == walk;
    ghost var decide := Classifier(filter, env);
    while i < |walk|
      invariant 0 <= i <= |walk|
      invariant Build(filter, walk, env) == Fold(b.result, Visited(walk[i..]), decide)
      decreases |walk| - i
    {
      var e := walk[i];
      VisitStep(b.result, walk[i..], filter, env);
      assert walk[i..][0] == e && walk[i..][1..] == walk[i + 1..];
      var s := b.Callback(e, filter, env);
      match s
      case Stop(err) =>
        return Failure(err);
      case SkipDir =>
        var n := SubtreeLen(e.depth, walk[i + 1..]);
        assert walk[i..][1 + n..] == walk[i + 1 + n..];
        i := i + 1 + n;
      case Continue =>
        i := i + 1;
    }
    assert walk[i..] == [];
    return Success(b.result);
  }
}
