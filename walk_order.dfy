/**
 * A concrete walk showing that the outcome of `buildMap` depends on the order
 * in which the entries are visited.
 */
module WalkOrder {
  import opened Wrappers
  import opened Values
  import opened Paths
  import opened Tree
  import opened DirMap

  /** A JSON decoder that reads [0] as the empty object and anything else as null. */
  const ExampleEnv: Env := Env(
    (pattern: string, name: string) => Success(true),
    (b: Bytes) => Failure("not used"),
    (b: Bytes) => if b == [0] then Success(StrMap(map[])) else Success(Null))

  /** The file `a.json`, holding the empty object. */
  const FileA: Entry := Entry("root/a.json", "a.json", "a.json", 1, false, None, Success([0]))

  /** The directory `a`. */
  const DirA: Entry := Entry("root/a", "a", "a", 1, true, None, Success([]))

  /** The file `a/b.json`, holding null. */
  const FileAB: Entry := Entry("root/a/b.json", "a/b.json", "b.json", 2, false, None, Success([1]))

  lemma ExtJson(prefix: string)
    ensures Ext(prefix + ".json") == ".json"
  {
    var s := prefix + ".json";
    assert s[..|s| - 1] == prefix + ".jso";
    assert (prefix + ".jso")[..|s| - 2] == prefix + ".js";
    assert (prefix + ".js")[..|s| - 3] == prefix + ".j";
    assert (prefix + ".j")[..|s| - 4] == prefix + ".";
    assert Ext(prefix + ".") == ".";
    assert Ext(prefix + ".j") == ".j";
    assert Ext(prefix + ".js") == ".js";
    assert Ext(prefix + ".jso") == ".jso";
  }

  lemma Visible(name: string)
    requires name != [] && name[0] != '.'
    ensures !IsHidden(name)
  {
  }

  /** The key of a `.json` file directly under the base directory. */
  lemma TopLevelJson(stem: string)
    requires Separator !in stem
    ensures LeafDirs(stem + ".json") == [] && LeafKey(stem + ".json", ".json") == stem
  {
    var file := stem + ".json";
    SplitLast(file, Separator);
    assert file[|file| - 5..] == ".json";
  }

  /** The key of a `.json` file one directory below the base directory. */
  lemma NestedJson(dir: string, stem: string)
    requires Separator !in dir && Separator !in stem
    ensures LeafDirs(dir + "/" + stem + ".json") == [dir]
    ensures LeafKey(dir + "/" + stem + ".json", ".json") == stem
  {
    var file := stem + ".json";
    SplitLast(file, Separator);
    SplitAfterPiece(dir, file, Separator);
    assert dir + [Separator] + file == dir + "/" + stem + ".json";
    assert file[|file| - 5..] == ".json";
  }

  lemma LeafA()
    ensures Ext("root/a.json") == ".json"
    ensures LeafDirs("a.json") == [] && LeafKey("a.json", ".json") == "a"
  {
    ExtJson("root/a");
    assert "root/a" + ".json" == "root/a.json";
    TopLevelJson("a");
    assert "a" + ".json" == "a.json";
  }

  lemma LeafAB()
    ensures Ext("root/a/b.json") == ".json"
    ensures LeafDirs("a/b.json") == ["a"] && LeafKey("a/b.json", ".json") == "b"
  {
    ExtJson("root/a/b");
    assert "root/a/b" + ".json" == "root/a/b.json";
    NestedJson("a", "b");
    assert "a" + "/" + "b" + ".json" == "a/b.json";
  }

  /** A visible, readable `.json` file, with no filter, is accepted with what the JSON decoder gives. */
  lemma JsonAccepted(e: Entry, env: Env)
    requires e.walkError.None? && !IsHidden(e.name) && !e.isDir && e.content.Success?
    requires Ext(e.path) == ".json" && env.decodeJson(e.content.value).Success?
    ensures Classify(e, "", env) ==
      Accept(LeafDirs(e.relPath), LeafKey(e.relPath, ".json"), env.decodeJson(e.content.value).value)
  {
    assert Classify(e, "", env) == ClassifyFile(e, "", env);
  }

  lemma VerdictFileA()
    ensures Classify(FileA, "", ExampleEnv) == Accept([], "a", StrMap(map[]))
  {
    LeafA();
    Visible(FileA.name);
    assert ExampleEnv.decodeJson([0]) == Success(StrMap(map[]));
    JsonAccepted(FileA, ExampleEnv);
  }

  lemma VerdictFileAB()
    ensures Classify(FileAB, "", ExampleEnv) == Accept(["a"], "b", Null)
  {
    LeafAB();
    Visible(FileAB.name);
    assert ExampleEnv.decodeJson([1]) == Success(Null);
    JsonAccepted(FileAB, ExampleEnv);
  }

  lemma VerdictDirA()
    ensures Classify(DirA, "", ExampleEnv) == Ignore
    ensures !Prunes(FileA) && !Prunes(FileAB) && !Prunes(DirA)
  {
    Visible(FileA.name);
    Visible(FileAB.name);
    Visible(DirA.name);
  }

  /** The map after `a.json`, and after `a.json` and `a/b.json` in either order. */
  const AfterA: Tree := map["a" := StrMap(map[])]
  const AfterBoth: Tree := map["a" := StrMap(map["b" := Null])]

  lemma InsertIntoA()
    ensures Insert(AfterA, ["a"], "b", Null) == Placed(AfterBoth)
  {
    assert Child(AfterA, "a") == StrMap(map[]);
    assert Descend(map[], []) == At(map[]);
    assert ["a"][1..] == [];
    assert Descend(AfterA, ["a"]) == At(map[]);
    assert Graft(map[], [], map["b" := Null]) == map["b" := Null];
    assert Graft(AfterA, ["a"], map["b" := Null]) == AfterA["a" := StrMap(map["b" := Null])];
  }

  lemma StepsFileFirst()
    ensures Visit(map[], FileA, "", ExampleEnv) == Next(AfterA)
    ensures Visit(AfterA, DirA, "", ExampleEnv) == Next(AfterA)
    ensures Visit(AfterA, FileAB, "", ExampleEnv) == Next(AfterBoth)
  {
    VerdictFileA();
    VerdictFileAB();
    VerdictDirA();
    InsertIntoA();
  }

  lemma StepsDirFirst()
    ensures Visit(map[], DirA, "", ExampleEnv) == Next(map[])
    ensures Visit(map[], FileAB, "", ExampleEnv) == Next(AfterBoth)
    ensures Visit(AfterBoth, FileA, "", ExampleEnv) == Fail(KeyViolation("a.json"))
  {
    VerdictFileA();
    VerdictFileAB();
    VerdictDirA();
    assert Descend(map[], ["a"]) == At(map[]);
  }

  lemma VisitedExamples()
    ensures Visited([FileA, DirA, FileAB]) == [FileA, DirA, FileAB]
    ensures Visited([DirA, FileAB, FileA]) == [DirA, FileAB, FileA]
  {
    VerdictDirA();
    assert Visited([FileAB]) == [FileAB];
    assert Visited([FileA]) == [FileA];
    assert Visited([DirA, FileAB]) == [DirA, FileAB];
    assert Visited([FileAB, FileA]) == [FileAB, FileA];
  }

  /**
   * The outcome depends on the order of the walk: a leaf that is a decoded JSON
   * object is descended into like a directory (dirmap.go:79-82). With `a.json`
   * first, `a/b.json` is added inside its document; with the directory first
   * (the lexical order in which `filepath.Walk` visits them), `a.json` then
   * meets the key `a` and fails. The model allows any order; since that
   * lexical order puts a directory `K` before every file `K.ext`, the program
   * itself always takes the failing order here.
   */
  lemma WalkOrderMatters()
    ensures Build("", [FileA, DirA, FileAB], ExampleEnv) == Success(AfterBoth)
    ensures Build("", [DirA, FileAB, FileA], ExampleEnv) == Failure(KeyViolation("a.json"))
  {
    VisitedExamples();
    StepsFileFirst();
    StepsDirFirst();
    var decide := Classifier("", ExampleEnv);
    assert decide(FileA) == Classify(FileA, "", ExampleEnv);
    assert decide(DirA) == Classify(DirA, "", ExampleEnv);
    assert decide(FileAB) == Classify(FileAB, "", ExampleEnv);
    assert Fold(AfterA, [FileAB], decide) == Success(AfterBoth);
    assert Fold(AfterA, [DirA, FileAB], decide) == Success(AfterBoth);
    assert Fold(AfterBoth, [FileA], decide) == Failure(KeyViolation("a.json"));
    assert Fold(map[], [FileAB, FileA], decide) == Failure(KeyViolation("a.json"));
  }
}
