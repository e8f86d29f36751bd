/** createEntity and the command that runs it: one directory named after the
    class, inside the folder the command was invoked on, holding cl_init.lua,
    init.lua and shared.lua. The file system is a tree of directories and
    files; its synchronous calls (existsSync, mkdirSync, writeFileSync) are
    methods of `FileSystem`, each specified by a function on a snapshot. */
module Scaffold {
  import opened Js
  import opened Settings
  import opened Templates

  /** A path as its list of segments; `path.join` of a folder and one name
      appends the name. */
  type Path = seq<string>

  function PathJoin(folder: Path, name: string): (p: Path)
    ensures p != [] && p[..|p| - 1] == folder && p[|p| - 1] == name
  {
    folder + [name]
  }

  function Parent(p: Path): Path
    requires p != []
  {
    p[..|p| - 1]
  }

  /** What a synchronous call throws: ENOENT or ENOTDIR when the parent is
      not an existing directory, EISDIR when a file is written over a
      directory, EEXIST when a directory is made where something exists. */
  datatype FsError = NoParentDirectory | IsADirectory | AlreadyExists

  datatype Status = Done | Failed(error: FsError)

  /** A snapshot of the file system. */
  datatype Tree = Tree(dirs: set<Path>, files: map<Path, string>)

  /** Every file and every directory but the root sits in a directory, and no
      path is both a file and a directory. */
  ghost predicate WellFormed(t: Tree)
  {
    && (forall d :: d in t.dirs && d != [] ==> Parent(d) in t.dirs)
    && (forall p :: p in t.files ==> p != [] && Parent(p) in t.dirs && p !in t.dirs)
  }

  datatype Result = Result(status: Status, tree: Tree)

  /** existsSync: a file or a directory is there. */
  predicate Exists(t: Tree, p: Path)
  {
    p in t.dirs || p in t.files
  }

  /** mkdirSync without `recursive`. */
  function Mkdir(t: Tree, p: Path): Result
    requires p != []
  {
    if Exists(t, p) then Result(Failed(AlreadyExists), t)
    else if Parent(p) !in t.dirs then Result(Failed(NoParentDirectory), t)
    else Result(Done, t.(dirs := t.dirs + {p}))
  }

  /** writeFileSync: creates the file or replaces its content. */
  function WriteFile(t: Tree, p: Path, content: string): Result
    requires p != []
  {
    if p in t.dirs then Result(Failed(IsADirectory), t)
    else if Parent(p) !in t.dirs then Result(Failed(NoParentDirectory), t)
    else Result(Done, t.(files := t.files[p := content]))
  }

  /** A file to write: its path and its content. */
  datatype FileWrite = FileWrite(path: Path, content: string)

  /** Writes in order; the first one that throws ends the run, and the writes
      before it stay done. */
  function WriteAll(t: Tree, writes: seq<FileWrite>): Result
    requires forall i :: 0 <= i < |writes| ==> writes[i].path != []
    decreases |writes|
  {
    if writes == [] then Result(Done, t)
    else
      var first := WriteFile(t, writes[0].path, writes[0].content);
      if first.status.Failed? then first else WriteAll(first.tree, writes[1..])
  }

  /** The entity's directory. */
  function EntityDir(folderPath: Path, className: string): Path
  {
    PathJoin(folderPath, className)
  }

  /** The texts of the three scripts. */
  datatype EntityTexts = EntityTexts(clInit: string, init: string, shared: string)

  /** The generators' output for the settings. */
  function Generate(s: EntitySettings): EntityTexts
  {
    EntityTexts(ClInitContent(s), InitContent(s), SharedContent(s))
  }

  /** The three files of an entity, in the order they are written. */
  function EntityFiles(dir: Path, texts: EntityTexts): (w: seq<FileWrite>)
    ensures |w| == 3 && forall i :: 0 <= i < 3 ==> w[i].path != [] && Parent(w[i].path) == dir
    ensures w[0] == FileWrite(dir + ["cl_init.lua"], texts.clInit)
    ensures w[1] == FileWrite(dir + ["init.lua"], texts.init)
    ensures w[2] == FileWrite(dir + ["shared.lua"], texts.shared)
  {
    [ FileWrite(PathJoin(dir, "cl_init.lua"), texts.clInit),
      FileWrite(PathJoin(dir, "init.lua"), texts.init),
      FileWrite(PathJoin(dir, "shared.lua"), texts.shared) ]
  }

  /** createEntity on a snapshot: make the directory unless something already
      exists at its path, then write the three files. */
  function CreateEntitySpec(t: Tree, folderPath: Path, className: string, texts: EntityTexts): Result
  {
    var dir := EntityDir(folderPath, className);
    var made := if Exists(t, dir) then Result(Done, t) else Mkdir(t, dir);
    if made.status.Failed? then made else WriteAll(made.tree, EntityFiles(dir, texts))
  }

  /** The files after the writes, when none of them throws. */
  function Written(files: map<Path, string>, writes: seq<FileWrite>): map<Path, string>
    decreases |writes|
  {
    if writes == [] then files
    else Written(files[writes[0].path := writes[0].content], writes[1..])
  }

  /** A write run succeeds exactly when every target sits in an existing
      directory and none is a directory; it then leaves the directories alone
      and stores every write, the later ones winning. */
  lemma {:induction false} WriteAllOutcome(t: Tree, writes: seq<FileWrite>)
    requires forall i :: 0 <= i < |writes| ==> writes[i].path != []
    ensures var r := WriteAll(t, writes);
      && r.tree.dirs == t.dirs
      && (r.status == Done <==>
            forall i :: 0 <= i < |writes| ==> writes[i].path !in t.dirs && Parent(writes[i].path) in t.dirs)
      && (r.status == Done ==> r.tree.files == Written(t.files, writes))
    decreases |writes|
  {
    if writes != [] {
      var first := WriteFile(t, writes[0].path, writes[0].content);
      if first.status == Done {
        WriteAllOutcome(first.tree, writes[1..]);
        assert forall i :: 0 < i < |writes| ==> writes[1..][i - 1] == writes[i];
      }
    }
  }

  /** A write run only ever touches the paths it writes. */
  lemma {:induction false} WriteAllTouchesOnlyTargets(t: Tree, writes: seq<FileWrite>, p: Path)
    requires forall i :: 0 <= i < |writes| ==> writes[i].path != []
    requires forall i :: 0 <= i < |writes| ==> writes[i].path != p
    ensures var r := WriteAll(t, writes);
      (p in r.tree.files <==> p in t.files) && (p in t.files ==> r.tree.files[p] == t.files[p])
    decreases |writes|
  {
    if writes != [] {
      var first := WriteFile(t, writes[0].path, writes[0].content);
      if first.status == Done {
        WriteAllTouchesOnlyTargets(first.tree, writes[1..], p);
      }
    }
  }

  /** createEntity succeeds exactly when the class directory exists (or
      nothing is at its path and the folder is a directory) and none of the
      three file paths is a directory. An existing directory is reused. */
  lemma CreateEntityOutcome(t: Tree, folderPath: Path, className: string, texts: EntityTexts)
    ensures var dir, r := EntityDir(folderPath, className), CreateEntitySpec(t, folderPath, className, texts);
      var names := ["cl_init.lua", "init.lua", "shared.lua"];
      && (r.status == Done <==>
            && (dir in t.dirs || (dir !in t.files && folderPath in t.dirs))
            && forall n :: n in names ==> dir + [n] !in t.dirs)
      && (r.status == Done ==>
            && r.tree.dirs == t.dirs + {dir}
            && r.tree.files == t.files[dir + ["cl_init.lua"] := texts.clInit]
                                      [dir + ["init.lua"] := texts.init]
                                      [dir + ["shared.lua"] := texts.shared])
  {
    var dir := EntityDir(folderPath, className);
    var w := EntityFiles(dir, texts);
    var made := if Exists(t, dir) then Result(Done, t) else Mkdir(t, dir);
    if made.status == Done {
      WriteAllOutcome(made.tree, w);
      assert made.tree.files == t.files;
      assert made.tree.dirs == t.dirs || made.tree.dirs == t.dirs + {dir};
      assert w[1..][0] == w[1] && w[1..][1..] == [w[2]] && [w[2]][1..] == [];
      var f1 := t.files[w[0].path := w[0].content];
      var f2 := f1[w[1].path := w[1].content];
      assert Written(t.files, w) == Written(f1, w[1..]);
      assert Written(f1, w[1..]) == Written(f2, [w[2]]);
      assert Written(f2, [w[2]]) == f2[w[2].path := w[2].content];
      forall i | 0 <= i < 3 ensures w[i].path != dir {
        assert |w[i].path| == |dir| + 1;
      }
    }
  }

  /** In a well-formed tree, creating an entity in an existing folder where
      nothing is named after the class succeeds and leaves the directory and
      its three files in place. */
  lemma CreateEntityInFreshFolder(t: Tree, folderPath: Path, className: string, texts: EntityTexts)
    requires WellFormed(t) && folderPath in t.dirs && !Exists(t, EntityDir(folderPath, className))
    ensures var dir, r := EntityDir(folderPath, className), CreateEntitySpec(t, folderPath, className, texts);
      && r.status == Done
      && dir in r.tree.dirs
      && dir + ["cl_init.lua"] in r.tree.files
      && dir + ["init.lua"] in r.tree.files
      && dir + ["shared.lua"] in r.tree.files
  {
    var dir := EntityDir(folderPath, className);
    forall n | n in ["cl_init.lua", "init.lua", "shared.lua"] ensures dir + [n] !in t.dirs {
      assert Parent(dir + [n]) == dir;
    }
    CreateEntityOutcome(t, folderPath, className, texts);
  }

  /** Whatever happens, nothing outside the three entity files changes, and
      the only directory that can appear is the entity's. */
  lemma CreateEntityTouchesOnlyEntity(t: Tree, folderPath: Path, className: string, texts: EntityTexts, p: Path)
    requires p !in [EntityDir(folderPath, className) + ["cl_init.lua"], EntityDir(folderPath, className) + ["init.lua"],
                    EntityDir(folderPath, className) + ["shared.lua"]]
    ensures var r := CreateEntitySpec(t, folderPath, className, texts);
      && (p in r.tree.files <==> p in t.files)
      && (p in t.files ==> r.tree.files[p] == t.files[p])
      && r.tree.dirs - t.dirs <= {EntityDir(folderPath, className)}
  {
    var dir := EntityDir(folderPath, className);
    var made := if Exists(t, dir) then Result(Done, t) else Mkdir(t, dir);
    if made.status == Done {
      WriteAllTouchesOnlyTargets(made.tree, EntityFiles(dir, texts), p);
      WriteAllOutcome(made.tree, EntityFiles(dir, texts));
    }
  }

  /** Running createEntity again with the same settings changes nothing more:
      the directory is reused and the files are rewritten with the same text. */
  lemma CreateEntityIdempotent(t: Tree, folderPath: Path, className: string, texts: EntityTexts)
    requires CreateEntitySpec(t, folderPath, className, texts).status == Done
    ensures var once := CreateEntitySpec(t, folderPath, className, texts).tree;
      CreateEntitySpec(once, folderPath, className, texts) == Result(Done, once)
  {
    var dir := EntityDir(folderPath, className);
    var once := CreateEntitySpec(t, folderPath, className, texts).tree;
    CreateEntityOutcome(t, folderPath, className, texts);
    CreateEntityOutcome(once, folderPath, className, texts);
    assert dir in once.dirs;
    var twice := CreateEntitySpec(once, folderPath, className, texts).tree;
    assert twice.files == once.files;
  }

  /** The file system stays well formed. */
  lemma CreateEntityKeepsWellFormed(t: Tree, folderPath: Path, className: string, texts: EntityTexts)
    requires WellFormed(t)
    ensures WellFormed(CreateEntitySpec(t, folderPath, className, texts).tree)
  {
    var dir := EntityDir(folderPath, className);
    var made := if Exists(t, dir) then Result(Done, t) else Mkdir(t, dir);
    assert WellFormed(made.tree);
    if made.status == Done {
      WriteAllKeepsWellFormed(made.tree, EntityFiles(dir, texts));
    }
  }

  lemma {:induction false} WriteAllKeepsWellFormed(t: Tree, writes: seq<FileWrite>)
    requires forall i :: 0 <= i < |writes| ==> writes[i].path != []
    requires WellFormed(t)
    ensures WellFormed(WriteAll(t, writes).tree)
    decreases |writes|
  {
    if writes != [] {
      var first := WriteFile(t, writes[0].path, writes[0].content);
      if first.status == Done {
        WriteAllKeepsWellFormed(first.tree, writes[1..]);
      }
    }
  }

  /** The file system the extension runs against. */
  class FileSystem {
    var dirs: set<Path>
    var files: map<Path, string>

    function Snapshot(): Tree
      reads this
    {
      Tree(dirs, files)
    }

    constructor(t: Tree)
      ensures Snapshot() == t
    {
      dirs := t.dirs;
      files := t.files;
    }

    predicate ExistsSync(p: Path)
      reads this
    {
      Exists(Snapshot(), p)
    }

    method MkdirSync(p: Path) returns (status: Status)
      requires p != []
      modifies this
      ensures Result(status, Snapshot()) == Mkdir(old(Snapshot()), p)
    {
      if p in dirs || p in files {
        status := Failed(AlreadyExists);
      } else if Parent(p) !in dirs {
        status := Failed(NoParentDirectory);
      } else {
        dirs := dirs + {p};
        status := Done;
      }
    }

    method WriteFileSync(p: Path, content: string) returns (status: Status)
      requires p != []
      modifies this
      ensures Result(status, Snapshot()) == WriteFile(old(Snapshot()), p, content)
    {
      if p in dirs {
        status := Failed(IsADirectory);
      } else if Parent(p) !in dirs {
        status := Failed(NoParentDirectory);
      } else {
        files := files[p := content];
        status := Done;
      }
    }
  }

  /** createEntity: the first call that throws ends it. */
  method CreateEntity(fs: FileSystem, folderPath: Path, s: EntitySettings) returns (status: Status)
    modifies fs
    ensures Result(status, fs.Snapshot()) == CreateEntitySpec(old(fs.Snapshot()), folderPath, s.className, Generate(s))
  {
    var dir := PathJoin(folderPath, s.className);
    status := Done;
    if !fs.ExistsSync(dir) {
      status := fs.MkdirSync(dir);
      if status.Failed? {
        return;
      }
    }
    var texts := Generate(s);
    status := WriteEntityFiles(fs, dir, texts);
  }

  /** The three writeFileSync calls of createEntity, in order. */
  method WriteEntityFiles(fs: FileSystem, dir: Path, texts: EntityTexts) returns (status: Status)
    modifies fs
    ensures Result(status, fs.Snapshot()) == WriteAll(old(fs.Snapshot()), EntityFiles(dir, texts))
  {
    var w := EntityFiles(dir, texts);
    ghost var before := fs.Snapshot();
    status := fs.WriteFileSync(PathJoin(dir, "cl_init.lua"), texts.clInit);
    if status.Failed? {
      return;
    }
    ghost var one := fs.Snapshot();
    assert WriteAll(before, w) == WriteAll(one, w[1..]);
    status := fs.WriteFileSync(PathJoin(dir, "init.lua"), texts.init);
    if status.Failed? {
      return;
    }
    ghost var two := fs.Snapshot();
    assert WriteAll(one, w[1..]) == WriteAll(two, w[2..]);
    status := fs.WriteFileSync(PathJoin(dir, "shared.lua"), texts.shared);
    assert w[2..][1..] == [];
  }

  const SuccessMessage := "Entity created successfully!"

  /** The extension.createEntity command: prompt, and create the entity only
      when the prompts gave settings. The folder is `None` when the command
      runs without one (from the command palette); reading its path then
      throws after the prompts, and nothing is created. Returns the prompts
      shown and the information message, shown only when every write
      succeeded. */
  method RunCreateEntityCommand(fs: FileSystem, folder: Option<Path>, answers: seq<Option<string>>)
    returns (shown: seq<Prompt>, message: Option<string>)
    modifies fs
    ensures var outcome := PromptForEntitySettings(answers);
      && shown == outcome.shown
      && (outcome.settings.None? || folder.None? ==> fs.Snapshot() == old(fs.Snapshot()) && message == None)
      && (outcome.settings.Some? && folder.Some? ==>
            var s := outcome.settings.value;
            var r := CreateEntitySpec(old(fs.Snapshot()), folder.value, s.className, Generate(s));
            && fs.Snapshot() == r.tree
            && (message == Some(SuccessMessage) <==> r.status == Done)
            && (message != Some(SuccessMessage) ==> message == None))
  {
    var outcome := PromptForEntitySettings(answers);
    shown := outcome.shown;
    message := None;
    if outcome.settings.Some? && folder.Some? {
      var status := CreateEntity(fs, folder.value, outcome.settings.value);
      if status == Done {
        message := Some(SuccessMessage);
      }
    }
  }
}
