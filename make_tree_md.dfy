/*
 * The project-tree printer: directory and file filters ("filter" lists
 * always win, non-empty "only" lists restrict), the recursive rendering of
 * a directory as connector-prefixed lines, and the Markdown page around
 * them. The directory tree, path normalisation, `fnmatch` and the path
 * separator are inputs.
 */
module MakeTree {
  import opened Common
  import opened StrOrder

  /** A directory entry: a regular file, a directory with its listing, or anything else. */
  datatype Node = File | Dir(children: map<string, Node>) | Other

  /** The configuration lists and the platform's path behaviour. */
  datatype Env = Env(
    filterDirs: seq<string>,
    filterFilePatterns: seq<string>,
    onlyDirs: seq<string>,
    onlyFilePatterns: seq<string>,
    normalize: string -> string,
    fnmatch: (string, string) -> bool,
    sep: char)

  /** The lists as the script configures them. */
  function Configured(normalize: string -> string, fnmatch: (string, string) -> bool, sep: char): Env
  {
    Env(["terraform\\10_global_backend\\.terraform", "XXX"],
        ["*.pyc", "*.sh"],
        ["ragstream"],
        ["*.py", "*.tf", "*.yml", "*.json", "*.hcl", "*.txt"],
        normalize, fnmatch, sep)
  }

  // ---------------------------------------------------------------------
  // Filters.

  predicate StartsWith(s: string, p: string)
  {
    |p| <= |s| && s[..|p|] == p
  }

  /** `rel` is `root` itself or lies below it, on a separator boundary. */
  predicate Under(rel: string, root: string, sep: char)
  {
    rel == root || StartsWith(rel, root + [sep])
  }

  /** Being under a root never matches a mere name prefix: the next character is the separator. */
  lemma UnderBoundary(rel: string, root: string, sep: char)
    requires Under(rel, root, sep) && rel != root
    ensures |root| < |rel| && rel[..|root|] == root && rel[|root|] == sep
  {
    assert rel[..|root| + 1] == root + [sep];
    assert rel[..|root|] == rel[..|root| + 1][..|root|];
  }

  /** Whether the normalised `relN` is under the normalised form of some directory in `dirs`. */
  function UnderAny(relN: string, dirs: seq<string>, env: Env): (b: bool)
    ensures b <==> exists k :: 0 <= k < |dirs| && Under(relN, env.normalize(dirs[k]), env.sep)
  {
    if dirs == [] then false
    else if Under(relN, env.normalize(dirs[0]), env.sep) then true
    else
      var rest := UnderAny(relN, dirs[1..], env);
      assert forall k :: 1 <= k < |dirs| ==> dirs[k] == dirs[1..][k - 1];
      assert rest ==> exists k :: 1 <= k < |dirs| && Under(relN, env.normalize(dirs[k]), env.sep);
      rest
  }

  /** `is_dir_allowed(rel)`. */
  function IsDirAllowed(rel: string, env: Env): bool
  {
    var relN := env.normalize(rel);
    if UnderAny(relN, env.filterDirs, env) then false
    else if env.onlyDirs != [] then UnderAny(relN, env.onlyDirs, env)
    else true
  }

  /**
   * A directory equal to or under a filtered directory is rejected whatever
   * the only-list says; otherwise, with a non-empty only-list it is allowed
   * exactly when it is equal to or under one of its entries, and with an
   * empty only-list it is allowed.
   */
  lemma DirFilterPrecedence(rel: string, env: Env)
    ensures var relN := env.normalize(rel);
            ((exists k :: 0 <= k < |env.filterDirs| && Under(relN, env.normalize(env.filterDirs[k]), env.sep))
               ==> !IsDirAllowed(rel, env))
            && ((!(exists k :: 0 <= k < |env.filterDirs| && Under(relN, env.normalize(env.filterDirs[k]), env.sep))
                 && env.onlyDirs != [])
                ==> (IsDirAllowed(rel, env) <==> exists k :: 0 <= k < |env.onlyDirs| && Under(relN, env.normalize(env.onlyDirs[k]), env.sep)))
            && ((!(exists k :: 0 <= k < |env.filterDirs| && Under(relN, env.normalize(env.filterDirs[k]), env.sep))
                 && env.onlyDirs == [])
                ==> IsDirAllowed(rel, env))
  {
  }

  /** Whether `name` matches some pattern of `pats`. */
  function MatchesAny(name: string, pats: seq<string>, env: Env): (b: bool)
    ensures b <==> exists k :: 0 <= k < |pats| && env.fnmatch(name, pats[k])
  {
    if pats == [] then false
    else if env.fnmatch(name, pats[0]) then true
    else
      var rest := MatchesAny(name, pats[1..], env);
      assert forall k :: 1 <= k < |pats| ==> pats[k] == pats[1..][k - 1];
      rest
  }

  /** `is_file_allowed(name)`. */
  function IsFileAllowed(name: string, env: Env): bool
  {
    if MatchesAny(name, env.filterFilePatterns, env) then false
    else if env.onlyFilePatterns != [] then MatchesAny(name, env.onlyFilePatterns, env)
    else true
  }

  /**
   * A file matching a filter pattern is rejected even when it also matches
   * an only pattern; otherwise a non-empty only-list admits exactly its
   * matches, and an empty one admits every file.
   */
  lemma FileFilterPrecedence(name: string, env: Env)
    ensures (exists k :: 0 <= k < |env.filterFilePatterns| && env.fnmatch(name, env.filterFilePatterns[k]))
              ==> !IsFileAllowed(name, env)
    ensures (!(exists k :: 0 <= k < |env.filterFilePatterns| && env.fnmatch(name, env.filterFilePatterns[k]))
              && env.onlyFilePatterns != [])
              ==> (IsFileAllowed(name, env) <==> exists k :: 0 <= k < |env.onlyFilePatterns| && env.fnmatch(name, env.onlyFilePatterns[k]))
    ensures (!(exists k :: 0 <= k < |env.filterFilePatterns| && env.fnmatch(name, env.filterFilePatterns[k]))
              && env.onlyFilePatterns == [])
              ==> IsFileAllowed(name, env)
  {
  }

  // ---------------------------------------------------------------------
  // Rendering.

  const Tee: string := "├── "
  const Corner: string := "└── "
  const Bar: string := "│   "
  const Blank: string := "    "

  /** The connector of an entry, by whether it is last in the listing. */
  function Connector(isLast: bool): string
  {
    if isLast then Corner else Tee
  }

  /** The prefix the children of an entry get. */
  function ChildPrefix(prefix: string, isLast: bool): string
  {
    prefix + (if isLast then Blank else Bar)
  }

  /** `print_tree(path, writer, prefix)` for a directory at relative path `rel`: the lines it writes. */
  ghost function DirLines(node: Node, rel: string, prefix: string, env: Env): seq<string>
    requires node.Dir?
    decreases node, 2
  {
    if !IsDirAllowed(rel, env) then []
    else ItemsLines(node, SortedOf(node.children.Keys), 0, rel, prefix, env)
  }

  /** The lines of the listing `items` from position `idx` on. */
  ghost function ItemsLines(node: Node, items: seq<string>, idx: nat, rel: string, prefix: string, env: Env): seq<string>
    requires node.Dir? && idx <= |items|
    requires forall k :: 0 <= k < |items| ==> items[k] in node.children
    decreases node, 1, |items| - idx
  {
    if idx == |items| then []
    else EntryLines(node, items, idx, rel, prefix, env) + ItemsLines(node, items, idx + 1, rel, prefix, env)
  }

  /**
   * The lines of the entry at position `idx`: nothing for a file the filter
   * rejects; otherwise its connector line (last by position in the whole
   * listing, filtered entries included), then a directory's own tree.
   */
  ghost function EntryLines(node: Node, items: seq<string>, idx: nat, rel: string, prefix: string, env: Env): seq<string>
    requires node.Dir? && idx < |items|
    requires forall k :: 0 <= k < |items| ==> items[k] in node.children
    decreases node, 0
  {
    var name := items[idx];
    var child := node.children[name];
    if child.File? && !IsFileAllowed(name, env) then []
    else
      var isLast := idx == |items| - 1;
      [prefix + Connector(isLast) + name]
      + (if child.Dir? then DirLines(child, rel + [env.sep] + name, ChildPrefix(prefix, isLast), env) else [])
  }

  /** Collects the written lines; console echo is not modelled. */
  class TreeWriter {
    var lines: seq<string>

    constructor()
      ensures lines == []
    {
      lines := [];
    }

    /** `write(text)`: appends one line. */
    method Write(text: string)
      modifies this
      ensures lines == old(lines) + [text]
    {
      lines := lines + [text];
    }
  }

  lemma ItemsStep(node: Node, items: seq<string>, idx: nat, rel: string, prefix: string, env: Env, before: seq<string>,
                  added: seq<string>)
    requires node.Dir? && idx < |items|
    requires forall k :: 0 <= k < |items| ==> items[k] in node.children
    requires added == EntryLines(node, items, idx, rel, prefix, env)
    ensures before + ItemsLines(node, items, idx, rel, prefix, env)
            == (before + added) + ItemsLines(node, items, idx + 1, rel, prefix, env)
  {
    AppendAssoc(before, added, ItemsLines(node, items, idx + 1, rel, prefix, env));
  }

  /** `print_tree`: appends the lines of the directory's tree to the writer. */
  method PrintTree(node: Node, rel: string, prefix: string, writer: TreeWriter, env: Env)
    requires node.Dir?
    modifies writer
    decreases node, 1
    ensures writer.lines == old(writer.lines) + DirLines(node, rel, prefix, env)
  {
    if !IsDirAllowed(rel, env) {
      assert DirLines(node, rel, prefix, env) == [];
      return;
    }
    var items := SortKeys(node.children.Keys);
    ghost var lines0 := writer.lines;
    var idx := 0;
    while idx < |items|
      invariant 0 <= idx <= |items|
      invariant lines0 + ItemsLines(node, items, 0, rel, prefix, env) == writer.lines + ItemsLines(node, items, idx, rel, prefix, env)
    {
      ghost var before := writer.lines;
      PrintEntry(node, items, idx, rel, prefix, writer, env);
      ItemsStep(node, items, idx, rel, prefix, env, before, EntryLines(node, items, idx, rel, prefix, env));
      idx := idx + 1;
    }
    assert lines0 + ItemsLines(node, items, 0, rel, prefix, env) == writer.lines + [];
  }

  /** One pass of the loop in `print_tree`: the entry at position `idx`. */
  method PrintEntry(node: Node, items: seq<string>, idx: nat, rel: string, prefix: string, writer: TreeWriter, env: Env)
    requires node.Dir? && idx < |items|
    requires forall k :: 0 <= k < |items| ==> items[k] in node.children
    modifies writer
    decreases node, 0
    ensures writer.lines == old(writer.lines) + EntryLines(node, items, idx, rel, prefix, env)
  {
    var name := items[idx];
    var child := node.children[name];
    if child.File? && !IsFileAllowed(name, env) {
      assert old(writer.lines) + [] == writer.lines;
      return;
    }
    var isLast := idx == |items| - 1;
    ghost var before := writer.lines;
    writer.Write(prefix + Connector(isLast) + name);
    if child.Dir? {
      PrintTree(child, rel + [env.sep] + name, ChildPrefix(prefix, isLast), writer, env);
      AppendAssoc(before, [prefix + Connector(isLast) + name],
                  DirLines(child, rel + [env.sep] + name, ChildPrefix(prefix, isLast), env));
    } else {
      assert [prefix + Connector(isLast) + name] + [] == [prefix + Connector(isLast) + name];
    }
  }

  lemma StartsWithLonger(s: string, p: string, q: string)
    requires StartsWith(s, p + q)
    ensures StartsWith(s, p)
  {
    assert s[..|p|] == s[..|p + q|][..|p|];
  }

  /** Every line of a directory's tree starts with the prefix it was drawn with. */
  lemma {:induction false} DirLinesPrefixed(node: Node, rel: string, prefix: string, env: Env)
    requires node.Dir?
    ensures forall l :: l in DirLines(node, rel, prefix, env) ==> StartsWith(l, prefix)
    decreases node, 2
  {
    if IsDirAllowed(rel, env) {
      ItemsLinesPrefixed(node, SortedOf(node.children.Keys), 0, rel, prefix, env);
    }
  }

  lemma {:induction false} ItemsLinesPrefixed(node: Node, items: seq<string>, idx: nat, rel: string, prefix: string, env: Env)
    requires node.Dir? && idx <= |items|
    requires forall k :: 0 <= k < |items| ==> items[k] in node.children
    ensures forall l :: l in ItemsLines(node, items, idx, rel, prefix, env) ==> StartsWith(l, prefix)
    decreases node, 1, |items| - idx
  {
    if idx < |items| {
      EntryLinesPrefixed(node, items, idx, rel, prefix, env);
      ItemsLinesPrefixed(node, items, idx + 1, rel, prefix, env);
    }
  }

  lemma {:induction false} EntryLinesPrefixed(node: Node, items: seq<string>, idx: nat, rel: string, prefix: string, env: Env)
    requires node.Dir? && idx < |items|
    requires forall k :: 0 <= k < |items| ==> items[k] in node.children
    ensures forall l :: l in EntryLines(node, items, idx, rel, prefix, env) ==> StartsWith(l, prefix)
    decreases node, 0
  {
    var name := items[idx];
    var child := node.children[name];
    var isLast := idx == |items| - 1;
    assert StartsWith(prefix + Connector(isLast) + name, prefix) by {
      assert (prefix + Connector(isLast) + name)[..|prefix|] == prefix;
    }
    if child.Dir? {
      var sub := ChildPrefix(prefix, isLast);
      DirLinesPrefixed(child, rel + [env.sep] + name, sub, env);
      forall l | l in DirLines(child, rel + [env.sep] + name, sub, env)
        ensures StartsWith(l, prefix)
      {
        StartsWithLonger(l, prefix, if isLast then Blank else Bar);
      }
    }
  }

  /**
   * The connector goes by position in the whole listing: when the last
   * entry is a file the filter rejects, the entry before it is drawn with
   * "├── " and no line of the directory uses "└── ".
   */
  lemma LastFilteredKeepsTee(a: string, b: string, rel: string, prefix: string, env: Env)
    requires StrLt(a, b)
    requires IsDirAllowed(rel, env) && IsFileAllowed(a, env) && !IsFileAllowed(b, env)
    ensures DirLines(Dir(map[a := File, b := File]), rel, prefix, env) == [prefix + Tee + a]
  {
    var node := Dir(map[a := File, b := File]);
    StrLtIrreflexive(a);
    assert a != b;
    assert node.children.Keys == {a, b};
    var items := SortedOf(node.children.Keys);
    assert StrictlySorted([a, b]);
    SortedUnique([a, b], items);
    assert ItemsLines(node, items, 2, rel, prefix, env) == [];
    assert EntryLines(node, items, 1, rel, prefix, env) == [];
    assert EntryLines(node, items, 0, rel, prefix, env) == [prefix + Tee + a];
    assert ItemsLines(node, items, 1, rel, prefix, env) == [];
  }

  // ---------------------------------------------------------------------
  // The whole page.

  /** `os.path.join(base, d)` resolved in the tree: the entry at the relative path `d`, if any. */
  function Resolve(node: Node, parts: seq<string>): Option<Node>
  {
    if parts == [] then Some(node)
    else if node.Dir? && parts[0] in node.children then Resolve(node.children[parts[0]], parts[1..])
    else None
  }

  /** The root-level files the filter admits, each drawn with "├── ". */
  function RootFileLines(root: Node, names: seq<string>, env: Env): (r: seq<string>)
    requires root.Dir? && forall k :: 0 <= k < |names| ==> names[k] in root.children
    ensures |r| <= |names|
  {
    if names == [] then []
    else
      var child := root.children[names[0]];
      (if child.File? && IsFileAllowed(names[0], env) then [Tee + names[0]] else [])
      + RootFileLines(root, names[1..], env)
  }

  /**
   * The lines of the chosen top-level directories from position `idx` on:
   * a missing or filtered one is skipped, the others get a connector (last
   * by position in the list) and their tree.
   */
  ghost function ShownDirsLines(root: Node, dirs: seq<string>, idx: nat, env: Env): seq<string>
    requires idx <= |dirs|
    decreases |dirs| - idx
  {
    if idx == |dirs| then []
    else ShownDirLines(root, dirs, idx, env) + ShownDirsLines(root, dirs, idx + 1, env)
  }

  /** The lines of the chosen directory at position `idx` alone. */
  ghost function ShownDirLines(root: Node, dirs: seq<string>, idx: nat, env: Env): seq<string>
    requires idx < |dirs|
  {
    var d := dirs[idx];
    var node := Resolve(root, SplitOn(d, env.sep));
    var isLast := idx == |dirs| - 1;
    if node.Some? && node.value.Dir? && IsDirAllowed(d, env)
    then [Connector(isLast) + d] + DirLines(node.value, d, ChildPrefix("", isLast), env)
    else []
  }

  /** Every line the writer collects: the base path, the root-level files, then the chosen directories. */
  ghost function TreeMdLines(root: Node, basePath: string, dirs: seq<string>, env: Env): seq<string>
    requires root.Dir?
  {
    [basePath] + RootFileLines(root, SortedOf(root.children.Keys), env) + ShownDirsLines(root, dirs, 0, env)
  }

  const Title: string := "# Local Project Tree"
  const Fence: string := "```"

  /** The Markdown file: a title, then the lines inside a code fence. */
  function Markdown(lines: seq<string>): string
  {
    Title + "\n\n" + Fence + "\n" + Join(lines, "\n") + "\n" + Fence + "\n"
  }

  /**
   * Reading the page back line by line gives the title, a blank line, the
   * opening fence, the tree lines unchanged, the closing fence and the
   * empty piece after the final newline.
   */
  lemma MarkdownLines(lines: seq<string>)
    requires lines != [] && forall k :: 0 <= k < |lines| ==> '\n' !in lines[k]
    ensures SplitOn(Markdown(lines), '\n') == [Title, "", Fence] + lines + [Fence, ""]
  {
    var head := [Title, "", Fence];
    var tail := [Fence, ""];
    var all := head + lines + tail;
    MarkdownJoin(lines);
    forall k | 0 <= k < |all|
      ensures '\n' !in all[k]
    {
      if k >= |head| && k < |head| + |lines| {
        assert all[k] == lines[k - |head|];
      }
    }
    SplitOfJoin(all, '\n');
  }

  /** The page is the join of its title lines, the tree lines and the closing lines. */
  lemma MarkdownJoin(lines: seq<string>)
    requires lines != []
    ensures Markdown(lines) == Join([Title, "", Fence] + lines + [Fence, ""], "\n")
  {
    var head := [Title, "", Fence];
    var tail := [Fence, ""];
    JoinAppend(head, lines, "\n");
    JoinAppend(head + lines, tail, "\n");
    assert Join(head, "\n") == Title + "\n" + "" + "\n" + Fence by {
      assert Join([Fence], "\n") == Fence;
      assert Join(["", Fence], "\n") == "" + "\n" + Fence;
    }
    assert Join(tail, "\n") == Fence + "\n" + "" by {
      assert Join([""], "\n") == "";
    }
  }

  /** The root-file loop of `make_tree_md`. */
  method WriteRootFiles(root: Node, names: seq<string>, writer: TreeWriter, env: Env)
    requires root.Dir? && forall k :: 0 <= k < |names| ==> names[k] in root.children
    modifies writer
    ensures writer.lines == old(writer.lines) + RootFileLines(root, names, env)
  {
    ghost var lines0 := writer.lines;
    for i := 0 to |names|
      invariant lines0 + RootFileLines(root, names, env) == writer.lines + RootFileLines(root, names[i..], env)
    {
      assert names[i..][1..] == names[i + 1..];
      ghost var before := writer.lines;
      var child := root.children[names[i]];
      if child.File? && IsFileAllowed(names[i], env) {
        writer.Write(Tee + names[i]);
        AppendAssoc(before, [Tee + names[i]], RootFileLines(root, names[i + 1..], env));
      }
    }
    assert names[|names|..] == [];
    assert lines0 + RootFileLines(root, names, env) == writer.lines + [];
  }

  /** The directory loop of `make_tree_md`. */
  method WriteDirs(root: Node, dirs: seq<string>, writer: TreeWriter, env: Env)
    modifies writer
    ensures writer.lines == old(writer.lines) + ShownDirsLines(root, dirs, 0, env)
  {
    ghost var lines0 := writer.lines;
    for idx := 0 to |dirs|
      invariant lines0 + ShownDirsLines(root, dirs, 0, env) == writer.lines + ShownDirsLines(root, dirs, idx, env)
    {
      ghost var before := writer.lines;
      WriteDir(root, dirs, idx, writer, env);
      AppendAssoc(before, ShownDirLines(root, dirs, idx, env), ShownDirsLines(root, dirs, idx + 1, env));
    }
    assert lines0 + ShownDirsLines(root, dirs, 0, env) == writer.lines + [];
  }

  /** One pass of the directory loop: the chosen directory at position `idx`. */
  method WriteDir(root: Node, dirs: seq<string>, idx: nat, writer: TreeWriter, env: Env)
    requires idx < |dirs|
    modifies writer
    ensures writer.lines == old(writer.lines) + ShownDirLines(root, dirs, idx, env)
  {
    var d := dirs[idx];
    var node := Resolve(root, SplitOn(d, env.sep));
    if node.Some? && node.value.Dir? && IsDirAllowed(d, env) {
      var isLast := idx == |dirs| - 1;
      ghost var before := writer.lines;
      writer.Write(Connector(isLast) + d);
      PrintTree(node.value, d, ChildPrefix("", isLast), writer, env);
      AppendAssoc(before, [Connector(isLast) + d], DirLines(node.value, d, ChildPrefix("", isLast), env));
    } else {
      assert writer.lines == old(writer.lines) + [];
    }
  }

  /** The writer's lines for the given top-level directories. */
  method WriteTree(root: Node, basePath: string, dirs: seq<string>, env: Env) returns (lines: seq<string>)
    requires root.Dir?
    ensures lines == TreeMdLines(root, basePath, dirs, env)
  {
    var writer := new TreeWriter();
    writer.Write(basePath);
    var names := SortKeys(root.children.Keys);
    WriteRootFiles(root, names, writer, env);
    ghost var head := writer.lines;
    assert head == [basePath] + RootFileLines(root, SortedOf(root.children.Keys), env);
    WriteDirs(root, dirs, writer, env);
    lines := writer.lines;
    assert lines == head + ShownDirsLines(root, dirs, 0, env);
  }

  /**
   * `make_tree_md()` as written: the directories shown are `only_dirs`, or
   * else `include_dirs` — a name whose definition is commented out, so an
   * empty only-list raises NameError after the root-level files were echoed
   * and before the Markdown file is written.
   */
  method MakeTreeMd(root: Node, basePath: string, env: Env) returns (r: Result<string>)
    requires root.Dir?
    ensures r.Err? <==> env.onlyDirs == []
    ensures r.Err? ==> r.error == NameError("include_dirs")
    ensures r.Ok? ==> r.value == Markdown(TreeMdLines(root, basePath, env.onlyDirs, env))
  {
    if env.onlyDirs == [] {
      return Err(NameError("include_dirs"));
    }
    var lines := WriteTree(root, basePath, env.onlyDirs, env);
    r := Ok(Markdown(lines));
  }

  /**
   * `make_tree_md()` with `include_dirs` defined: never raises, shows
   * `only_dirs` when non-empty and `include_dirs` otherwise.
   */
  method MakeTreeMdWith(root: Node, basePath: string, includeDirs: seq<string>, env: Env) returns (md: string)
    requires root.Dir?
    ensures md == Markdown(TreeMdLines(root, basePath, if env.onlyDirs != [] then env.onlyDirs else includeDirs, env))
  {
    var dirs := if env.onlyDirs != [] then env.onlyDirs else includeDirs;
    var lines := WriteTree(root, basePath, dirs, env);
    md := Markdown(lines);
  }

  /**
   * With `include_dirs` defined and an empty only-list, every listed
   * include directory that exists and passes the filter gets its connector
   * line — the lines the as-written script never reaches.
   */
  lemma {:induction false} IncludeDirsShown(root: Node, dirs: seq<string>, idx: nat, k: nat, env: Env)
    requires idx <= k < |dirs|
    requires var node := Resolve(root, SplitOn(dirs[k], env.sep));
             node.Some? && node.value.Dir? && IsDirAllowed(dirs[k], env)
    ensures Connector(k == |dirs| - 1) + dirs[k] in ShownDirsLines(root, dirs, idx, env)
    decreases k - idx
  {
    var here := ShownDirLines(root, dirs, idx, env);
    var rest := ShownDirsLines(root, dirs, idx + 1, env);
    assert ShownDirsLines(root, dirs, idx, env) == here + rest;
    if idx < k {
      IncludeDirsShown(root, dirs, idx + 1, k, env);
      assert Connector(k == |dirs| - 1) + dirs[k] in rest;
    } else {
      assert here[0] == Connector(k == |dirs| - 1) + dirs[k];
    }
  }
}
