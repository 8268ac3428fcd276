/**
 * The SpyTerminal virtual file system: a tree of directory and file nodes
 * built once at start-up, and the resolver that walks a list of names
 * from the root.
 */
module SpyFs {
  import opened Util

  /** A node: a directory keeps its children in insertion order (a Python
      dict keyed by name), a file keeps its text. A file has no children. */
  datatype FSNode = Dir(name: string, children: seq<FSNode>) | File(name: string, content: string)

  /** What `FSNode.add_child` raises when the parent is a file. */
  datatype FsError = FilesCannotContainChildren

  predicate IsDir(r: Option<FSNode>) {
    r.Some? && r.value.Dir?
  }

  predicate IsFile(r: Option<FSNode>) {
    r.Some? && r.value.File?
  }

  /** The names of a list of children, in order: the keys of the dict. */
  function Names(children: seq<FSNode>): (r: seq<string>)
    ensures |r| == |children|
  {
    if children == [] then [] else [children[0].name] + Names(children[1..])
  }

  /** The child called `name` in a list of children (the first, should there be two). */
  function Find(children: seq<FSNode>, name: string): (r: Option<FSNode>)
    ensures r.Some? ==> r.value in children && r.value.name == name
    ensures r.None? <==> name !in Names(children)
  {
    if children == [] then None
    else if children[0].name == name then Some(children[0])
    else Find(children[1..], name)
  }

  /** `name in node.children` / `node.children[name]`; a file has no children. */
  function Child(n: FSNode, name: string): Option<FSNode> {
    if n.Dir? then Find(n.children, name) else None
  }

  /** Sibling names are distinct, all the way down: the children form a dict. */
  predicate WellFormed(n: FSNode) {
    n.Dir? ==> NoDuplicates(Names(n.children)) && forall c :: c in n.children ==> WellFormed(c)
  }

  predicate NoDuplicates(s: seq<string>) {
    forall i, j :: 0 <= i < j < |s| ==> s[i] != s[j]
  }

  /** `children[child.name] = child` on a dict: a new key goes last, an
      existing key keeps its place and gets the new value. */
  function Put(children: seq<FSNode>, child: FSNode): (r: seq<FSNode>)
    ensures Find(r, child.name) == Some(child)
    ensures forall name :: name != child.name ==> Find(r, name) == Find(children, name)
  {
    if children == [] then [child]
    else if children[0].name == child.name then [child] + children[1..]
    else [children[0]] + Put(children[1..], child)
  }

  /** Putting a key that is already there keeps the keys and their order;
      putting a new key appends it. */
  lemma {:induction false} PutNames(children: seq<FSNode>, child: FSNode)
    ensures child.name in Names(children) ==> Names(Put(children, child)) == Names(children)
    ensures child.name !in Names(children) ==> Names(Put(children, child)) == Names(children) + [child.name]
  {
    if children != [] {
      PutNames(children[1..], child);
      if children[0].name == child.name {
        assert ([child] + children[1..])[1..] == children[1..];
      } else {
        var r := Put(children, child);
        assert r[1..] == Put(children[1..], child);
        assert Names(children) == [children[0].name] + Names(children[1..]);
      }
    }
  }

  /** `FSNode.add_child`: raises on a file, otherwise stores `child` under its name. */
  function AddChild(parent: FSNode, child: FSNode): (r: Result<FSNode, FsError>)
    ensures r.Ok? <==> parent.Dir?
    ensures r.Ok? ==> r.value.Dir? && r.value.name == parent.name
    ensures r.Ok? ==> Child(r.value, child.name) == Some(child)
    ensures r.Ok? ==> forall name :: name != child.name ==> Child(r.value, name) == Child(parent, name)
  {
    if parent.File? then Err(FilesCannotContainChildren)
    else Ok(Dir(parent.name, Put(parent.children, child)))
  }

  /** Adding a well-formed child keeps a directory well-formed. */
  lemma AddChildWellFormed(parent: FSNode, child: FSNode)
    requires parent.Dir? && WellFormed(parent) && WellFormed(child)
    ensures WellFormed(AddChild(parent, child).value)
  {
    var cs := parent.children;
    var r := Put(cs, child);
    PutNames(cs, child);
    PutKeepsOthers(cs, child);
    if child.name !in Names(cs) {
      var ns := Names(cs);
      forall i, j | 0 <= i < j < |ns| + 1
        ensures (ns + [child.name])[i] != (ns + [child.name])[j]
      {
        if j == |ns| {
          assert (ns + [child.name])[i] == ns[i] && ns[i] in ns;
        }
      }
    }
  }

  /** Every node of `Put(children, child)` is `child` or was already there. */
  lemma {:induction false} PutKeepsOthers(children: seq<FSNode>, child: FSNode)
    ensures forall c :: c in Put(children, child) ==> c == child || c in children
  {
    if children != [] && children[0].name != child.name {
      PutKeepsOthers(children[1..], child);
    }
  }

  // ---------------------------------------------------------------- the dossier

  const BriefText: string :=
    "Agent,\n\n"
    + "Welcome to Operation NIGHTSHADE. Your objective is twofold:\n"
    + "  1. Retrieve the classified intel hidden deep within the digital archives.\n"
    + "  2. Defuse the enemy's ticking time bomb before it detonates.\n\n"
    + "Instructions:\n"
    + "  - Navigate the file system using 'cd' to enter directories and 'ls' to list files.\n"
    + "  - Read files with 'cat' to gather clues. For example, 'cat brief.txt'.\n"
    + "  - The intel is stored in the 'intel' directory. Find and read 'classified.txt'.\n"
    + "  - After acquiring intel, enter the 'bomb_module' directory, arm the bomb with 'arm_bomb', then defuse it with 'defuse 1-4-1'.\n\n"
    + "Time is of the essence, Agent. Trust no one and watch your back.\n"
    + "Good luck.\n"

  const ClassifiedText: string :=
    "TOP SECRET\n\n"
    + "The enemy's plan is underway. The disarm code is concealed within the command history.\n"
    + "Remember: Clues can be found in the errors and logs...\n"
    + "You might want to review everything with 'history' and 'grep'.\n\n"
    + "Hint: The code format is digit-digit-digit, where the digits sum to 6.\n"
    + "Hint: Look closely, Agent...\n"

  const InstructionsText: string :=
    "WARNING: Bomb ACTIVE\n\n"
    + "This module contains the device set to obliterate our network.\n"
    + "To proceed, you must arm the bomb by using the command 'arm_bomb'.\n"
    + "Immediately after, decipher the clues and enter the correct code to defuse with 'defuse [code]'.\n\n"
    + "Clue: The code is hidden in plain sight. Trust the intel.\n"

  const SystemLogText: string :=
    "[00:01] Intrusion detected at perimeter.\n"
    + "[00:05] Agent access granted; mission initiated.\n"
    + "[00:10] Bomb module engaged, threat level critical.\n"
    + "[00:15] Classified intel retrieved from secure server.\n"

  /** A directory holding one file, built with `add_child`. */
  function DirWith(name: string, file: FSNode): (d: FSNode)
    requires file.File?
    ensures d.Dir? && d.name == name && WellFormed(d)
    ensures Child(d, file.name) == Some(file)
  {
    AddChild(Dir(name, []), file).value
  }

  /** `FileSystem.populate_fs`: the root and its four directories, each with one file. */
  function PopulateFs(): (root: FSNode)
    ensures root.Dir? && root.name == "root" && WellFormed(root)
  {
    var missions := DirWith("missions", File("brief.txt", BriefText));
    var intel := DirWith("intel", File("classified.txt", ClassifiedText));
    var bombModule := DirWith("bomb_module", File("instructions.txt", InstructionsText));
    var logs := DirWith("logs", File("system.log", SystemLogText));
    var r0 := Dir("root", []);
    AddChildWellFormed(r0, missions);
    var r1 := AddChild(r0, missions).value;
    AddChildWellFormed(r1, intel);
    var r2 := AddChild(r1, intel).value;
    AddChildWellFormed(r2, bombModule);
    var r3 := AddChild(r2, bombModule).value;
    AddChildWellFormed(r3, logs);
    AddChild(r3, logs).value
  }

  // ---------------------------------------------------------------- resolver

  /** The walk of `get_node`: follow one name at a time, failing as soon as a name is missing. */
  function Walk(n: FSNode, path: seq<string>): Option<FSNode> {
    if path == [] then Some(n)
    else match Child(n, path[0])
      case None => None
      case Some(c) => Walk(c, path[1..])
  }

  /** `FileSystem.get_node`: the empty path, or one whose first name is "", is the root. */
  function GetNode(root: FSNode, path: seq<string>): Option<FSNode> {
    if path == [] || path[0] == "" then Some(root) else Walk(root, path)
  }

  /** Walking `p + q` is walking `p`, then `q` from where `p` ended. */
  lemma {:induction false} WalkAppend(n: FSNode, p: seq<string>, q: seq<string>)
    ensures Walk(n, p + q) == match Walk(n, p) case None => None case Some(m) => Walk(m, q)
  {
    if p != [] {
      assert (p + q)[0] == p[0] && (p + q)[1..] == p[1..] + q;
      match Child(n, p[0]) {
        case None =>
        case Some(c) => WalkAppend(c, p[1..], q);
      }
    } else {
      assert p + q == q;
    }
  }

  /** The walk fails closed: once a name is missing, no longer path resolves. */
  lemma WalkStopsAtMissing(n: FSNode, path: seq<string>, i: nat, m: FSNode)
    requires i < |path| && Walk(n, path[..i]) == Some(m) && Child(m, path[i]) == None
    ensures Walk(n, path) == None
  {
    WalkAppend(n, path[..i], path[i..]);
    assert path[..i] + path[i..] == path;
  }

  /** Nothing lies below a file: descending through one fails. */
  lemma WalkThroughFileFails(n: FSNode, p: seq<string>, q: seq<string>)
    requires IsFile(Walk(n, p)) && q != []
    ensures Walk(n, p + q) == None
  {
    WalkAppend(n, p, q);
  }

  /** Where `p + [x]` resolves, `p` resolves to the directory holding `x`. */
  lemma GetNodeParent(root: FSNode, p: seq<string>, x: string)
    requires root.Dir? && GetNode(root, p + [x]).Some?
    ensures IsDir(GetNode(root, p))
  {
    if p != [] && p[0] != "" {
      assert (p + [x])[0] == p[0];
      WalkAppend(root, p, [x]);
    }
  }
}
