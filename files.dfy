/**
 * The filesystem as the checkpoint code sees it: paths are strings, a regular file holds
 * either plain bytes or a zip archive (abstracted to its member names and their contents),
 * and os.path.join / os.path.basename on such paths.
 */
module Files {

  newtype byte = x: int | 0 <= x < 256

  /** The contents of a regular file. The byte layout of a zip archive is not modelled: an
      archive is its map from member name to member contents. */
  datatype Content = Bytes(data: seq<byte>) | Archive(members: map<string, Content>)

  /** The regular files that exist, by path. */
  type FileMap = map<string, Content>

  /** What os.path.join puts in front of the second component. */
  function JoinPrefix(dir: string): string
  {
    if dir == "" || dir[|dir| - 1] == '/' then dir else dir + "/"
  }

  /** os.path.join(dir, name) for a name that does not start with '/'. */
  function Join(dir: string, name: string): (p: string)
    ensures |p| >= |name| && p[|p| - |name|..] == name
  {
    JoinPrefix(dir) + name
  }

  /** Within one directory, different names give different paths. */
  lemma JoinInjective(dir: string, a: string, b: string)
    requires Join(dir, a) == Join(dir, b)
    ensures a == b
  {
    var n := |JoinPrefix(dir)|;
    assert a == Join(dir, a)[n..];
    assert b == Join(dir, b)[n..];
  }

  /** os.path.basename: what follows the last '/'. */
  function Basename(p: string): (r: string)
    ensures '/' !in r
    ensures |r| <= |p| && r == p[|p| - |r|..]
  {
    if p == [] then []
    else if p[|p| - 1] == '/' then []
    else Basename(p[..|p| - 1]) + [p[|p| - 1]]
  }

  /** The base name is the whole path after its last '/': either it is the whole path, or
      the character before it is a '/'. */
  lemma {:induction false} BasenameIsLastComponent(p: string)
    ensures var r := Basename(p);
      |r| == |p| || p[|p| - |r| - 1] == '/'
  {
    if p != [] && p[|p| - 1] != '/' {
      var q := p[..|p| - 1];
      BasenameIsLastComponent(q);
      assert |Basename(p)| == |Basename(q)| + 1;
      if |Basename(q)| < |q| {
        assert p[|p| - |Basename(p)| - 1] == q[|q| - |Basename(q)| - 1];
      }
    }
  }

  /** The base name of a path built by Join is the name it was built from. */
  lemma BasenameOfJoin(dir: string, name: string)
    requires '/' !in name
    ensures Basename(Join(dir, name)) == name
  {
    BasenameAfterSeparator(JoinPrefix(dir), name);
  }

  /** Appending a character other than '/' appends it to the base name. */
  lemma BasenameSnoc(q: string, c: char)
    requires c != '/'
    ensures Basename(q + [c]) == Basename(q) + [c]
  {
    var p := q + [c];
    assert p[..|p| - 1] == q;
  }

  lemma {:induction false} BasenameAfterSeparator(front: string, name: string)
    requires front == [] || front[|front| - 1] == '/'
    requires '/' !in name
    ensures Basename(front + name) == name
  {
    if name != [] {
      var init, last := name[..|name| - 1], name[|name| - 1];
      assert last in name;
      BasenameAfterSeparator(front, init);
      assert front + name == (front + init) + [last];
      BasenameSnoc(front + init, last);
      assert name == init + [last];
    } else {
      assert front + name == front;
    }
  }

}
