/**
 * The part of the file system a download touches: the directories it
 * creates and the files it writes, with `os.path.join`, `os.makedirs`,
 * `open(..., 'wb').write`, `os.path.exists` and `shutil.rmtree`.
 */
module Workspace {
  import opened Playlist

  /** `os.path.join(a, b)` on POSIX paths. */
  function PathJoin(a: string, b: string): (p: string)
    ensures b != [] && b[0] == '/' ==> p == b
    ensures (b == [] || b[0] != '/') ==> a <= p
  {
    if b != [] && b[0] == '/' then b
    else if a == [] || a[|a| - 1] == '/' then a + b
    else a + "/" + b
  }

  /** `p` is the directory `d` itself or lies somewhere below it. */
  predicate Within(p: string, d: string) {
    p == d || PathJoin(d, "") <= p
  }

  /** A relative name joined onto a directory lies below that directory. */
  lemma JoinedWithin(d: string, name: string)
    requires name == [] || name[0] != '/'
    ensures Within(PathJoin(d, name), d)
  {
    var p := PathJoin(d, name);
    if d != [] && d[|d| - 1] != '/' {
      assert p == (d + "/") + name;
    }
  }

  /** The directories and files that exist, each file with its contents. */
  class FileSystem {
    var dirs: set<string>
    var files: map<string, Payload>

    constructor (dirs0: set<string>, files0: map<string, Payload>)
      ensures dirs == dirs0 && files == files0
    {
      dirs := dirs0;
      files := files0;
    }

    /** `os.path.exists(p)`. */
    predicate Exists(p: string)
      reads this
    {
      p in dirs || p in files
    }

    /** `os.makedirs(p, exist_ok=True)` (the parents it would also create are not tracked). */
    method MakeDirs(p: string)
      modifies this
      ensures dirs == old(dirs) + {p} && files == old(files)
    {
      dirs := dirs + {p};
    }

    /** Opening `p` for writing and writing `body` replaces whatever `p` held. */
    method WriteFile(p: string, body: Payload)
      modifies this
      ensures files == old(files)[p := body] && dirs == old(dirs)
    {
      files := files[p := body];
    }

    /** `shutil.rmtree(d)`: `d` and everything below it disappear, nothing else changes. */
    method RemoveTree(d: string)
      modifies this
      ensures dirs == set x | x in old(dirs) && !Within(x, d)
      ensures files == map x | x in old(files) && !Within(x, d) :: old(files)[x]
      ensures !Exists(d)
    {
      dirs := set x | x in dirs && !Within(x, d);
      files := map x | x in files && !Within(x, d) :: files[x];
    }
  }
}
