/** The part of the host's filesystem the core touches, as a value:
    the directories that exist and the text of each file. */
module Files {

  datatype Fs = Fs(dirs: set<string>, files: map<string, string>)

  predicate EndsWithSlash(a: string) {
    |a| > 0 && a[|a| - 1] == '/'
  }

  /** POSIX `os.path.join(a, b)` for two components. */
  function JoinPath(a: string, b: string): (p: string)
    ensures |b| > 0 && b[0] != '/' ==> |p| > |a| && p[..|a|] == a
  {
    if |b| > 0 && b[0] == '/' then b
    else if a == "" || EndsWithSlash(a) then a + b
    else a + "/" + b
  }

  /** `os.path.exists(p)`. */
  predicate Exists(fs: Fs, p: string) {
    p in fs.dirs || p in fs.files
  }

  /** `os.path.isdir(p)`. */
  predicate IsDir(fs: Fs, p: string) {
    p in fs.dirs
  }

  function MkDir(fs: Fs, p: string): Fs {
    fs.(dirs := fs.dirs + {p})
  }

  function WriteFile(fs: Fs, p: string, content: string): Fs {
    fs.(files := fs.files[p := content])
  }

  /** Path `p` is `dir` itself or lies below it. */
  predicate Under(p: string, dir: string) {
    p == dir || (|dir| < |p| && p[..|dir| + 1] == dir + "/")
  }

  /** `shutil.rmtree(dir)` on an existing directory: `dir` and everything
      below it disappear, everything else stays. */
  function RemoveTree(fs: Fs, dir: string): (r: Fs)
    ensures forall p :: p in r.files <==> p in fs.files && !Under(p, dir)
    ensures forall p :: p in r.files ==> r.files[p] == fs.files[p]
    ensures forall d :: d in r.dirs <==> d in fs.dirs && !Under(d, dir)
  {
    Fs(set d | d in fs.dirs && !Under(d, dir),
       map p | p in fs.files && !Under(p, dir) :: fs.files[p])
  }
}
