/** The `os.path` functions (POSIX flavour) used to derive file names and locations. */
module Paths {
  import opened Text

  /** Index of the last `c` in `s`, or -1: Python's `s.rfind(c)`. */
  function LastIndexOf(s: string, c: char): (i: int)
    ensures -1 <= i < |s|
    ensures i >= 0 ==> s[i] == c
    ensures forall k :: i < k < |s| ==> s[k] != c
  {
    if |s| == 0 then -1
    else if s[|s| - 1] == c then |s| - 1
    else LastIndexOf(s[..|s| - 1], c)
  }

  /** `os.path.join(a, b)`: an absolute `b` replaces `a`; otherwise one "/" is put between them when needed. */
  function JoinPath(a: string, b: string): string {
    if StartsWith(b, "/") then b
    else if a == "" || EndsWith(a, "/") then a + b
    else a + "/" + b
  }

  /** `os.path.join(a, b, c)`. */
  function JoinPath3(a: string, b: string, c: string): string {
    JoinPath(JoinPath(a, b), c)
  }

  /** `os.path.basename(p)`: everything after the last "/". */
  function Basename(p: string): (b: string)
    ensures '/' !in b
    ensures EndsWith(p, b)
  {
    var i := LastIndexOf(p, '/');
    var b := p[i + 1..];
    assert forall k | 0 <= k < |b| :: b[k] != '/' by {
      forall k | 0 <= k < |b| ensures b[k] != '/' {
        assert b[k] == p[i + 1 + k];
      }
    }
    b
  }

  /** `s` with its trailing "/" characters removed. */
  function StripTrailingSlashes(s: string): (r: string)
    ensures |r| <= |s| && r == s[..|r|]
  {
    if |s| > 0 && s[|s| - 1] == '/' then StripTrailingSlashes(s[..|s| - 1]) else s
  }

  /** `os.path.dirname(p)`: everything before the last "/", without trailing slashes unless it is all slashes. */
  function Dirname(p: string): string {
    var head := p[..LastIndexOf(p, '/') + 1];
    if head != "" && (exists k | 0 <= k < |head| :: head[k] != '/') then StripTrailingSlashes(head) else head
  }

  /** The final component of a joined path is the joined name, when that name holds no "/". */
  lemma BasenameJoin(a: string, name: string)
    requires '/' !in name
    ensures Basename(JoinPath(a, name)) == name
  {
    var p := JoinPath(a, name);
    var i := LastIndexOf(p, '/');
    var start := |p| - |name|;
    assert p[start..] == name;
    assert start == 0 || p[start - 1] == '/';
    if start > 0 {
      assert i == start - 1;
    }
  }

  /** The component of `p` after its last "/". */
  function FinalComponentStart(p: string): nat {
    LastIndexOf(p, '/') + 1
  }

  /** Some character of `p[lo..hi]` is not a ".". */
  predicate HasNonDot(p: string, lo: int, hi: int)
    requires 0 <= lo && hi <= |p|
  {
    exists k | lo <= k < hi :: p[k] != '.'
  }

  /**
   * `os.path.splitext(p)`: the extension starts at the last "." of the final path
   * component, and only when some character other than "." comes before it in that component.
   */
  function Splitext(p: string): (r: (string, string))
    ensures r.0 + r.1 == p
    ensures r.1 == "" || (r.1[0] == '.' && '/' !in r.1 && '.' !in r.1[1..])
  {
    var sep := LastIndexOf(p, '/');
    var dot := LastIndexOf(p, '.');
    if dot > sep && HasNonDot(p, sep + 1, dot) then
      var ext := p[dot..];
      assert forall k | 0 <= k < |ext| :: ext[k] != '/' by {
        forall k | 0 <= k < |ext| ensures ext[k] != '/' {
          assert ext[k] == p[dot + k];
        }
      }
      assert forall k | 1 <= k < |ext| :: ext[k] != '.' by {
        forall k | 1 <= k < |ext| ensures ext[k] != '.' {
          assert ext[k] == p[dot + k];
        }
      }
      assert '.' !in ext[1..] by {
        forall k | 0 <= k < |ext[1..]| ensures ext[1..][k] != '.' {
          assert ext[1..][k] == ext[k + 1];
        }
      }
      (p[..dot], ext)
    else (p, "")
  }

  /** `os.path.splitext(p)[0] + ext`: the name with its extension replaced. */
  function WithExtension(p: string, ext: string): string {
    Splitext(p).0 + ext
  }

  /**
   * When `Splitext` finds an extension: exactly when the final component holds a "." with a
   * character other than "." somewhere before it.
   */
  lemma SplitextFindsExtension(p: string)
    ensures Splitext(p).1 != "" <==>
      exists i, k | FinalComponentStart(p) <= k < i < |p| :: p[i] == '.' && p[k] != '.'
  {
    var sep := LastIndexOf(p, '/');
    var dot := LastIndexOf(p, '.');
    if exists i, k | sep + 1 <= k < i < |p| :: p[i] == '.' && p[k] != '.' {
      var i, k :| sep + 1 <= k < i < |p| && p[i] == '.' && p[k] != '.';
      assert dot >= i;
      assert HasNonDot(p, sep + 1, dot);
    }
  }

  /**
   * The files on disk, by path, with their text. `os.path.exists` holds of exactly these
   * paths; what a path holds matters only where a reader opens it.
   */
  datatype FileSystem = FileSystem(files: map<string, string>) {
    predicate Exists(p: string) {
      p in files
    }
  }
}
