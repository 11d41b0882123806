/** The path helpers of the API: suffix stripping and locating the files that belong to an input. */
module Utils {
  import opened Wrappers
  import opened Text
  import opened Paths

  /** `strip_suffix(path, suffix)`: a None or empty suffix is ignored. */
  function StripSuffix(path: string, suffix: Option<string>): (r: string)
    ensures suffix.None? || suffix == Some("") ==> r == path
    ensures suffix.Some? && suffix.value != "" && EndsWith(path, suffix.value) ==> r + suffix.value == path
    ensures suffix.Some? && !EndsWith(path, suffix.value) ==> r == path
  {
    if suffix.Some? && suffix.value != "" && EndsWith(path, suffix.value) then
      assert path[..|path| - |suffix.value|] + suffix.value == path;
      path[..|path| - |suffix.value|]
    else path
  }

  /** The path `locate_file` starts from: with `rel_path`, it goes between directory and file name. */
  function RelocatedPath(path: string, relPath: Option<string>): (r: string)
    ensures relPath.None? ==> r == path
    ensures relPath.Some? ==> r == JoinPath(JoinPath(Dirname(path), relPath.value), Basename(path))
    ensures Basename(r) == Basename(path)
  {
    if relPath.Some? then
      BasenameJoin(JoinPath(Dirname(path), relPath.value), Basename(path));
      JoinPath3(Dirname(path), relPath.value, Basename(path))
    else path
  }

  /** The path without suffix and extension, to which each candidate extension is appended. */
  function NoExt(path: string, relPath: Option<string>, suffix: Option<string>): string {
    Splitext(StripSuffix(RelocatedPath(path, relPath), suffix)).0
  }

  /** The paths `locate_file` tries, one per extension, in the order of the extensions. */
  function Candidates(noext: string, exts: seq<string>): (c: seq<string>)
    ensures |c| == |exts|
    ensures forall i :: 0 <= i < |exts| ==> c[i] == noext + exts[i]
  {
    Map(e => noext + e, exts)
  }

  /** The candidates that exist, in order. */
  function Existing(fs: FileSystem, cands: seq<string>): seq<string> {
    if |cands| == 0 then []
    else if fs.Exists(cands[0]) then [cands[0]] + Existing(fs, cands[1..])
    else Existing(fs, cands[1..])
  }

  /** `a` is `b` with some elements left out, the others in their order. */
  predicate IsSubsequence(a: seq<string>, b: seq<string>)
    decreases |b|
  {
    if |a| == 0 then true
    else if |b| == 0 then false
    else if a[0] == b[0] then IsSubsequence(a[1..], b[1..])
    else IsSubsequence(a, b[1..])
  }

  /** The located files are exactly the existing candidates, in candidate order. */
  lemma {:induction false} ExistingSpec(fs: FileSystem, cands: seq<string>)
    ensures forall x :: x in Existing(fs, cands) <==> x in cands && fs.Exists(x)
    ensures IsSubsequence(Existing(fs, cands), cands)
  {
    if |cands| > 0 {
      ExistingSpec(fs, cands[1..]);
      assert cands == [cands[0]] + cands[1..];
      var rest := Existing(fs, cands[1..]);
      if fs.Exists(cands[0]) {
        assert ([cands[0]] + rest)[1..] == rest;
      } else {
        SubsequenceOfTail(rest, cands);
      }
    }
  }

  /** A subsequence of the tail of `b` is a subsequence of `b`. */
  lemma {:induction false} SubsequenceOfTail(a: seq<string>, b: seq<string>)
    requires |b| > 0 && IsSubsequence(a, b[1..])
    ensures IsSubsequence(a, b)
    decreases |b|, 0
  {
    if |a| > 0 && a[0] == b[0] {
      SubsequenceDrop(a, b[1..]);
    }
  }

  /** Dropping the first element of `a` keeps it a subsequence. */
  lemma {:induction false} SubsequenceDrop(a: seq<string>, b: seq<string>)
    requires |a| > 0 && IsSubsequence(a, b)
    ensures IsSubsequence(a[1..], b)
    decreases |b|, 1
  {
    if |b| > 0 {
      if a[0] == b[0] {
        SubsequenceOfTail(a[1..], b);
      } else {
        SubsequenceDrop(a, b[1..]);
        SubsequenceOfTail(a[1..], b);
      }
    }
  }

  /** `Existing` one candidate at a time. */
  lemma ExistingCons(fs: FileSystem, cands: seq<string>, i: nat)
    requires i < |cands|
    ensures Existing(fs, cands[i..]) ==
      (if fs.Exists(cands[i]) then [cands[i]] else []) + Existing(fs, cands[i + 1..])
  {
    assert cands[i..][0] == cands[i] && cands[i..][1..] == cands[i + 1..];
  }

  /** `locate_file(path, ext, rel_path, suffix)`. */
  method LocateFile(path: string, exts: seq<string>, relPath: Option<string>, suffix: Option<string>,
                    fs: FileSystem) returns (result: seq<string>)
    ensures result == Existing(fs, Candidates(NoExt(path, relPath, suffix), exts))
  {
    var p := path;
    if relPath.Some? {
      var parentPath := Dirname(p);
      var name := Basename(p);
      p := JoinPath3(parentPath, relPath.value, name);
    }
    p := StripSuffix(p, suffix);
    var noext := Splitext(p).0;
    ghost var cands := Candidates(noext, exts);
    result := [];
    var i := 0;
    assert noext == NoExt(path, relPath, suffix) by {
      assert p == StripSuffix(RelocatedPath(path, relPath), suffix);
    }
    assert cands[0..] == cands;
    while i < |exts|
      invariant 0 <= i <= |exts|
      invariant Existing(fs, cands) == result + Existing(fs, cands[i..])
    {
      ExistingCons(fs, cands, i);
      var current := noext + exts[i];
      assert current == cands[i];
      if fs.Exists(current) {
        result := result + [current];
      }
      i := i + 1;
    }
    assert cands[i..] == [];
  }

  /** `locate_audio`'s extensions, in the order they are tried. */
  const AudioExtensions: seq<string> := [".mp3", ".MP3", ".wav", ".WAV"]

  /** The first existing audio file, if any. */
  function AudioLocation(path: string, relPath: Option<string>, suffix: Option<string>, fs: FileSystem): Option<string> {
    var found := Existing(fs, Candidates(NoExt(path, relPath, suffix), AudioExtensions));
    if |found| == 0 then None else Some(found[0])
  }

  /** `locate_audio(path, rel_path, suffix)`. */
  method LocateAudio(path: string, relPath: Option<string>, suffix: Option<string>, fs: FileSystem)
    returns (r: Option<string>)
    ensures r == AudioLocation(path, relPath, suffix, fs)
  {
    var audioFiles := LocateFile(path, AudioExtensions, relPath, suffix, fs);
    if |audioFiles| == 0 {
      r := None;
    } else {
      r := Some(audioFiles[0]);
    }
  }

  /**
   * The audio file is the first of `.mp3`, `.MP3`, `.wav`, `.WAV` that exists next to the
   * stem, and there is none exactly when none of the four exists.
   */
  lemma AudioLocationOrder(path: string, relPath: Option<string>, suffix: Option<string>, fs: FileSystem)
    ensures var n := NoExt(path, relPath, suffix);
      AudioLocation(path, relPath, suffix, fs) ==
        if fs.Exists(n + ".mp3") then Some(n + ".mp3")
        else if fs.Exists(n + ".MP3") then Some(n + ".MP3")
        else if fs.Exists(n + ".wav") then Some(n + ".wav")
        else if fs.Exists(n + ".WAV") then Some(n + ".WAV")
        else None
  {
    var n := NoExt(path, relPath, suffix);
    var c := Candidates(n, AudioExtensions);
    FirstOfFour(fs, c);
  }

  /** The first existing one of four candidates. */
  lemma FirstOfFour(fs: FileSystem, c: seq<string>)
    requires |c| == 4
    ensures var found := Existing(fs, c);
      (if |found| == 0 then None else Some(found[0])) ==
        if fs.Exists(c[0]) then Some(c[0])
        else if fs.Exists(c[1]) then Some(c[1])
        else if fs.Exists(c[2]) then Some(c[2])
        else if fs.Exists(c[3]) then Some(c[3])
        else None
  {
    ExistingCons(fs, c, 0);
    ExistingCons(fs, c, 1);
    ExistingCons(fs, c, 2);
    ExistingCons(fs, c, 3);
    assert c[0..] == c && c[4..] == [];
  }

  /**
   * The format check of `load_function(function)`: a spec without ":" is rejected before
   * anything is imported, and the spec must split into exactly a module and a function name.
   */
  function ParseFunctionSpec(spec: string): (r: Result<(string, string)>)
    ensures ':' !in spec ==> r == Err("Expected format 'module_name:function_name' but got: " + spec)
    ensures r.Ok? ==> r.value.0 + [':'] + r.value.1 == spec && ':' !in r.value.0 && ':' !in r.value.1
  {
    if ':' !in spec then Err("Expected format 'module_name:function_name' but got: " + spec)
    else
      var parts := Split(spec, ':');
      if |parts| != 2 then Err("too many values to unpack (expected 2)")
      else
        JoinSplit(spec, ':');
        assert Join(parts, ':') == parts[0] + [':'] + Join(parts[1..], ':');
        Ok((parts[0], parts[1]))
  }

  /** Every spec made of two colon-free names joined by ":" is accepted and split back into them. */
  lemma ParseFunctionSpecAccepts(m: string, f: string)
    requires ':' !in m && ':' !in f
    ensures ParseFunctionSpec(m + [':'] + f) == Ok((m, f))
  {
    var spec := m + [':'] + f;
    assert spec[|m|] == ':';
    SplitFirst(m, ':', f);
    SplitNoSep(f, ':');
  }
}
