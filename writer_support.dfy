/**
 * What the splittable batch writers (FestVox, Piper, Common Voice) share: each item goes to a
 * sub-directory of the output directory, and the annotation lines of each sub-directory are
 * collected in a dictionary that keeps the order in which the sub-directories first appeared.
 */
module WriterSupport {
  import opened Wrappers
  import opened Text
  import opened Paths
  import opened Records

  /**
   * Where one item goes: the output directory after placeholder expansion, and the split the
   * splitter chose for it (`None` when no splitter is configured).
   */
  datatype Placement = Placement(outputDir: string, split: Option<string>)

  /** The item's sub-directory: the output directory, joined with the split name when there is one. */
  function SubDir(p: Placement): string {
    if p.split.Some? then JoinPath(p.outputDir, p.split.value) else p.outputDir
  }

  /** `os.path.join(sub_dir, self.rel_path, item.audio_name)`: where an item's audio is saved. */
  function AudioTarget(r: Record, p: Placement, relPath: string): string {
    JoinPath3(SubDir(p), relPath, r.audioName)
  }

  /** Where the audio of each item is saved, item after item. */
  function AudioTargets(items: seq<Record>, ps: seq<Placement>, relPath: string): seq<string>
    requires |items| == |ps|
  {
    seq(|items|, k requires 0 <= k < |items| => AudioTarget(items[k], ps[k], relPath))
  }

  /** `saved` holds where the first `i` items' audio went. */
  predicate SavedUpTo(saved: seq<string>, items: seq<Record>, ps: seq<Placement>, relPath: string, i: nat)
    requires |items| == |ps| && i <= |items|
  {
    saved == AudioTargets(items[..i], ps[..i], relPath)
  }

  lemma SavedStep(saved: seq<string>, items: seq<Record>, ps: seq<Placement>, relPath: string, i: nat)
    requires |items| == |ps| && i < |items| && SavedUpTo(saved, items, ps, relPath, i)
    ensures SavedUpTo(saved + [AudioTarget(items[i], ps[i], relPath)], items, ps, relPath, i + 1)
  {
    var next := saved + [AudioTarget(items[i], ps[i], relPath)];
    assert |next| == i + 1;
    forall k | 0 <= k < i + 1
      ensures next[k] == AudioTarget(items[..i + 1][k], ps[..i + 1][k], relPath)
    {
    }
  }

  lemma SavedEnd(saved: seq<string>, items: seq<Record>, ps: seq<Placement>, relPath: string)
    requires |items| == |ps| && SavedUpTo(saved, items, ps, relPath, |items|)
    ensures saved == AudioTargets(items, ps, relPath)
  {
    assert items[..|items|] == items && ps[..|ps|] == ps;
  }

  /** `os.path.splitext(item.audio_name)[0]`: the name an annotation line refers to. */
  function Stem(r: Record): (stem: string)
    ensures StartsWith(r.audioName, stem)
  {
    var stem := Splitext(r.audioName).0;
    assert r.audioName == stem + Splitext(r.audioName).1;
    stem
  }

  /** `self._splits`: a dictionary from sub-directory to its lines, in insertion order. */
  datatype Splits<T> = Splits(order: seq<string>, entries: map<string, seq<T>>)

  /** The insertion order lists every key of the dictionary exactly once. */
  predicate Valid<T>(s: Splits<T>) {
    && (forall i, j :: 0 <= i < j < |s.order| ==> s.order[i] != s.order[j])
    && (forall d :: d in s.entries ==> d in s.order)
    && (forall k :: 0 <= k < |s.order| ==> s.order[k] in s.entries)
  }

  /** `self._splits = dict()`. */
  function NoSplits<T>(): (s: Splits<T>)
    ensures Valid(s) && s.order == [] && s.entries == map[]
  {
    Splits([], map[])
  }

  /** The lines collected so far for `dir`; none when it is not registered. */
  function LinesOf<T>(s: Splits<T>, dir: string): seq<T> {
    if dir in s.entries then s.entries[dir] else []
  }

  /** What one item contributes: its sub-directory, and its line when it is annotated. */
  datatype Entry<T> = Entry(dir: string, line: Option<T>)

  /**
   * `if sub_dir not in self._splits: self._splits[sub_dir] = []`, then the line is appended
   * when there is one.
   */
  function Add<T>(s: Splits<T>, e: Entry<T>): (r: Splits<T>)
    ensures Valid(s) ==> Valid(r)
    ensures r.order == (if e.dir in s.entries then s.order else s.order + [e.dir])
    ensures r.entries.Keys == s.entries.Keys + {e.dir}
    ensures LinesOf(r, e.dir) == LinesOf(s, e.dir) + (if e.line.Some? then [e.line.value] else [])
    ensures forall d :: d != e.dir ==> LinesOf(r, d) == LinesOf(s, d)
  {
    var registered := if e.dir in s.entries then s else Splits(s.order + [e.dir], s.entries[e.dir := []]);
    assert Valid(s) ==> Valid(registered) by {
      if Valid(s) && e.dir !in s.entries {
        var o := registered.order;
        forall k | 0 <= k < |o| ensures o[k] in registered.entries {
          if k < |s.order| {
            assert o[k] == s.order[k];
          }
        }
      }
    }
    if e.line.Some? then
      registered.(entries := registered.entries[e.dir := registered.entries[e.dir] + [e.line.value]])
    else registered
  }

  /** The dictionary after the items of a batch, in order. */
  function Accumulate<T>(s: Splits<T>, es: seq<Entry<T>>): Splits<T>
    decreases |es|
  {
    if |es| == 0 then s else Accumulate(Add(s, es[0]), es[1..])
  }

  /** The lines the entries contribute to `dir`, in arrival order. */
  function LinesFor<T>(es: seq<Entry<T>>, dir: string): seq<T> {
    if |es| == 0 then []
    else (if es[0].dir == dir && es[0].line.Some? then [es[0].line.value] else []) + LinesFor(es[1..], dir)
  }

  /** The sub-directories the entries go to. */
  function Dirs<T>(es: seq<Entry<T>>): set<string> {
    set k | 0 <= k < |es| :: es[k].dir
  }

  lemma AccumulateUnfold<T>(s: Splits<T>, es: seq<Entry<T>>, i: int)
    requires 0 <= i < |es|
    ensures Accumulate(s, es[i..]) == Accumulate(Add(s, es[i]), es[i + 1..])
  {
    assert es[i..][0] == es[i];
    assert es[i..][1..] == es[i + 1..];
  }

  /** Adding what is left of `es` from position `i` on to `acc` gives what adding all of `es` to `s` gives. */
  ghost predicate AccumulatesTo<T>(s: Splits<T>, acc: Splits<T>, es: seq<Entry<T>>, i: nat)
    requires i <= |es|
  {
    Accumulate(acc, es[i..]) == Accumulate(s, es)
  }

  lemma AccumulateStart<T>(s: Splits<T>, es: seq<Entry<T>>)
    ensures AccumulatesTo(s, s, es, 0)
  {
    assert es[0..] == es;
  }

  lemma AccumulateStep<T>(s: Splits<T>, acc: Splits<T>, es: seq<Entry<T>>, i: nat, e: Entry<T>)
    requires i < |es| && es[i] == e && AccumulatesTo(s, acc, es, i)
    ensures AccumulatesTo(s, Add(acc, e), es, i + 1)
  {
    AccumulateUnfold(acc, es, i);
  }

  lemma AccumulateEnd<T>(s: Splits<T>, acc: Splits<T>, es: seq<Entry<T>>)
    requires AccumulatesTo(s, acc, es, |es|)
    ensures acc == Accumulate(s, es)
  {
    assert es[|es|..] == [];
  }

  /**
   * What the items of a batch add to the dictionary, in order, when `entryOf` says what one
   * item adds: the writer's own line for it.
   */
  function ItemEntries<T>(items: seq<Record>, ps: seq<Placement>, entryOf: (Record, Placement) -> Entry<T>): (es: seq<Entry<T>>)
    requires |items| == |ps|
    ensures |es| == |items|
    ensures forall k :: 0 <= k < |items| ==> es[k] == entryOf(items[k], ps[k])
  {
    if |items| == 0 then []
    else
      var rest := ItemEntries(items[1..], ps[1..], entryOf);
      assert forall k :: 1 <= k < |items| ==> items[1..][k - 1] == items[k] && ps[1..][k - 1] == ps[k];
      [entryOf(items[0], ps[0])] + rest
  }

  /**
   * The loop of `write_batch` of a writer that never raises, from the dictionary `s` before
   * the batch: each item's audio is saved unless only annotations are written, and what
   * `entryOf` gives for the item is registered.
   */
  method WriteItemEntries<T>(s: Splits<T>, items: seq<Record>, ps: seq<Placement>, relPath: string, annotationsOnly: bool,
                             entryOf: (Record, Placement) -> Entry<T>)
    returns (acc: Splits<T>, saved: seq<string>)
    requires |ps| == |items|
    ensures acc == Accumulate(s, ItemEntries(items, ps, entryOf))
    ensures annotationsOnly ==> saved == []
    ensures !annotationsOnly ==> saved == AudioTargets(items, ps, relPath)
  {
    ghost var es := ItemEntries(items, ps, entryOf);
    acc := s;
    saved := [];
    var i := 0;
    AccumulateStart(s, es);
    while i < |items|
      invariant 0 <= i <= |items|
      invariant AccumulatesTo(s, acc, es, i)
      invariant annotationsOnly ==> saved == []
      invariant !annotationsOnly ==> SavedUpTo(saved, items, ps, relPath, i)
    {
      acc, saved := WriteItemEntry(s, acc, saved, es, items, ps, i, relPath, annotationsOnly, entryOf);
      i := i + 1;
    }
    AccumulateEnd(s, acc, es);
    if !annotationsOnly {
      SavedEnd(saved, items, ps, relPath);
    }
  }

  /** One pass of the loop of `WriteItemEntries`: the `i`-th item is saved and registered. */
  method WriteItemEntry<T>(ghost s: Splits<T>, acc: Splits<T>, saved: seq<string>, ghost es: seq<Entry<T>>,
                           items: seq<Record>, ps: seq<Placement>, i: nat, relPath: string, annotationsOnly: bool,
                           entryOf: (Record, Placement) -> Entry<T>)
    returns (acc': Splits<T>, saved': seq<string>)
    requires |ps| == |items| && i < |items| && es == ItemEntries(items, ps, entryOf)
    requires AccumulatesTo(s, acc, es, i)
    requires annotationsOnly ==> saved == []
    requires !annotationsOnly ==> SavedUpTo(saved, items, ps, relPath, i)
    ensures AccumulatesTo(s, acc', es, i + 1)
    ensures annotationsOnly ==> saved' == []
    ensures !annotationsOnly ==> SavedUpTo(saved', items, ps, relPath, i + 1)
  {
    saved' := saved;
    if !annotationsOnly {
      SavedStep(saved, items, ps, relPath, i);
      saved' := saved + [AudioTarget(items[i], ps[i], relPath)];
    }
    var e := entryOf(items[i], ps[i]);
    AccumulateStep(s, acc, es, i, e);
    acc' := Add(acc, e);
  }

  /** Accumulating keeps the insertion order consistent with the dictionary. */
  lemma {:induction false} AccumulateValid<T>(s: Splits<T>, es: seq<Entry<T>>)
    requires Valid(s)
    ensures Valid(Accumulate(s, es))
    decreases |es|
  {
    if |es| > 0 {
      AccumulateValid(Add(s, es[0]), es[1..]);
    }
  }

  /**
   * Every sub-directory an item went to is registered, annotated or not, and no other one is
   * added; the sub-directories registered before keep their place at the front.
   */
  lemma {:induction false} AccumulateDirs<T>(s: Splits<T>, es: seq<Entry<T>>)
    ensures Accumulate(s, es).entries.Keys == s.entries.Keys + Dirs(es)
    ensures s.order <= Accumulate(s, es).order
    decreases |es|
  {
    if |es| > 0 {
      var added := Add(s, es[0]);
      AccumulateDirs(added, es[1..]);
      DirsCons(es);
      assert added.entries.Keys == s.entries.Keys + {es[0].dir};
      assert s.order <= added.order;
    }
  }

  lemma DirsCons<T>(es: seq<Entry<T>>)
    requires |es| > 0
    ensures Dirs(es) == {es[0].dir} + Dirs(es[1..])
  {
    forall d | d in Dirs(es) ensures d in {es[0].dir} + Dirs(es[1..]) {
      var k :| 0 <= k < |es| && es[k].dir == d;
      if k > 0 {
        assert es[1..][k - 1].dir == d;
      }
    }
    forall d | d in Dirs(es[1..]) ensures d in Dirs(es) {
      var k :| 0 <= k < |es[1..]| && es[1..][k].dir == d;
      assert es[k + 1].dir == d;
    }
  }

  /** The lines of each sub-directory are the earlier ones followed by the new ones, in arrival order. */
  lemma {:induction false} AccumulateLines<T>(s: Splits<T>, es: seq<Entry<T>>, dir: string)
    ensures LinesOf(Accumulate(s, es), dir) == LinesOf(s, dir) + LinesFor(es, dir)
    decreases |es|
  {
    if |es| > 0 {
      var added := Add(s, es[0]);
      AccumulateLines(added, es[1..], dir);
      var own: seq<T> := if es[0].dir == dir && es[0].line.Some? then [es[0].line.value] else [];
      assert LinesOf(added, dir) == LinesOf(s, dir) + own;
      assert LinesFor(es, dir) == own + LinesFor(es[1..], dir);
      SeqAssoc(LinesOf(s, dir), own, LinesFor(es[1..], dir));
    }
  }

  /** Each line followed by "\n", as `fp.write(line); fp.write("\n")` produces it. */
  lemma {:induction false} JoinLinesAppend(lines: seq<string>, line: string)
    ensures JoinLines(lines + [line]) == JoinLines(lines) + line + "\n"
  {
    if |lines| > 0 {
      assert (lines + [line])[1..] == lines[1..] + [line];
      JoinLinesAppend(lines[1..], line);
    } else {
      assert [line][1..] == [];
    }
  }

  /** The text of a file that gets `line` and "\n" written for each line. */
  method WriteLines(lines: seq<string>) returns (text: string)
    ensures text == JoinLines(lines)
  {
    text := "";
    var i := 0;
    while i < |lines|
      invariant 0 <= i <= |lines|
      invariant text == JoinLines(lines[..i])
    {
      JoinLinesAppend(lines[..i], lines[i]);
      assert lines[..i + 1] == lines[..i] + [lines[i]];
      text := text + lines[i] + "\n";
      i := i + 1;
    }
    assert lines[..i] == lines;
  }

  /** One file written: its path and its whole content. */
  datatype Written = Written(path: string, content: string)

  /**
   * The manifest files `finalize` writes, one per sub-directory in insertion order: the
   * sub-directory's lines, each followed by "\n", in the file `fileName` inside it.
   */
  function Manifests(order: seq<string>, entries: map<string, seq<string>>, fileName: string): (files: seq<Written>)
    requires forall k :: 0 <= k < |order| ==> order[k] in entries
    ensures |files| == |order|
  {
    if |order| == 0 then []
    else [Written(JoinPath(order[0], fileName), JoinLines(entries[order[0]]))] + Manifests(order[1..], entries, fileName)
  }

  /** The `k`-th manifest belongs to the `k`-th sub-directory and holds its lines. */
  lemma {:induction false} ManifestAt(order: seq<string>, entries: map<string, seq<string>>, fileName: string, k: nat)
    requires forall i :: 0 <= i < |order| ==> order[i] in entries
    requires k < |order|
    ensures Manifests(order, entries, fileName)[k] == Written(JoinPath(order[k], fileName), JoinLines(entries[order[k]]))
  {
    if k > 0 {
      ManifestAt(order[1..], entries, fileName, k - 1);
      assert order[1..][k - 1] == order[k];
    }
  }

  lemma ManifestsUnfold(order: seq<string>, entries: map<string, seq<string>>, fileName: string, i: nat)
    requires forall k :: 0 <= k < |order| ==> order[k] in entries
    requires i < |order|
    ensures Manifests(order[i..], entries, fileName)
         == [Written(JoinPath(order[i], fileName), JoinLines(entries[order[i]]))] + Manifests(order[i + 1..], entries, fileName)
  {
    assert order[i..][0] == order[i];
    assert order[i..][1..] == order[i + 1..];
  }

  /** The loop of `finalize` over the dictionary. */
  method WriteManifests(s: Splits<string>, fileName: string) returns (files: seq<Written>)
    requires Valid(s)
    ensures files == Manifests(s.order, s.entries, fileName)
  {
    files := [];
    var i := 0;
    while i < |s.order|
      invariant 0 <= i <= |s.order|
      invariant files + Manifests(s.order[i..], s.entries, fileName) == Manifests(s.order, s.entries, fileName)
    {
      var dir := s.order[i];
      var text := WriteLines(s.entries[dir]);
      var file := Written(JoinPath(dir, fileName), text);
      ManifestsUnfold(s.order, s.entries, fileName, i);
      SeqAssoc(files, [file], Manifests(s.order[i + 1..], s.entries, fileName));
      files := files + [file];
      i := i + 1;
    }
  }
}
