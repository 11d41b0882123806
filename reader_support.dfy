/**
 * What the readers have in common: the records a `read()` generator yields, the text of an
 * input file, and the list of inputs consumed from the front.
 */
module ReaderSupport {
  import opened Wrappers
  import opened Text
  import opened Paths
  import opened Records

  /**
   * What one `read()` generator produces: the values it yields in order (a missing audio file
   * yields `None` before its record), and the exception that ended it early, if any.
   */
  datatype Outcome = Outcome(yielded: seq<Option<Record>>, error: Option<string>)

  /** The yields for one record: a `None` first when its audio file was not found. */
  function Emit(audioFound: bool, r: Record): (ys: seq<Option<Record>>)
    ensures |ys| == (if audioFound then 1 else 2)
    ensures ys[|ys| - 1] == Some(r)
    ensures !audioFound ==> ys[0] == None
  {
    (if audioFound then [] else [None]) + [Some(r)]
  }

  /** `o` preceded by values already yielded. */
  function Prepend(ys: seq<Option<Record>>, o: Outcome): Outcome {
    o.(yielded := ys + o.yielded)
  }

  lemma PrependTwice(a: seq<Option<Record>>, b: seq<Option<Record>>, o: Outcome)
    ensures Prepend(a, Prepend(b, o)) == Prepend(a + b, o)
  {
    assert a + (b + o.yielded) == (a + b) + o.yielded;
  }

  /** A loop that yields `added` keeps `whole` as what it yielded followed by what is `left`. */
  lemma PrependStep(whole: Outcome, yielded: seq<Option<Record>>, left: Outcome, added: seq<Option<Record>>, rest: Outcome)
    requires whole == Prepend(yielded, left) && left == Prepend(added, rest)
    ensures whole == Prepend(yielded + added, rest)
  {
    PrependTwice(yielded, added, rest);
  }

  /** The records among the yielded values, in order. */
  function RecordsOf(ys: seq<Option<Record>>): (rs: seq<Record>)
    ensures |rs| <= |ys|
  {
    if |ys| == 0 then []
    else (if ys[0].Some? then [ys[0].value] else []) + RecordsOf(ys[1..])
  }

  lemma {:induction false} RecordsOfAppend(a: seq<Option<Record>>, b: seq<Option<Record>>)
    ensures RecordsOf(a + b) == RecordsOf(a) + RecordsOf(b)
  {
    if |a| == 0 {
      assert a + b == b;
    } else {
      var ab := a + b;
      assert ab[0] == a[0];
      assert ab[1..] == a[1..] + b;
      RecordsOfAppend(a[1..], b);
      var head := if a[0].Some? then [a[0].value] else [];
      assert RecordsOf(ab) == head + RecordsOf(a[1..] + b);
      assert RecordsOf(a) == head + RecordsOf(a[1..]);
    }
  }

  /** Whatever `Emit` yields, exactly one record is among it. */
  lemma RecordsOfEmit(audioFound: bool, r: Record)
    ensures RecordsOf(Emit(audioFound, r)) == [r]
  {
    var ys := Emit(audioFound, r);
    if !audioFound {
      assert ys[1..] == [Some(r)];
    }
  }

  /** `open(path)` of a file that is not there. */
  function MissingFile(path: string): string {
    "No such file or directory: " + path
  }

  /** `"".join(open(path).readlines())`: the file's text with universal newlines. */
  function ReadText(fs: FileSystem, path: string): (r: Result<string>)
    ensures r.Ok? <==> fs.Exists(path)
    ensures r.Ok? ==> '\r' !in r.value
  {
    if fs.Exists(path) then Ok(TranslateNewlines(fs.files[path])) else Err(MissingFile(path))
  }

  /** The text of a file opened with `newline=''`: line ends are kept as they are. */
  function ReadRaw(fs: FileSystem, path: string): (r: Result<string>)
    ensures r.Ok? <==> fs.Exists(path)
    ensures r.Ok? ==> r.value == fs.files[path]
  {
    if fs.Exists(path) then Ok(fs.files[path]) else Err(MissingFile(path))
  }

  /** What `readline()` returns on a file opened with `newline=''`: the first line with its end. */
  function FirstLine(s: string): (r: string)
    ensures StartsWith(s, r)
    ensures r == s || (|r| > 0 && IsBreak(r[|r| - 1]))
  {
    if |s| == 0 then ""
    else if s[0] == '\n' then "\n"
    else if s[0] == '\r' then (if |s| > 1 && s[1] == '\n' then "\r\n" else "\r")
    else [s[0]] + FirstLine(s[1..])
  }

  /** A header line followed by "\n" or "\r\n" is what `readline()` gives back. */
  lemma {:induction false} FirstLineOf(h: string, lineEnd: string, rest: string)
    requires NoBreaks(h)
    requires lineEnd == "\n" || lineEnd == "\r\n"
    ensures FirstLine(h + lineEnd + rest) == h + lineEnd
  {
    if |h| > 0 {
      assert (h + lineEnd + rest)[1..] == h[1..] + lineEnd + rest;
      FirstLineOf(h[1..], lineEnd, rest);
      assert [h[0]] + (h[1..] + lineEnd) == h + lineEnd;
    } else {
      assert h + lineEnd + rest == lineEnd + rest;
    }
  }

  /** `f` of each element of `xs` before the first one `ok` rejects, in order. */
  function MapWhile<T(!new), U>(xs: seq<T>, ok: T -> bool, f: T --> U): seq<U>
    requires forall x :: ok(x) ==> f.requires(x)
  {
    if |xs| == 0 || !ok(xs[0]) then [] else [f(xs[0])] + MapWhile(xs[1..], ok, f)
  }

  /**
   * One value per element, in order, for the elements before the first one `ok` rejects,
   * and none after it.
   */
  lemma {:induction false} MapWhileAt<T(!new), U>(xs: seq<T>, ok: T -> bool, f: T --> U)
    requires forall x :: ok(x) ==> f.requires(x)
    ensures var ys := MapWhile(xs, ok, f);
      && |ys| <= |xs|
      && (forall k :: 0 <= k < |ys| ==> ok(xs[k]) && ys[k] == f(xs[k]))
      && (|ys| < |xs| ==> !ok(xs[|ys|]))
  {
    if |xs| > 0 && ok(xs[0]) {
      MapWhileAt(xs[1..], ok, f);
      var rest := MapWhile(xs[1..], ok, f);
      var ys := MapWhile(xs, ok, f);
      forall k | 1 <= k < |ys|
        ensures ok(xs[k]) && ys[k] == f(xs[k])
      {
        assert ys[k] == rest[k - 1] && xs[1..][k - 1] == xs[k];
      }
      if |ys| < |xs| {
        assert xs[1..][|rest|] == xs[|ys|];
      }
    }
  }

  /** `row[name]` of a `csv.DictReader` row: `None` for a column the row does not reach. */
  function Column(fields: seq<string>, i: nat): (v: Option<string>)
    ensures v.Some? <==> i < |fields|
    ensures v.Some? ==> v.value == fields[i]
  {
    if i < |fields| then Some(fields[i]) else None
  }

  function AsValue(v: Option<string>): (r: Value)
    ensures v.Some? ==> r == Str(v.value)
    ensures v.None? ==> r == Nil
  {
    match v
    case Some(s) => Str(s)
    case None => Nil
  }

  /** `list.pop(0)` on an empty list. */
  const EmptyPop: string := "pop from empty list"

  /** `locate_files(..., fail_if_empty=True)` finding nothing. */
  const NoInputs: string := "Failed to locate any files"
}
