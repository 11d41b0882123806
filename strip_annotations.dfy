/** The `strip-annotations` filter: emits copies of the records without their annotation. */
module StripAnnotations {
  import opened Wrappers
  import opened Records

  /** An item arriving at the filter: an audio record, or anything else. */
  datatype Item = AudioItem(record: Record) | OtherItem

  /** What `_do_process` is given: one item, or a list of them. */
  datatype Input = Single(item: Item) | Batch(items: seq<Item>)

  /** `make_list(data)`. */
  function Items(data: Input): seq<Item> {
    match data
    case Single(item) => [item]
    case Batch(items) => items
  }

  /** `duplicate()` followed by clearing the annotation. */
  function Stripped(r: Record): (s: Record)
    ensures !HasAnnotation(s)
    ensures s.annotation.None?
    ensures s.(annotation := r.annotation) == r
  {
    r.(annotation := None)
  }

  /**
   * The outcome of `_do_process`. For every audio item the Python code duplicates `data`, the
   * argument, rather than `item`: for a single record that is the record itself, but a list has
   * no `duplicate`, so a batch fails at its first audio item. Other items are dropped.
   */
  function StripSpec(data: Input): (r: Result<seq<Record>>)
    ensures r.Ok? ==> |r.value| <= |Items(data)|
    ensures data.Single? && data.item.AudioItem? ==> r == Ok([Stripped(data.item.record)])
    ensures data.Single? && data.item.OtherItem? ==> r == Ok([])
    ensures data.Batch? ==> (r.Ok? <==> forall i :: 0 <= i < |data.items| ==> data.items[i].OtherItem?)
  {
    match data
    case Single(AudioItem(rec)) => Ok([Stripped(rec)])
    case Single(OtherItem) => Ok([])
    case Batch(items) =>
      if forall i :: 0 <= i < |items| ==> items[i].OtherItem? then Ok([])
      else Err("'list' object has no attribute 'duplicate'")
  }

  /** The intended behaviour: every audio record, in order, without its annotation. */
  function StripIntended(items: seq<Item>): (r: seq<Record>)
    ensures |r| <= |items|
  {
    if |items| == 0 then []
    else match items[0]
      case AudioItem(rec) => [Stripped(rec)] + StripIntended(items[1..])
      case OtherItem => StripIntended(items[1..])
  }

  /** Every record the intended filter emits has no annotation. */
  lemma {:induction false} StripIntendedClears(items: seq<Item>)
    ensures forall k :: 0 <= k < |StripIntended(items)| ==> !HasAnnotation(StripIntended(items)[k])
  {
    if |items| > 0 {
      StripIntendedClears(items[1..]);
    }
  }

  /** The code as written agrees with the intended filter exactly when no batch holds an audio item. */
  lemma StripAgreesOnSingles(data: Input)
    ensures StripSpec(data).Ok? ==> StripSpec(data).value == StripIntended(Items(data))
  {
    match data
    case Single(AudioItem(rec)) =>
      assert Items(data)[1..] == [];
    case Single(OtherItem) =>
      assert Items(data)[1..] == [];
    case Batch(items) =>
      if StripSpec(data).Ok? {
        StripIntendedOthers(items);
      }
  }

  lemma {:induction false} StripIntendedOthers(items: seq<Item>)
    requires forall i :: 0 <= i < |items| ==> items[i].OtherItem?
    ensures StripIntended(items) == []
  {
    if |items| > 0 {
      StripIntendedOthers(items[1..]);
    }
  }

  /** A batch holding one audio record fails as written, where the intended filter strips it. */
  lemma StripBatchFails(r: Record)
    ensures StripSpec(Batch([AudioItem(r)])).Err?
    ensures StripIntended([AudioItem(r)]) == [Stripped(r)]
  {
    assert !(Batch([AudioItem(r)]).items[0].OtherItem?);
    assert [AudioItem(r)][1..] == [];
  }

  /** `_do_process(data)`, the loop as written. */
  method DoProcess(data: Input) returns (result: Result<seq<Record>>)
    ensures result == StripSpec(data)
  {
    var items := Items(data);
    var current := data;
    var out: seq<Record> := [];
    var i := 0;
    while i < |items|
      invariant 0 <= i <= |items|
      invariant forall k :: 0 <= k < i ==> items[k].OtherItem? || data.Single?
      invariant data.Single? ==> (i == 0 ==> out == [] && current == data) && (i == 1 ==> out == StripSpec(data).value)
      invariant data.Batch? ==> out == [] && current == data
    {
      if items[i].AudioItem? {
        if current.Batch? {
          return Err("'list' object has no attribute 'duplicate'");
        }
        var dup := current.item.record.(annotation := None);
        current := Single(AudioItem(dup));
        out := out + [dup];
      }
      i := i + 1;
    }
    result := Ok(out);
  }
}
