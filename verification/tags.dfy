/** boto3 tag arrays and filter objects, as the router folds and unfolds them. */
module Tags {
  import opened Wrappers

  /** One entry of a boto3 resource's `Tags` array. */
  datatype Tag = Tag(key: string, value: string)

  /** A folded tag dictionary. */
  type TagMap = map<string, string>

  /** One boto3 filter: `{'Name': name, 'Values': values}`. */
  datatype Filter = Filter(name: string, values: seq<string>)

  /** `tags.get(k)`. */
  function Get(tags: TagMap, k: string): Option<string>
  {
    if k in tags then Some(tags[k]) else None
  }

  /** The position of the last tag in `tags` whose key is `k`, if there is one. */
  function LastIndex(tags: seq<Tag>, k: string): (r: Option<nat>)
    ensures r.None? <==> forall i :: 0 <= i < |tags| ==> tags[i].key != k
    ensures r.Some? ==> r.value < |tags| && tags[r.value].key == k
    ensures r.Some? ==> forall j :: r.value < j < |tags| ==> tags[j].key != k
    decreases |tags|
  {
    if |tags| == 0 then None
    else if tags[|tags| - 1].key == k then Some(|tags| - 1)
    else LastIndex(tags[..|tags| - 1], k)
  }

  /**
   * `fold_tags`: the dictionary `{tag['Key']: tag['Value'] for tag in tags}`.
   * Every key of the array is present, and a key repeated in the array keeps
   * the value of its LAST occurrence.
   */
  function FoldTags(tags: seq<Tag>): (m: TagMap)
    ensures forall k :: k in m <==> LastIndex(tags, k).Some?
    ensures forall k :: k in m ==> m[k] == tags[LastIndex(tags, k).value].value
    decreases |tags|
  {
    if |tags| == 0 then map[]
    else
      var last := tags[|tags| - 1];
      FoldTags(tags[..|tags| - 1])[last.key := last.value]
  }

  /** A tag whose key does not occur later in the array is the one the fold keeps. */
  lemma FoldTagsLastWins(tags: seq<Tag>, i: nat)
    requires i < |tags|
    requires forall j :: i < j < |tags| ==> tags[j].key != tags[i].key
    ensures tags[i].key in FoldTags(tags) && FoldTags(tags)[tags[i].key] == tags[i].value
  {
    assert LastIndex(tags, tags[i].key).Some?;
  }

  /**
   * `filterize`: unfold a dictionary, given as its items in insertion order,
   * into a boto3 filter list with one single-valued filter per item.
   */
  function Filterize(d: seq<(string, string)>): (r: seq<Filter>)
  {
    seq(|d|, i requires 0 <= i < |d| => Filter(d[i].0, [d[i].1]))
  }

  /** The inverse of `Filterize`: defined only on lists of single-valued filters. */
  function Unfilterize(fs: seq<Filter>): (r: Option<seq<(string, string)>>)
    ensures r.Some? ==> |r.value| == |fs|
    decreases |fs|
  {
    if |fs| == 0 then Some([])
    else if |fs[0].values| != 1 then None
    else
      match Unfilterize(fs[1..])
      case None => None
      case Some(rest) => Some([(fs[0].name, fs[0].values[0])] + rest)
  }

  /** Filterize loses nothing: its result unfolds back to the same items, in the same order. */
  lemma {:induction false} FilterizeRoundTrip(d: seq<(string, string)>)
    ensures |Filterize(d)| == |d|
    ensures Unfilterize(Filterize(d)) == Some(d)
    decreases |d|
  {
    if |d| > 0 {
      FilterizeRoundTrip(d[1..]);
      assert Filterize(d)[1..] == Filterize(d[1..]);
      assert d == [d[0]] + d[1..];
    }
  }
}
