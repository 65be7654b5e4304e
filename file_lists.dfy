// The attachment-list edits shared by the comment box, the forward panel and
// the new-process form: `list.filter((_, i) => i !== index)` drops one picked
// file. (Adding files, `[...list, ...files]`, is sequence concatenation.)

module FileLists {

  /**
   * Keeps every element whose position differs from `index`, as the
   * index-filter does; an index outside the list removes nothing.
   */
  function RemoveAt<T>(s: seq<T>, index: int): (r: seq<T>)
    ensures 0 <= index < |s| ==> r == s[..index] + s[index + 1..]
    ensures !(0 <= index < |s|) ==> r == s
    decreases |s|
  {
    if s == [] then []
    else (if index == 0 then [] else [s[0]]) + RemoveAt(s[1..], index - 1)
  }

  /** Removal shortens the list by one and shifts the later elements down. */
  lemma RemoveAtShifts<T>(s: seq<T>, index: int, j: int)
    requires 0 <= index < |s|
    requires 0 <= j < |s| - 1
    ensures |RemoveAt(s, index)| == |s| - 1
    ensures RemoveAt(s, index)[j] == if j < index then s[j] else s[j + 1]
  {
  }
}
