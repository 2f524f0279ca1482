/**
 * The selection shared by a map and a list: `Array.prototype.find` by id, and the
 * per-row highlight test `selected?.id === row.id` the three map pages render.
 */
module Selection {
  import opened Wrappers
  import opened Entities

  /** `s.find(x => key(x) === id)`: the first element whose key is `id`, if any. */
  function FindBy<T>(s: seq<T>, key: T -> string, id: string): (r: Option<T>)
    ensures r.Some? <==> exists i :: 0 <= i < |s| && key(s[i]) == id
    ensures r.Some? ==> exists i :: 0 <= i < |s| && s[i] == r.value && key(s[i]) == id
                                   && forall j :: 0 <= j < i ==> key(s[j]) != id
  {
    if s == [] then None
    else if key(s[0]) == id then Some(s[0])
    else
      var r := FindBy(s[1..], key, id);
      assert forall i :: 0 < i < |s| ==> s[i] == s[1..][i - 1];
      r
  }

  /** The row highlight of a list whose row ids are `ids`, given the selected id. */
  function Highlights(ids: seq<string>, selected: Option<string>): (r: seq<bool>)
    ensures |r| == |ids|
    ensures forall i :: 0 <= i < |ids| ==> (r[i] <==> selected == Some(ids[i]))
    ensures Distinct(ids) ==> forall i, j :: 0 <= i < |r| && 0 <= j < |r| && r[i] && r[j] ==> i == j
    ensures (selected.None? || selected.value !in ids) ==> forall i :: 0 <= i < |r| ==> !r[i]
    ensures (selected.Some? && selected.value in ids) ==> exists i :: 0 <= i < |r| && r[i]
  {
    seq(|ids|, i requires 0 <= i < |ids| => selected == Some(ids[i]))
  }
}
