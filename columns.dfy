/** The per-field series a statement is shaped into: the Python dict
    `{key: [] for key in keys}` that `create_empty_dict` builds and the
    shapers append to, kept as a list of named columns in the dict's key
    order. */
module Columns {
  import opened PyCore

  datatype Column<T> = Column(name: string, values: seq<T>)

  function Names<T>(cols: seq<Column<T>>): (r: seq<string>)
    ensures |r| == |cols|
    ensures forall i :: 0 <= i < |cols| ==> r[i] == cols[i].name
  {
    seq(|cols|, i requires 0 <= i < |cols| => cols[i].name)
  }

  /** `d[name]`. */
  function Get<T>(cols: seq<Column<T>>, name: string): (r: Option<seq<T>>)
    ensures r.None? <==> name !in Names(cols)
    ensures r.Some? ==> exists i :: 0 <= i < |cols| && cols[i].name == name && r.value == cols[i].values
  {
    if cols == [] then None
    else if cols[0].name == name then Some(cols[0].values)
    else
      assert Names(cols) == [cols[0].name] + Names(cols[1..]);
      Get(cols[1..], name)
  }

  lemma {:induction false} GetAt<T>(cols: seq<Column<T>>, i: nat)
    requires Distinct(Names(cols)) && i < |cols|
    ensures Get(cols, cols[i].name) == Some(cols[i].values)
  {
    if i > 0 {
      assert cols[0].name == Names(cols)[0] != Names(cols)[i] == cols[i].name;
      assert Names(cols[1..]) == Names(cols)[1..];
      GetAt(cols[1..], i - 1);
    }
  }

  /** `create_empty_dict(keys)`: exactly the requested keys, each once,
      in first-occurrence order, each with an empty list. */
  function CreateEmptyDict<T>(keys: seq<string>): (cols: seq<Column<T>>)
    ensures Names(cols) == Dedup(keys)
    ensures forall i :: 0 <= i < |cols| ==> cols[i].values == []
    ensures forall k :: Get(cols, k) == if k in keys then Some([]) else None
  {
    var ks := Dedup(keys);
    var cols := seq(|ks|, i requires 0 <= i < |ks| => Column(ks[i], []));
    assert Names(cols) == ks;
    cols
  }
}
