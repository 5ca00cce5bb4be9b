/** `CalculateSignal.signals` (functions/signal_calculator.py): a dictionary
    from symbol to a record of derived metrics, each missing entry created
    on first access (`defaultdict`), kept in insertion order because the
    market-cap view is a stable sort of its items. */
module SignalTable {
  import opened PyCore
  import opened Json
  import Aggregator

  /** A value stored in a signal record. */
  datatype SValue =
    | Num(x: real)                  // a derived figure
    | Flows(xs: seq<real>)          // PROJECTED_FREE_CASH_FLOWS
    | Data(j: Json)                 // part of a parsed response, or `{}`
    | Copied(v: Aggregator.Value)   // a value copied from the aggregate

  /** `{}`: what reading a missing field of a record inserts and returns. */
  const EmptyDict: SValue := Data(JObj([]))

  const MarketCap: string := "MARKET_CAP"

  type Record = map<string, SValue>
  type Entry = (string, Record)
  /** The symbols, in insertion order, with their records. */
  type Table = seq<Entry>

  function Symbols(t: Table): (r: seq<string>)
    ensures |r| == |t|
    ensures forall i :: 0 <= i < |t| ==> r[i] == t[i].0
  {
    seq(|t|, i requires 0 <= i < |t| => t[i].0)
  }

  /** A dictionary holds each symbol once. */
  predicate Valid(t: Table) {
    Distinct(Symbols(t))
  }

  /** The position of `k` in `keys`, or None when it is absent. */
  function Find(keys: seq<string>, k: string): (r: Option<nat>)
    ensures r.Some? ==> r.value < |keys| && keys[r.value] == k
    ensures r.None? <==> k !in keys
  {
    if keys == [] then None
    else if keys[|keys| - 1] == k then Some(|keys| - 1)
    else Find(keys[..|keys| - 1], k)
  }

  /** Appending another key does not move `k`. */
  lemma FindSnoc(keys: seq<string>, k: string, other: string)
    requires other != k
    ensures Find(keys + [other], k) == Find(keys, k)
  {
    assert (keys + [other])[..|keys|] == keys;
  }

  /** The record of `sym`; empty when the symbol has none yet. */
  function RecordOf(t: Table, sym: string): Record {
    match Find(Symbols(t), sym)
    case Some(i) => t[i].1
    case None => map[]
  }

  /** `self.signals[sym][field] = v`: the symbol's record is created at the
      end when it is new; only that record changes, and only in `field`. */
  function Put(t: Table, sym: string, field: string, v: SValue): (r: Table)
    ensures Symbols(r) == if sym in Symbols(t) then Symbols(t) else Symbols(t) + [sym]
    ensures Valid(t) ==> Valid(r)
    ensures RecordOf(r, sym) == RecordOf(t, sym)[field := v]
    ensures forall s :: s != sym ==> RecordOf(r, s) == RecordOf(t, s)
  {
    match Find(Symbols(t), sym)
    case Some(i) =>
      var r := t[i := (sym, t[i].1[field := v])];
      assert Symbols(r) == Symbols(t);
      r
    case None =>
      var r := t + [(sym, map[field := v])];
      assert Symbols(r) == Symbols(t) + [sym];
      assert forall s :: s != sym ==> Find(Symbols(r), s) == Find(Symbols(t), s) by {
        forall s | s != sym
          ensures Find(Symbols(r), s) == Find(Symbols(t), s)
        {
          FindSnoc(Symbols(t), s, sym);
        }
      }
      r
  }

  /** The writes of `ws`, in order, into the record of `sym`. */
  function PutAll(t: Table, sym: string, ws: seq<(string, SValue)>): Table
    decreases |ws|
  {
    if ws == [] then t
    else
      var last := ws[|ws| - 1];
      Put(PutAll(t, sym, ws[..|ws| - 1]), sym, last.0, last.1)
  }

  /** The writes of a prefix one longer. */
  lemma PutAllPrefix(t: Table, sym: string, ws: seq<(string, SValue)>, k: nat)
    requires k < |ws|
    ensures PutAll(t, sym, ws[..k + 1]) == Put(PutAll(t, sym, ws[..k]), sym, ws[k].0, ws[k].1)
  {
    assert ws[..k + 1][..k] == ws[..k];
  }

  lemma PutAllSingle(t: Table, sym: string, field: string, v: SValue)
    ensures PutAll(t, sym, [(field, v)]) == Put(t, sym, field, v)
  {
    assert [(field, v)][..0] == [];
  }

  lemma PutAllSnoc(t: Table, sym: string, ws: seq<(string, SValue)>, field: string, v: SValue)
    ensures PutAll(t, sym, ws + [(field, v)]) == Put(PutAll(t, sym, ws), sym, field, v)
  {
    assert (ws + [(field, v)])[..|ws|] == ws;
  }

  lemma {:induction false} PutAllConcat(t: Table, sym: string, a: seq<(string, SValue)>, b: seq<(string, SValue)>)
    ensures PutAll(t, sym, a + b) == PutAll(PutAll(t, sym, a), sym, b)
    decreases |b|
  {
    if b == [] {
      assert a + b == a;
    } else {
      var pre := b[..|b| - 1];
      assert (a + b)[..|a + b| - 1] == a + pre;
      PutAllConcat(t, sym, a, pre);
    }
  }

  /** Writing into one symbol's record leaves every other record as it
      was, keeps the table a dictionary, and leaves the symbol's record
      holding each written field with its last written value. */
  lemma {:induction false} PutAllSpec(t: Table, sym: string, ws: seq<(string, SValue)>)
    requires Valid(t)
    ensures Valid(PutAll(t, sym, ws))
    ensures forall s :: s != sym ==> RecordOf(PutAll(t, sym, ws), s) == RecordOf(t, s)
    ensures forall i :: 0 <= i < |ws| && (forall j :: i < j < |ws| ==> ws[j].0 != ws[i].0) ==>
      ws[i].0 in RecordOf(PutAll(t, sym, ws), sym) && RecordOf(PutAll(t, sym, ws), sym)[ws[i].0] == ws[i].1
    decreases |ws|
  {
    if ws != [] {
      var pre, last := ws[..|ws| - 1], ws[|ws| - 1];
      PutAllSpec(t, sym, pre);
      var mid := PutAll(t, sym, pre);
      var r := Put(mid, sym, last.0, last.1);
      assert PutAll(t, sym, ws) == r;
      forall i | 0 <= i < |ws| && (forall j :: i < j < |ws| ==> ws[j].0 != ws[i].0)
        ensures ws[i].0 in RecordOf(r, sym) && RecordOf(r, sym)[ws[i].0] == ws[i].1
      {
        if i < |pre| {
          assert pre[i] == ws[i];
          assert forall j :: i < j < |pre| ==> pre[j] == ws[j];
          assert ws[i].0 != last.0;
        }
      }
    }
  }

  /** Writes that never name `field` leave it as it was in the symbol's
      record: absent if it was absent, with its old value otherwise. */
  lemma {:induction false} PutAllOtherField(t: Table, sym: string, ws: seq<(string, SValue)>, field: string)
    requires forall i :: 0 <= i < |ws| ==> ws[i].0 != field
    ensures field in RecordOf(PutAll(t, sym, ws), sym) <==> field in RecordOf(t, sym)
    ensures field in RecordOf(t, sym) ==> RecordOf(PutAll(t, sym, ws), sym)[field] == RecordOf(t, sym)[field]
    decreases |ws|
  {
    if ws != [] {
      var pre := ws[..|ws| - 1];
      assert forall i :: 0 <= i < |pre| ==> pre[i] == ws[i];
      PutAllOtherField(t, sym, pre, field);
    }
  }

  /** In a dictionary, the record of each listed symbol is the one
      stored beside it. */
  lemma EntryIsRecord(t: Table, i: nat)
    requires Valid(t) && i < |t|
    ensures RecordOf(t, t[i].0) == t[i].1
  {
    var j := Find(Symbols(t), t[i].0).value;
    assert Symbols(t)[j] == Symbols(t)[i];
  }

  /** Writing adds the written symbol, when there is a write, and no other. */
  lemma {:induction false} PutAllSymbols(t: Table, sym: string, ws: seq<(string, SValue)>)
    ensures forall s :: s in Symbols(PutAll(t, sym, ws)) <==> s in Symbols(t) || (s == sym && ws != [])
    decreases |ws|
  {
    if ws != [] {
      PutAllSymbols(t, sym, ws[..|ws| - 1]);
    }
  }

  /** The table without `sym`, the others in their order. */
  function Remove(t: Table, sym: string): (r: Table)
    ensures sym !in Symbols(r)
    ensures |r| <= |t|
    ensures forall s :: s in Symbols(r) ==> s in Symbols(t)
    ensures forall s :: s != sym && s in Symbols(t) ==> s in Symbols(r)
    ensures forall e :: e in r ==> e in t
    ensures Valid(t) ==> Valid(r)
    decreases |t|
  {
    if t == [] then []
    else
      var pre := t[..|t| - 1];
      assert Symbols(t) == Symbols(pre) + [t[|t| - 1].0];
      var before := Remove(pre, sym);
      if t[|t| - 1].0 == sym then before
      else
        var r := before + [t[|t| - 1]];
        assert Symbols(r) == Symbols(before) + [t[|t| - 1].0];
        assert Valid(t) ==> Valid(pre) && t[|t| - 1].0 !in Symbols(before) by {
          if Valid(t) {
            assert forall i :: 0 <= i < |pre| ==> Symbols(t)[i] == Symbols(pre)[i];
          }
        }
        r
  }

  /** `del self.signals[sym]`: KeyError when the symbol has no record. */
  function Delete(t: Table, sym: string): (r: Result<Table>)
    ensures r.Raised? <==> sym !in Symbols(t)
    ensures r.Raised? ==> r.error == KeyError
    ensures r.Ok? ==> sym !in Symbols(r.value)
  {
    if sym in Symbols(t) then Ok(Remove(t, sym)) else Raised(KeyError)
  }

  /** Removing a symbol that sits at position `i` of a dictionary takes out
      exactly that entry: the others keep their records and their order. */
  lemma {:induction false} RemoveAt(t: Table, sym: string, i: nat)
    requires Valid(t) && i < |t| && t[i].0 == sym
    ensures Remove(t, sym) == t[..i] + t[i + 1..]
    decreases |t|
  {
    if i == |t| - 1 {
      RemoveLast(t, sym);
    } else {
      ValidPrefix(t);
      RemoveAt(t[..|t| - 1], sym, i);
      RemoveAtSnoc(t, sym, i);
    }
  }

  lemma RemoveAtSnoc(t: Table, sym: string, i: nat)
    requires Valid(t) && i < |t| - 1 && t[i].0 == sym
    requires Remove(t[..|t| - 1], sym) == t[..|t| - 1][..i] + t[..|t| - 1][i + 1..]
    ensures Remove(t, sym) == t[..i] + t[i + 1..]
  {
    var pre, last := t[..|t| - 1], t[|t| - 1];
    ValidPrefix(t);
    RemoveAtStep(pre, last, sym, i);
    assert t == pre + [last];
  }

  /** A dictionary without its last entry is a dictionary, and does not
      hold the last entry's symbol. */
  lemma ValidPrefix(t: Table)
    requires Valid(t) && t != []
    ensures var pre := t[..|t| - 1]; Valid(pre) && forall a :: 0 <= a < |pre| ==> pre[a].0 != t[|t| - 1].0
  {
    var pre := t[..|t| - 1];
    assert forall a :: 0 <= a < |pre| ==> Symbols(pre)[a] == Symbols(t)[a];
    assert forall a :: 0 <= a < |pre| ==> Symbols(t)[a] != Symbols(t)[|t| - 1];
  }

  /** The recursive step of `RemoveAt`: an entry for another symbol after
      position `i` stays behind the removal. */
  lemma RemoveAtStep(pre: Table, last: Entry, sym: string, i: nat)
    requires i < |pre| && pre[i].0 == sym && last.0 != sym
    requires Remove(pre, sym) == pre[..i] + pre[i + 1..]
    ensures Remove(pre + [last], sym) == (pre + [last])[..i] + (pre + [last])[i + 1..]
  {
    RemoveSnocOther(pre, last, sym);
    assert (pre + [last])[..i] == pre[..i];
    assert (pre + [last])[i + 1..] == pre[i + 1..] + [last];
  }

  /** Removing the last entry's symbol from a dictionary drops that entry. */
  lemma RemoveLast(t: Table, sym: string)
    requires Valid(t) && t != [] && t[|t| - 1].0 == sym
    ensures Remove(t, sym) == t[..|t| - 1]
  {
    var pre := t[..|t| - 1];
    assert sym !in Symbols(pre) by {
      assert forall a :: 0 <= a < |pre| ==> Symbols(pre)[a] == Symbols(t)[a];
      assert Symbols(t)[|t| - 1] == sym;
    }
    RemoveAbsent(pre, sym);
  }

  /** An entry for the removed symbol goes. */
  lemma RemoveSnocSame(pre: Table, last: Entry, sym: string)
    requires last.0 == sym
    ensures Remove(pre + [last], sym) == Remove(pre, sym)
  {
    assert (pre + [last])[..|pre|] == pre;
  }

  /** An entry for another symbol stays at the end. */
  lemma RemoveSnocOther(pre: Table, last: Entry, sym: string)
    requires last.0 != sym
    ensures Remove(pre + [last], sym) == Remove(pre, sym) + [last]
  {
    assert (pre + [last])[..|pre|] == pre;
  }

  /** Removing a symbol the table does not hold changes nothing. */
  lemma {:induction false} RemoveAbsent(t: Table, sym: string)
    requires sym !in Symbols(t)
    ensures Remove(t, sym) == t
    decreases |t|
  {
    if t != [] {
      var pre, last := t[..|t| - 1], t[|t| - 1];
      assert Symbols(t)[|t| - 1] == last.0;
      assert sym !in Symbols(pre) by {
        assert forall a :: 0 <= a < |pre| ==> Symbols(pre)[a] == Symbols(t)[a];
      }
      RemoveAbsent(pre, sym);
      RemoveSnocOther(pre, last, sym);
      assert pre + [last] == t;
    }
  }

  /** Every other symbol keeps its record. */
  lemma {:induction false} RemoveKeepsOthers(t: Table, sym: string, s: string)
    requires s != sym
    ensures RecordOf(Remove(t, sym), s) == RecordOf(t, s)
    decreases |t|
  {
    if t != [] {
      var pre, last := t[..|t| - 1], t[|t| - 1];
      RemoveKeepsOthers(pre, sym, s);
      RemoveKeepsOthersSnoc(pre, last, sym, s);
      assert t == pre + [last];
    }
  }

  lemma RemoveKeepsOthersSnoc(pre: Table, last: Entry, sym: string, s: string)
    requires s != sym && RecordOf(Remove(pre, sym), s) == RecordOf(pre, s)
    ensures RecordOf(Remove(pre + [last], sym), s) == RecordOf(pre + [last], s)
  {
    RecordOfSnoc(pre, last, s);
    if last.0 == sym {
      RemoveSnocSame(pre, last, sym);
    } else {
      RemoveSnocOther(pre, last, sym);
      RecordOfSnoc(Remove(pre, sym), last, s);
    }
  }

  /** The record of `s` once an entry is appended: that entry's record when
      it is for `s`, since lookups find the last entry. */
  lemma RecordOfSnoc(t: Table, e: Entry, s: string)
    ensures RecordOf(t + [e], s) == if e.0 == s then e.1 else RecordOf(t, s)
  {
    assert Symbols(t + [e]) == Symbols(t) + [e.0];
    if e.0 == s {
      assert Find(Symbols(t) + [s], s) == Some(|t|);
    } else {
      FindSnoc(Symbols(t), s, e.0);
      assert forall i :: 0 <= i < |t| ==> (t + [e])[i] == t[i];
    }
  }

  function WithCap(rec: Record): Record {
    if MarketCap in rec then rec else rec[MarketCap := EmptyDict]
  }

  /** The key function `getitem(record, 'MARKET_CAP')` applied to every
      item: a record without a MARKET_CAP gains `{}` there. */
  function FillCap(t: Table): (r: Table)
    ensures Symbols(r) == Symbols(t)
  {
    var r := seq(|t|, i requires 0 <= i < |t| => (t[i].0, WithCap(t[i].1)));
    assert Symbols(r) == Symbols(t);
    r
  }

  /** The key pass seen per symbol: a listed symbol's record gains `{}`
      as MARKET_CAP when it had none. */
  lemma FillCapRecord(t: Table, s: string)
    ensures RecordOf(FillCap(t), s) == if s in Symbols(t) then WithCap(RecordOf(t, s)) else map[]
  {
  }

  /** After the key pass every record has a MARKET_CAP; a record that had
      one is unchanged, and one that had none gains `{}` and nothing else;
      running the pass again changes nothing. */
  lemma FillCapSpec(t: Table)
    ensures forall i :: 0 <= i < |t| ==> MarketCap in FillCap(t)[i].1
    ensures forall i :: 0 <= i < |t| && MarketCap in t[i].1 ==> FillCap(t)[i] == t[i]
    ensures forall i :: 0 <= i < |t| && MarketCap !in t[i].1 ==>
      FillCap(t)[i].1[MarketCap] == EmptyDict
      && forall f :: f != MarketCap ==> (f in FillCap(t)[i].1 <==> f in t[i].1)
    ensures forall i, f :: 0 <= i < |t| && f != MarketCap && f in t[i].1 ==> FillCap(t)[i].1[f] == t[i].1[f]
    ensures FillCap(FillCap(t)) == FillCap(t)
  {
  }

  predicate HasNumCap(e: Entry) {
    MarketCap in e.1 && e.1[MarketCap].Num?
  }

  /** The sort key; every record the sort compares has a numeric MARKET_CAP. */
  function Cap(e: Entry): real {
    if HasNumCap(e) then e.1[MarketCap].x else 0.0
  }

  /** Python can order the items: there is at most one, or every
      MARKET_CAP is a number (a `{}` compares with nothing). */
  predicate Comparable(t: Table) {
    |t| <= 1 || forall i :: 0 <= i < |t| ==> HasNumCap(t[i])
  }

  predicate SortedByCap(t: Table) {
    forall i, j :: 0 <= i < j < |t| ==> Cap(t[i]) <= Cap(t[j])
  }

  /** `e` placed after every entry whose key is not greater. */
  function Insert(s: Table, e: Entry): (r: Table)
    ensures multiset(r) == multiset(s) + multiset{e}
    decreases |s|
  {
    if s == [] then [e]
    else
      var pre, last := s[..|s| - 1], s[|s| - 1];
      assert s == pre + [last];
      if Cap(last) <= Cap(e) then s + [e]
      else Insert(pre, e) + [last]
  }

  /** An entry with a smaller key goes in before the last entry. */
  lemma InsertBeforeLast(s: Table, e: Entry)
    requires s != [] && Cap(e) < Cap(s[|s| - 1])
    ensures Insert(s, e) == Insert(s[..|s| - 1], e) + [s[|s| - 1]]
  {
  }

  /** Appending an entry whose key is not below any other keeps a table sorted. */
  lemma SortedSnoc(h: Table, y: Entry)
    requires SortedByCap(h) && forall k :: 0 <= k < |h| ==> Cap(h[k]) <= Cap(y)
    ensures SortedByCap(h + [y])
  {
  }

  /** What a table holds besides `e` comes from `pre`, so its keys stay
      at or below a bound on `pre` and `e`. */
  lemma KeysBelow(head: Table, pre: Table, e: Entry, bound: real)
    requires multiset(head) == multiset(pre) + multiset{e}
    requires Cap(e) <= bound && forall k :: 0 <= k < |pre| ==> Cap(pre[k]) <= bound
    ensures forall k :: 0 <= k < |head| ==> Cap(head[k]) <= bound
  {
    forall k | 0 <= k < |head|
      ensures Cap(head[k]) <= bound
    {
      var x := head[k];
      assert x in multiset(head);
      if x != e {
        assert x in multiset(pre);
        var j :| 0 <= j < |pre| && pre[j] == x;
      }
    }
  }

  /** Inserting into a sorted table keeps it sorted. */
  lemma {:induction false} InsertSorted(s: Table, e: Entry)
    requires SortedByCap(s)
    ensures SortedByCap(Insert(s, e))
    decreases |s|
  {
    if s != [] {
      var pre, last := s[..|s| - 1], s[|s| - 1];
      if Cap(last) <= Cap(e) {
        assert Insert(s, e) == s + [e];
        SortedSnoc(s, e);
      } else {
        assert forall a :: 0 <= a < |pre| ==> pre[a] == s[a];
        InsertSorted(pre, e);
        InsertBeforeLast(s, e);
        KeysBelow(Insert(pre, e), pre, e, Cap(last));
        SortedSnoc(Insert(pre, e), last);
      }
    }
  }

  function InsertionSort(t: Table): (r: Table)
    ensures multiset(r) == multiset(t)
    ensures SortedByCap(r)
    decreases |t|
  {
    if t == [] then []
    else
      assert t == t[..|t| - 1] + [t[|t| - 1]];
      var sorted := InsertionSort(t[..|t| - 1]);
      InsertSorted(sorted, t[|t| - 1]);
      Insert(sorted, t[|t| - 1])
  }

  /** `sorted(self.signals.items(), key=...)` once the key pass has run:
      TypeError when some MARKET_CAP cannot be compared; otherwise the
      same entries, ordered by MARKET_CAP. */
  function SortByCap(t: Table): (r: Result<Table>)
    ensures r.Raised? <==> !Comparable(t)
    ensures r.Raised? ==> r.error == TypeError
    ensures r.Ok? ==> SortedByCap(r.value) && multiset(r.value) == multiset(t)
  {
    if Comparable(t) then Ok(InsertionSort(t)) else Raised(TypeError)
  }

  /** A sorted view holds exactly the symbols of the table it sorts. */
  lemma PermutationKeepsSymbols(a: Table, b: Table)
    requires multiset(a) == multiset(b)
    ensures |a| == |b|
    ensures forall s :: s in Symbols(a) <==> s in Symbols(b)
    ensures forall s :: RecordOf(a, s) != map[] ==> exists i :: 0 <= i < |b| && b[i] == (s, RecordOf(a, s))
  {
    assert |a| == |multiset(a)| == |multiset(b)| == |b|;
    forall s | s in Symbols(a)
      ensures s in Symbols(b)
    {
      var i :| 0 <= i < |a| && Symbols(a)[i] == s;
      assert a[i] in multiset(b);
      var j :| 0 <= j < |b| && b[j] == a[i];
      assert Symbols(b)[j] == s;
    }
    forall s | s in Symbols(b)
      ensures s in Symbols(a)
    {
      var j :| 0 <= j < |b| && Symbols(b)[j] == s;
      assert b[j] in multiset(a);
      var i :| 0 <= i < |a| && a[i] == b[j];
      assert Symbols(a)[i] == s;
    }
    forall s | RecordOf(a, s) != map[]
      ensures exists i :: 0 <= i < |b| && b[i] == (s, RecordOf(a, s))
    {
      var i := Find(Symbols(a), s).value;
      assert a[i] == (s, RecordOf(a, s));
      assert a[i] in multiset(b);
      var j :| 0 <= j < |b| && b[j] == a[i];
    }
  }

  /** The entries whose key is `k`, in order. */
  function WithCapOf(t: Table, k: real): Table
    decreases |t|
  {
    if t == [] then []
    else WithCapOf(t[..|t| - 1], k) + (if Cap(t[|t| - 1]) == k then [t[|t| - 1]] else [])
  }

  lemma WithCapOfSnoc(t: Table, e: Entry, k: real)
    ensures WithCapOf(t + [e], k) == WithCapOf(t, k) + (if Cap(e) == k then [e] else [])
  {
    assert (t + [e])[..|t|] == t;
  }

  lemma {:induction false} InsertStable(s: Table, e: Entry, k: real)
    requires SortedByCap(s)
    ensures WithCapOf(Insert(s, e), k) == WithCapOf(s, k) + (if Cap(e) == k then [e] else [])
    decreases |s|
  {
    if s == [] {
      assert Insert(s, e) == [] + [e];
      WithCapOfSnoc([], e, k);
    } else if Cap(s[|s| - 1]) <= Cap(e) {
      assert Insert(s, e) == s + [e];
      WithCapOfSnoc(s, e, k);
    } else {
      SortedPrefix(s);
      InsertStable(s[..|s| - 1], e, k);
      InsertPastLastOf(s, e, k);
    }
  }

  lemma SortedPrefix(s: Table)
    requires SortedByCap(s) && s != []
    ensures SortedByCap(s[..|s| - 1])
  {
    assert forall a :: 0 <= a < |s| - 1 ==> s[..|s| - 1][a] == s[a];
  }

  lemma InsertPastLastOf(s: Table, e: Entry, k: real)
    requires s != [] && Cap(e) < Cap(s[|s| - 1])
    requires WithCapOf(Insert(s[..|s| - 1], e), k) == WithCapOf(s[..|s| - 1], k) + (if Cap(e) == k then [e] else [])
    ensures WithCapOf(Insert(s, e), k) == WithCapOf(s, k) + (if Cap(e) == k then [e] else [])
  {
    var pre, last := s[..|s| - 1], s[|s| - 1];
    InsertPastLast(pre, last, e, k);
    InsertBeforeLast(s, e);
    assert s == pre + [last];
  }

  /** One step of the stability proof: `e` moves before a last entry with
      a greater key, which therefore never shares `e`'s key. */
  lemma InsertPastLast(pre: Table, last: Entry, e: Entry, k: real)
    requires Cap(e) < Cap(last)
    requires WithCapOf(Insert(pre, e), k) == WithCapOf(pre, k) + (if Cap(e) == k then [e] else [])
    ensures WithCapOf(Insert(pre, e) + [last], k) == WithCapOf(pre + [last], k) + (if Cap(e) == k then [e] else [])
  {
    WithCapOfSnoc(Insert(pre, e), last, k);
    WithCapOfSnoc(pre, last, k);
  }

  lemma InsertionSortStep(t: Table)
    requires t != []
    ensures InsertionSort(t) == Insert(InsertionSort(t[..|t| - 1]), t[|t| - 1])
  {
  }

  /** The sort is stable: entries with equal MARKET_CAP keep the order
      they had in the table. */
  lemma {:induction false} SortStable(t: Table, k: real)
    ensures WithCapOf(InsertionSort(t), k) == WithCapOf(t, k)
    decreases |t|
  {
    if t != [] {
      SortStable(t[..|t| - 1], k);
      SortStableSnoc(t, k);
    }
  }

  lemma SortStableSnoc(t: Table, k: real)
    requires t != [] && WithCapOf(InsertionSort(t[..|t| - 1]), k) == WithCapOf(t[..|t| - 1], k)
    ensures WithCapOf(InsertionSort(t), k) == WithCapOf(t, k)
  {
    var pre, last := t[..|t| - 1], t[|t| - 1];
    InsertionSortStep(t);
    SortStableStep(InsertionSort(pre), pre, last, k);
    assert t == pre + [last];
  }

  lemma SortStableStep(sorted: Table, pre: Table, last: Entry, k: real)
    requires SortedByCap(sorted) && WithCapOf(sorted, k) == WithCapOf(pre, k)
    ensures WithCapOf(Insert(sorted, last), k) == WithCapOf(pre + [last], k)
  {
    InsertStable(sorted, last, k);
    WithCapOfSnoc(pre, last, k);
  }
}
