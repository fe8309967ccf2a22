/**
 Lists of named entries and the keyed upserts that rewrite them: the first entry of the same name
 takes the new value, and an entry with a new name goes to the end.
 */
module Upserts {
  import opened Options

  datatype Entry<+T> = Entry(name: string, value: T)

  /** How an entry already there takes a new value. */
  type Merger<!T> = (T, T) -> T

  function Upserted<T>(xs: seq<Entry<T>>, x: Entry<T>, merge: Merger<T>): seq<Entry<T>> {
    if xs == [] then [x]
    else if xs[0].name == x.name then [Entry(x.name, merge(xs[0].value, x.value))] + xs[1..]
    else [xs[0]] + Upserted(xs[1..], x, merge)
  }

  function UpsertedAll<T>(xs: seq<Entry<T>>, ys: seq<Entry<T>>, merge: Merger<T>): seq<Entry<T>> {
    if ys == [] then xs else Upserted(UpsertedAll(xs, ys[..|ys| - 1], merge), ys[|ys| - 1], merge)
  }

  /** Volumes, mounts, claims and environment variables are replaced outright. */
  function Replaced<T>(was: T, given: T): T { given }

  /** The first entry of a name. */
  function Find<T>(xs: seq<Entry<T>>, name: string): Option<T> {
    if xs == [] then None
    else if xs[0].name == name then Some(xs[0].value)
    else Find(xs[1..], name)
  }

  function Names<T>(xs: seq<Entry<T>>): (names: seq<string>)
    ensures |names| == |xs| && forall i :: 0 <= i < |xs| ==> names[i] == xs[i].name
  {
    if xs == [] then [] else [xs[0].name] + Names(xs[1..])
  }

  ghost predicate Unique<T>(xs: seq<Entry<T>>) {
    forall i, j :: 0 <= i < j < |xs| ==> xs[i].name != xs[j].name
  }

  /** The loops of the upsert functions: find the name, overwrite in place or append. */
  method UpsertEntry<T>(xs: seq<Entry<T>>, x: Entry<T>, merge: Merger<T>) returns (ys: seq<Entry<T>>)
    ensures ys == Upserted(xs, x, merge)
  {
    for i := 0 to |xs|
      invariant forall j :: 0 <= j < i ==> xs[j].name != x.name
    {
      if xs[i].name == x.name {
        UpsertedAt(xs, x, merge, i);
        return xs[i := Entry(x.name, merge(xs[i].value, x.value))];
      }
    }
    UpsertedAt(xs, x, merge, |xs|);
    return xs + [x];
  }

  lemma {:induction false} UpsertedAt<T>(xs: seq<Entry<T>>, x: Entry<T>, merge: Merger<T>, i: nat)
    requires i <= |xs| && (forall j :: 0 <= j < i ==> xs[j].name != x.name) && (i < |xs| ==> xs[i].name == x.name)
    ensures Upserted(xs, x, merge) == if i < |xs| then xs[i := Entry(x.name, merge(xs[i].value, x.value))] else xs + [x]
  {
    if xs == [] {
    } else if i == 0 {
      assert xs == [xs[0]] + xs[1..];
    } else {
      UpsertedAt(xs[1..], x, merge, i - 1);
    }
  }

  method UpsertEntries<T>(xs: seq<Entry<T>>, ys: seq<Entry<T>>, merge: Merger<T>) returns (zs: seq<Entry<T>>)
    ensures zs == UpsertedAll(xs, ys, merge)
  {
    zs := xs;
    for i := 0 to |ys|
      invariant zs == UpsertedAll(xs, ys[..i], merge)
    {
      assert ys[..i + 1][..i] == ys[..i];
      zs := UpsertEntry(zs, ys[i], merge);
    }
    assert ys[..|ys|] == ys;
  }

  /* ---- laws ---- */

  lemma {:induction false} FindUpserted<T>(xs: seq<Entry<T>>, x: Entry<T>, merge: Merger<T>, name: string)
    ensures Find(Upserted(xs, x, merge), name) ==
      if name != x.name then Find(xs, name)
      else if Find(xs, name).Some? then Some(merge(Find(xs, name).value, x.value))
      else Some(x.value)
  {
    if xs == [] || xs[0].name == x.name {
    } else {
      FindUpserted(xs[1..], x, merge, name);
      assert Upserted(xs, x, merge)[1..] == Upserted(xs[1..], x, merge);
    }
  }

  lemma {:induction false} FindNamed<T>(xs: seq<Entry<T>>, name: string)
    ensures Find(xs, name).Some? <==> name in Names(xs)
  {
    if xs == [] {
    } else {
      FindNamed(xs[1..], name);
    }
  }

  lemma {:induction false} NamesUpserted<T>(xs: seq<Entry<T>>, x: Entry<T>, merge: Merger<T>)
    ensures Names(Upserted(xs, x, merge)) == if x.name in Names(xs) then Names(xs) else Names(xs) + [x.name]
  {
    if xs == [] || xs[0].name == x.name {
    } else {
      NamesUpserted(xs[1..], x, merge);
      assert Upserted(xs, x, merge)[1..] == Upserted(xs[1..], x, merge);
      assert x.name in Names(xs) <==> x.name in Names(xs[1..]);
    }
  }

  /** An upsert of what is there already changes nothing. */
  lemma {:induction false} UpsertedSame<T>(xs: seq<Entry<T>>, x: Entry<T>)
    requires Find(xs, x.name) == Some(x.value)
    ensures Upserted(xs, x, Replaced) == xs
  {
    if xs[0].name == x.name {
      assert xs == [xs[0]] + xs[1..];
    } else {
      UpsertedSame(xs[1..], x);
    }
  }

  lemma UpsertedUnique<T>(xs: seq<Entry<T>>, x: Entry<T>, merge: Merger<T>)
    requires Unique(xs)
    ensures Unique(Upserted(xs, x, merge))
  {
    NamesUpserted(xs, x, merge);
    var ys := Upserted(xs, x, merge);
    forall i, j | 0 <= i < j < |ys| ensures ys[i].name != ys[j].name {
      assert ys[i].name == Names(ys)[i] && ys[j].name == Names(ys)[j];
    }
  }

  lemma {:induction false} UpsertedAllUnique<T>(xs: seq<Entry<T>>, ys: seq<Entry<T>>, merge: Merger<T>)
    requires Unique(xs)
    ensures Unique(UpsertedAll(xs, ys, merge))
  {
    if ys == [] {
    } else {
      UpsertedAllUnique(xs, ys[..|ys| - 1], merge);
      UpsertedUnique(UpsertedAll(xs, ys[..|ys| - 1], merge), ys[|ys| - 1], merge);
    }
  }

  /** What merging a list of entries makes of the value under one name. */
  function Folded<T>(was: Option<T>, ys: seq<Entry<T>>, merge: Merger<T>, name: string): Option<T> {
    if ys == [] then was
    else
      var before, y := Folded(was, ys[..|ys| - 1], merge, name), ys[|ys| - 1];
      if y.name != name then before
      else if before.Some? then Some(merge(before.value, y.value))
      else Some(y.value)
  }

  lemma {:induction false} FindUpsertedAll<T>(xs: seq<Entry<T>>, ys: seq<Entry<T>>, merge: Merger<T>, name: string)
    ensures Find(UpsertedAll(xs, ys, merge), name) == Folded(Find(xs, name), ys, merge, name)
  {
    if ys == [] {
    } else {
      FindUpsertedAll(xs, ys[..|ys| - 1], merge, name);
      FindUpserted(UpsertedAll(xs, ys[..|ys| - 1], merge), ys[|ys| - 1], merge, name);
    }
  }

  /** The last value given under a name. */
  function Last<T>(ys: seq<Entry<T>>, name: string): Option<T> {
    if ys == [] then None
    else if ys[|ys| - 1].name == name then Some(ys[|ys| - 1].value)
    else Last(ys[..|ys| - 1], name)
  }

  /** Precedence: the last value given wins, and names not given keep what they had. */
  lemma {:induction false} LastWins<T>(xs: seq<Entry<T>>, ys: seq<Entry<T>>, name: string)
    ensures Find(UpsertedAll(xs, ys, Replaced), name) == if Last(ys, name).Some? then Last(ys, name) else Find(xs, name)
  {
    if ys == [] {
    } else {
      LastWins(xs, ys[..|ys| - 1], name);
      FindUpserted(UpsertedAll(xs, ys[..|ys| - 1], Replaced), ys[|ys| - 1], Replaced, name);
    }
  }

  lemma {:induction false} LastOfUnique<T>(ys: seq<Entry<T>>, i: nat)
    requires Unique(ys) && i < |ys|
    ensures Last(ys, ys[i].name) == Some(ys[i].value)
  {
    if i < |ys| - 1 {
      LastOfUnique(ys[..|ys| - 1], i);
    }
  }

  lemma {:induction false} LastNamed<T>(ys: seq<Entry<T>>, name: string)
    ensures Last(ys, name).Some? <==> exists i :: 0 <= i < |ys| && ys[i].name == name
  {
    if ys == [] {
    } else {
      LastNamed(ys[..|ys| - 1], name);
      if Last(ys, name).Some? && ys[|ys| - 1].name != name {
        var i :| 0 <= i < |ys| - 1 && ys[..|ys| - 1][i].name == name;
        assert ys[i].name == name;
      }
    }
  }

  lemma {:induction false} AllPresent<T>(xs: seq<Entry<T>>, ys: seq<Entry<T>>)
    requires forall i :: 0 <= i < |ys| ==> Find(xs, ys[i].name) == Some(ys[i].value)
    ensures UpsertedAll(xs, ys, Replaced) == xs
  {
    if ys == [] {
    } else {
      AllPresent(xs, ys[..|ys| - 1]);
      UpsertedSame(xs, ys[|ys| - 1]);
    }
  }

  /** Replacing upserts of distinct names are idempotent on every list. */
  lemma ReplacingIdempotent<T>(xs: seq<Entry<T>>, ys: seq<Entry<T>>)
    requires Unique(ys)
    ensures var zs := UpsertedAll(xs, ys, Replaced);
            UpsertedAll(zs, ys, Replaced) == zs
  {
    var zs := UpsertedAll(xs, ys, Replaced);
    forall i | 0 <= i < |ys| ensures Find(zs, ys[i].name) == Some(ys[i].value) {
      LastWins(xs, ys, ys[i].name);
      LastOfUnique(ys, i);
    }
    AllPresent(zs, ys);
  }

  lemma UpsertedAllAppend<T>(xs: seq<Entry<T>>, ys: seq<Entry<T>>, y: Entry<T>, merge: Merger<T>)
    ensures UpsertedAll(xs, ys + [y], merge) == Upserted(UpsertedAll(xs, ys, merge), y, merge)
  {
    assert (ys + [y])[..|ys|] == ys;
  }

  lemma {:induction false} UpsertedAllConcat<T>(xs: seq<Entry<T>>, ys: seq<Entry<T>>, zs: seq<Entry<T>>, merge: Merger<T>)
    ensures UpsertedAll(xs, ys + zs, merge) == UpsertedAll(UpsertedAll(xs, ys, merge), zs, merge)
  {
    if zs == [] {
      assert ys + zs == ys;
    } else {
      UpsertedAllConcat(xs, ys, zs[..|zs| - 1], merge);
      assert ys + zs == (ys + zs[..|zs| - 1]) + [zs[|zs| - 1]];
      UpsertedAllAppend(xs, ys + zs[..|zs| - 1], zs[|zs| - 1], merge);
    }
  }

  /* ---- merging upserts ---- */

  /** Merging is associative, and merging a value into itself changes nothing. */
  ghost predicate Band<T(!new)>(merge: Merger<T>) {
    && (forall a, b, c :: merge(merge(a, b), c) == merge(a, merge(b, c)))
    && (forall a :: merge(a, a) == a)
  }

  lemma {:induction false} FoldedMerges<T(!new)>(was: T, ys: seq<Entry<T>>, merge: Merger<T>, name: string)
    requires Band(merge)
    ensures Folded(Some(was), ys, merge, name) ==
      var alone := Folded(None, ys, merge, name);
      if alone.Some? then Some(merge(was, alone.value)) else Some(was)
  {
    if ys == [] {
    } else {
      FoldedMerges(was, ys[..|ys| - 1], merge, name);
    }
  }

  lemma FoldedTwice<T(!new)>(was: Option<T>, ys: seq<Entry<T>>, merge: Merger<T>, name: string)
    requires Band(merge)
    ensures Folded(Folded(was, ys, merge, name), ys, merge, name) == Folded(was, ys, merge, name)
  {
    var alone := Folded(None, ys, merge, name);
    if was.Some? { FoldedMerges(was.value, ys, merge, name); }
    var once := Folded(was, ys, merge, name);
    if once.Some? { FoldedMerges(once.value, ys, merge, name); }
  }

  /** The names in a list after upserts: those there, then the new ones in order. */
  lemma {:induction false} NamesUpsertedAll<T>(xs: seq<Entry<T>>, ys: seq<Entry<T>>, merge: Merger<T>)
    ensures Names(xs) <= Names(UpsertedAll(xs, ys, merge))
    ensures forall i :: 0 <= i < |ys| ==> ys[i].name in Names(UpsertedAll(xs, ys, merge))
    ensures (forall i :: 0 <= i < |ys| ==> ys[i].name in Names(xs)) ==> Names(UpsertedAll(xs, ys, merge)) == Names(xs)
  {
    if ys == [] {
    } else {
      var zs, y := ys[..|ys| - 1], ys[|ys| - 1];
      var before, after := Names(UpsertedAll(xs, zs, merge)), Names(UpsertedAll(xs, ys, merge));
      NamesUpsertedAll(xs, zs, merge);
      NamesUpserted(UpsertedAll(xs, zs, merge), y, merge);
      assert UpsertedAll(xs, ys, merge) == Upserted(UpsertedAll(xs, zs, merge), y, merge);
      hide Names, UpsertedAll, Upserted;
      assert after == if y.name in before then before else before + [y.name];
      forall i | 0 <= i < |ys| ensures ys[i].name in after {
        if i < |zs| { assert zs[i] == ys[i]; }
      }
      if forall i :: 0 <= i < |ys| ==> ys[i].name in Names(xs) {
        forall i | 0 <= i < |zs| ensures zs[i].name in Names(xs) { assert zs[i] == ys[i]; }
      }
    }
  }

  lemma {:induction false} FindAt<T>(xs: seq<Entry<T>>, i: nat)
    requires Unique(xs) && i < |xs|
    ensures Find(xs, xs[i].name) == Some(xs[i].value)
  {
    if i > 0 { FindAt(xs[1..], i - 1); }
  }

  /** Lists with unique names are the same when names and values are. */
  lemma SameEntries<T>(xs: seq<Entry<T>>, ys: seq<Entry<T>>)
    requires Unique(xs) && Unique(ys) && Names(xs) == Names(ys)
    requires forall name :: name in Names(xs) ==> Find(xs, name) == Find(ys, name)
    ensures xs == ys
  {
    forall i | 0 <= i < |xs| ensures xs[i] == ys[i] {
      assert Names(xs)[i] == xs[i].name && Names(ys)[i] == ys[i].name;
      FindAt(xs, i);
      FindAt(ys, i);
    }
  }

  /** Merging upserts are idempotent, even when one name is given several times. */
  lemma MergingIdempotent<T(!new)>(xs: seq<Entry<T>>, ys: seq<Entry<T>>, merge: Merger<T>)
    requires Unique(xs) && Band(merge)
    ensures var zs := UpsertedAll(xs, ys, merge);
            UpsertedAll(zs, ys, merge) == zs
  {
    var zs := UpsertedAll(xs, ys, merge);
    var again := UpsertedAll(zs, ys, merge);
    UpsertedAllUnique(xs, ys, merge);
    UpsertedAllUnique(zs, ys, merge);
    NamesUpsertedAll(xs, ys, merge);
    NamesUpsertedAll(zs, ys, merge);
    forall name | name in Names(again) ensures Find(again, name) == Find(zs, name) {
      FindUpsertedAll(xs, ys, merge, name);
      FindUpsertedAll(zs, ys, merge, name);
      FoldedTwice(Find(xs, name), ys, merge, name);
    }
    SameEntries(again, zs);
  }
}
