/** Every entry of a merged catalog, key by key, and the order of those the picker
    does not place. */
module CatalogEntries {
  import opened Options
  import opened Catalog

  // ----- the entry under a slug

  /** Entry i is the last under this slug. */
  predicate LastUnder(entries: seq<Entry>, s: string, i: nat) {
    i < |entries| && Slug(entries[i]) == s && forall j :: i < j < |entries| ==> Slug(entries[j]) != s
  }

  lemma {:induction false} BySlugIsLast(entries: seq<Entry>, s: string, i: nat)
    requires LastUnder(entries, s, i)
    ensures s in BySlug(entries) && BySlug(entries)[s] == entries[i]
  {
    if i < |entries| - 1 {
      var before := entries[..|entries| - 1];
      assert forall j :: i < j < |before| ==> before[j] == entries[j];
      BySlugIsLast(before, s, i);
    }
  }

  /** Leaving out other slugs leaves the entry under this one. */
  lemma {:induction false} BySlugFiltered(f: Entry -> bool, entries: seq<Entry>, s: string)
    requires forall e :: Slug(e) == s ==> f(e)
    ensures s in BySlug(Filter(f, entries)) <==> s in BySlug(entries)
    ensures s in BySlug(entries) ==> BySlug(Filter(f, entries))[s] == BySlug(entries)[s]
  {
    if entries != [] {
      var before, last := entries[..|entries| - 1], entries[|entries| - 1];
      BySlugFiltered(f, before, s);
      BySlugMore(Filter(f, before), last);
      assert Filter(f, before) + [] == Filter(f, before);
    }
  }

  // ----- what the merge writes

  /** What the merge writes under a key of the model with this slug: its place in the
      order, that it is hidden when there is an order without it, and for an external
      model the comp_hash of the native one at the top, when one is shown. */
  function Writes(merged: seq<Entry>, external: seq<Entry>, order: seq<string>, s: string, key: string): Option<Value> {
    if key == "priority" && s in order then Some(Number(Place(order, s)))
    else if key == "visibility" && s !in order && order != [] then Some(Text("hide"))
    else if key == "comp_hash" && s in Slugs(external) && TopHash(merged, external).Some?
    then Some(TopHash(merged, external).value.0)
    else None
  }

  lemma {:induction false} TopHashSame(shown: seq<Entry>, external: seq<Entry>, hash: Value)
    ensures TopHash(WithHash(shown, external, hash), external) == TopHash(shown, external)
  {
    if shown != [] {
      var n := |shown| - 1;
      TopHashSame(shown[..n], external, hash);
      SameNative(shown, external, hash, n);
      assert WithHash(shown, external, hash)[..n] == WithHash(shown[..n], external, hash);
    }
  }

  /** The two entries agree key by key, but for what is written. */
  ghost predicate Written(x: Entry, e: Entry, merged: seq<Entry>, external: seq<Entry>, order: seq<string>) {
    forall key ::
      var w := Writes(merged, external, order, Slug(e), key);
      (key in x <==> key in e || w.Some?) && (key in x ==> x[key] == if w.Some? then w.value else e[key])
  }

  lemma DressedWritten(e: Entry, order: seq<string>, key: string)
    ensures var x := Dress(e, order);
            if key == "priority" && Slug(e) in order then key in x && x[key] == Number(Place(order, Slug(e)))
            else if key == "visibility" && Slug(e) !in order && order != [] then key in x && x[key] == Text("hide")
            else (key in x <==> key in e) && (key in e ==> x[key] == e[key])
  {
  }

  lemma HashWritten(natives: seq<Entry>, external: seq<Entry>, p: Picker, k: nat, key: string)
    requires k < |Merged(natives, external, p)| == |Shown(natives, external, p)|
    ensures var m, y := Merged(natives, external, p), Shown(natives, external, p)[k];
            var x, hash := m[k], TopHash(m, external);
            if key == "comp_hash" && Slug(y) in Slugs(external) && hash.Some? then key in x && x[key] == hash.value.0
            else (key in x <==> key in y) && (key in y ==> x[key] == y[key])
  {
    var shown := Shown(natives, external, p);
    match TopHash(shown, external)
    case None =>
    case Some((hash, _)) => TopHashSame(shown, external, hash);
  }

  /** Entry k of a merged catalog is the last one under its slug, of the external models
      if one of them has it and of the native ones if not, with what the merge writes and
      nothing else changed. */
  lemma EntryExactly(natives: seq<Entry>, external: seq<Entry>, p: Picker, k: nat, i: nat)
    requires k < |Merged(natives, external, p)|
    requires var s := Slug(Merged(natives, external, p)[k]);
             LastUnder(if s in Slugs(external) then external else natives, s, i)
    ensures var m := Merged(natives, external, p);
            var e := if Slug(m[k]) in Slugs(external) then external[i] else natives[i];
            Written(m[k], e, m, external, p.order)
  {
    var m := Merged(natives, external, p);
    var s := Slug(m[k]);
    var e := if s in Slugs(external) then external[i] else natives[i];
    MergedAt(natives, external, p, k);
    ShownAt(natives, external, p, k);
    WhichEntry(natives, external, p, s, i);
    forall key ensures var w := Writes(m, external, p.order, s, key);
                       (key in m[k] <==> key in e || w.Some?) && (key in m[k] ==> m[k][key] == if w.Some? then w.value else e[key])
    {
      DressedWritten(e, p.order, key);
      HashWritten(natives, external, p, k, key);
    }
  }

  lemma WhichEntry(natives: seq<Entry>, external: seq<Entry>, p: Picker, s: string, i: nat)
    requires var parts := PartsOf(natives, external, p); s in BySlug(parts.native + parts.ext)
    requires LastUnder(if s in Slugs(external) then external else natives, s, i)
    ensures var parts := PartsOf(natives, external, p);
            BySlug(parts.native + parts.ext)[s] == if s in Slugs(external) then external[i] else natives[i]
  {
    var parts := PartsOf(natives, external, p);
    PartsApart(natives, external, p);
    BySlugKeys(parts.native + parts.ext);
    SlugsConcat(parts.native, parts.ext);
    if s in Slugs(external) {
      ExternalWins(parts, s);
      BySlugIsLast(external, s, i);
      BySlugFiltered((e: Entry) => Slug(e) !in p.hidden, external, s);
    } else {
      NativeWins(parts, s);
      BySlugIsLast(natives, s, i);
      BySlugFiltered((e: Entry) => Slug(e) !in Slugs(external) && Slug(e) !in p.hidden, natives, s);
    }
  }

  // ----- the order of the rest

  /** Each slug of r comes before the next ones in ss. */
  predicate InPlace(r: seq<string>, ss: seq<string>) {
    forall i, j :: 0 <= i < j < |r| ==> Place(ss, r[i]) < Place(ss, r[j])
  }

  lemma {:induction false} DedupInPlace(ss: seq<string>)
    ensures InPlace(Dedup(ss), ss)
  {
    if ss != [] {
      var before, x := ss[..|ss| - 1], ss[|ss| - 1];
      DedupInPlace(before);
      assert ss == before + [x];
      PlacesMore(Dedup(before), before, x);
    }
  }

  lemma PlacesMore(r: seq<string>, ss: seq<string>, x: string)
    requires InPlace(r, ss) && forall s :: s in r ==> s in ss
    ensures InPlace(r, ss + [x]) && (x !in ss ==> InPlace(r + [x], ss + [x]))
  {
    forall i | 0 <= i < |r| ensures Place(ss + [x], r[i]) == Place(ss, r[i]) < |ss| {
      assert r[i] in r;
      PlaceMore(ss, x, r[i]);
    }
    PlaceMore(ss, x, x);
  }

  lemma {:induction false} FilterInPlace(f: string -> bool, r: seq<string>, ss: seq<string>)
    requires InPlace(r, ss)
    ensures InPlace(Filter(f, r), ss)
  {
    if r != [] {
      var before, x := r[..|r| - 1], r[|r| - 1];
      FilterInPlace(f, before, ss);
      var kept := Filter(f, before);
      forall i | 0 <= i < |kept| ensures Place(ss, kept[i]) < Place(ss, x) {
        assert kept[i] in kept;
        var j :| 0 <= j < |before| && before[j] == kept[i];
        assert r[j] == kept[i];
      }
    }
  }

  lemma DedupMore(ss: seq<string>, x: string)
    ensures Dedup(ss + [x]) == if x in ss then Dedup(ss) else Dedup(ss) + [x]
  {
    assert (ss + [x])[..|ss|] == ss;
  }

  lemma {:induction false} DedupFiltered(f: string -> bool, ss: seq<string>)
    ensures Dedup(Filter(f, ss)) == Filter(f, Dedup(ss))
  {
    if ss != [] {
      var before, x := ss[..|ss| - 1], ss[|ss| - 1];
      assert ss == before + [x];
      DedupFiltered(f, before);
      FilterOneMore(f, Dedup(before), x);
      FilterOneMore(f, before, x);
      DedupMore(before, x);
      DedupMore(Filter(f, before), x);
    }
  }

  lemma FilterOneMore(f: string -> bool, ss: seq<string>, x: string)
    ensures Filter(f, ss + [x]) == if f(x) then Filter(f, ss) + [x] else Filter(f, ss)
  {
    assert (ss + [x])[..|ss|] == ss;
  }

  /** The slugs outside the order, of some of the models. */
  function Unplaced(entries: seq<Entry>, order: seq<string>): (r: seq<string>)
    ensures forall s :: s in r <==> s in Slugs(entries) && s !in order
  {
    Filter((s: string) => s !in order, Dedup(Slugs(entries)))
  }

  /** First the slugs of the order, then those of the native models, then those of the
      external ones. */
  lemma InThreeParts(natives: seq<Entry>, external: seq<Entry>, p: Picker) returns (first: seq<string>)
    ensures var parts := PartsOf(natives, external, p);
            Slugs(Merged(natives, external, p)) == first + (Unplaced(parts.native, p.order) + Unplaced(parts.ext, p.order))
    ensures forall k :: 0 <= k < |first| ==> first[k] in p.order
  {
    var parts := PartsOf(natives, external, p);
    first := InOrder(p.order, SetOf(Slugs(parts.native + parts.ext)));
    SlugsOfShown(natives, external, p);
    PartsApart(natives, external, p);
    RestSplit(parts, (s: string) => s !in p.order);
  }

  /** Both kinds come in the order they are first seen in. */
  lemma UnplacedInPlace(natives: seq<Entry>, external: seq<Entry>, p: Picker)
    ensures var parts := PartsOf(natives, external, p);
            && InPlace(Unplaced(parts.native, p.order), Slugs(natives))
            && InPlace(Unplaced(parts.ext, p.order), Slugs(external))
  {
    var rest := (s: string) => s !in p.order;
    var ours := (s: string) => s !in Slugs(external) && s !in p.hidden;
    var shown := (s: string) => s !in p.hidden;
    SlugsOfFilter((x: Entry) => Slug(x) !in Slugs(external) && Slug(x) !in p.hidden, ours, natives);
    SlugsOfFilter((x: Entry) => Slug(x) !in p.hidden, shown, external);
    KeptInPlace(rest, ours, Slugs(natives));
    KeptInPlace(rest, shown, Slugs(external));
  }

  lemma KeptInPlace(f: string -> bool, g: string -> bool, ss: seq<string>)
    ensures InPlace(Filter(f, Dedup(Filter(g, ss))), ss)
  {
    DedupFiltered(g, ss);
    DedupInPlace(ss);
    FilterInPlace(g, Dedup(ss), ss);
    FilterInPlace(f, Filter(g, Dedup(ss)), ss);
  }

  /** Of two models outside the picker's order, a native one comes before an external one,
      and of two of a kind the one whose slug is seen first. */
  lemma RestAsFirstSeen(natives: seq<Entry>, external: seq<Entry>, p: Picker, i: nat, j: nat)
    requires var m := Merged(natives, external, p);
             i < j < |m| && Slug(m[i]) !in p.order && Slug(m[j]) !in p.order
    ensures var s, t := Slug(Merged(natives, external, p)[i]), Slug(Merged(natives, external, p)[j]);
            if s in Slugs(external) then t in Slugs(external) && Place(Slugs(external), s) < Place(Slugs(external), t)
            else t in Slugs(external) || Place(Slugs(natives), s) < Place(Slugs(natives), t)
  {
    var parts := PartsOf(natives, external, p);
    var first := InThreeParts(natives, external, p);
    var n, e := Unplaced(parts.native, p.order), Unplaced(parts.ext, p.order);
    UnplacedInPlace(natives, external, p);
    PartsApart(natives, external, p);
    AmongParts(first, n, e, Slugs(external), Slugs(natives), p.order, i, j);
    assert Slugs(Merged(natives, external, p))[i] == Slug(Merged(natives, external, p)[i]);
  }

  lemma AfterFirst(first: seq<string>, rest: seq<string>, order: seq<string>, i: nat)
    requires (forall k :: 0 <= k < |first| ==> first[k] in order) && i < |first + rest| && (first + rest)[i] !in order
    ensures i >= |first| && (first + rest)[i] == rest[i - |first|]
  {
  }

  lemma AmongParts(first: seq<string>, n: seq<string>, e: seq<string>, external: seq<string>, natives: seq<string>, order: seq<string>,
                   i: nat, j: nat)
    requires i < j < |first + (n + e)|
    requires forall k :: 0 <= k < |first| ==> first[k] in order
    requires forall s :: s in n ==> s !in external
    requires forall s :: s in e ==> s in external
    requires InPlace(n, natives) && InPlace(e, external)
    requires var all := first + (n + e); all[i] !in order && all[j] !in order
    ensures var all := first + (n + e);
            if all[i] in external then all[j] in external && Place(external, all[i]) < Place(external, all[j])
            else all[j] in external || Place(natives, all[i]) < Place(natives, all[j])
  {
    var i', j' := i - |first|, j - |first|;
    AfterFirst(first, n + e, order, i);
    AfterFirst(first, n + e, order, j);
    assert i' < |n| ==> (n + e)[i'] == n[i'] && n[i'] in n;
    assert i' >= |n| ==> (n + e)[i'] == e[i' - |n|] && e[i' - |n|] in e;
    assert j' < |n| ==> (n + e)[j'] == n[j'] && n[j'] in n;
    assert j' >= |n| ==> (n + e)[j'] == e[j' - |n|] && e[j' - |n|] in e;
  }
}
