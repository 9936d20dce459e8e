/** The model catalog: OpenAI's native entries and the external models, shaped
    by the picker. */
module Catalog {
  import opened Options

  /** A JSON value; what is neither a whole number nor a string stays opaque. */
  datatype Value = Number(n: int) | Text(s: string) | Null | Other(raw: string)

  /** One model in a catalog. */
  type Entry = map<string, Value>

  /** Shapes the picker: order from top to bottom, and models left out entirely. */
  datatype Picker = Picker(order: seq<string>, hidden: seq<string>)

  function StringAt(e: Entry, key: string): string {
    if key in e && e[key].Text? then e[key].s else ""
  }

  function IntAt(e: Entry, key: string): int {
    if key in e && e[key].Number? then e[key].n else 0
  }

  function Slug(e: Entry): string {
    StringAt(e, "slug")
  }

  function HashAt(e: Entry): Option<Value> {
    if "comp_hash" in e && e["comp_hash"] != Null then Some(e["comp_hash"]) else None
  }

  // ----- lists of slugs

  function Slugs(entries: seq<Entry>): (ss: seq<string>)
    ensures |ss| == |entries|
    ensures forall k :: 0 <= k < |ss| ==> ss[k] == Slug(entries[k])
  {
    seq(|entries|, k requires 0 <= k < |entries| => Slug(entries[k]))
  }

  function Filter<T(!new)>(f: T -> bool, s: seq<T>): (r: seq<T>)
    ensures forall x :: x in r <==> x in s && f(x)
  {
    if s == [] then [] else Filter(f, s[..|s| - 1]) + if f(s[|s| - 1]) then [s[|s| - 1]] else []
  }

  /** The slugs in the order they are first seen. */
  function Dedup(ss: seq<string>): (r: seq<string>)
    ensures forall x :: x in r <==> x in ss
  {
    if ss == [] then []
    else
      var r := Dedup(ss[..|ss| - 1]);
      if ss[|ss| - 1] in r then r else r + [ss[|ss| - 1]]
  }

  predicate Distinct(ss: seq<string>) {
    forall i, j :: 0 <= i < j < |ss| ==> ss[i] != ss[j]
  }

  lemma {:induction false} DedupDistinct(ss: seq<string>)
    ensures Distinct(Dedup(ss))
    ensures Distinct(ss) ==> Dedup(ss) == ss
  {
    if ss != [] {
      var before, s := ss[..|ss| - 1], ss[|ss| - 1];
      DedupDistinct(before);
      assert ss == before + [s];
      if Distinct(ss) {
        assert s !in before;
      }
    }
  }

  predicate Apart(x: seq<string>, y: seq<string>) {
    forall s :: s in x ==> s !in y
  }

  lemma {:induction false} DedupConcat(x: seq<string>, y: seq<string>)
    requires Apart(x, y)
    ensures Dedup(x + y) == Dedup(x) + Dedup(y)
  {
    if y == [] {
      assert x + y == x;
    } else {
      var y' := y[..|y| - 1];
      assert (x + y)[..|x + y| - 1] == x + y';
      assert y[|y| - 1] in y;
      DedupConcat(x, y');
    }
  }

  lemma {:induction false} FilterConcat<T(!new)>(f: T -> bool, x: seq<T>, y: seq<T>)
    ensures Filter(f, x + y) == Filter(f, x) + Filter(f, y)
  {
    if y == [] {
      assert x + y == x;
    } else {
      assert (x + y)[..|x + y| - 1] == x + y[..|y| - 1];
      FilterConcat(f, x, y[..|y| - 1]);
    }
  }

  lemma {:induction false} FilterAll<T(!new)>(f: T -> bool, s: seq<T>)
    requires forall x :: x in s ==> f(x)
    ensures Filter(f, s) == s
  {
    if s != [] {
      var before, x := s[..|s| - 1], s[|s| - 1];
      assert x in s && f(x) && s == before + [x];
      FilterAll(f, before);
    }
  }

  lemma {:induction false} FilterNone<T(!new)>(f: T -> bool, s: seq<T>)
    requires forall x :: x in s ==> !f(x)
    ensures Filter(f, s) == []
  {
    if s != [] {
      assert s[|s| - 1] in s;
      FilterNone(f, s[..|s| - 1]);
    }
  }

  lemma {:induction false} FilterDistinct(f: string -> bool, ss: seq<string>)
    requires Distinct(ss)
    ensures Distinct(Filter(f, ss))
  {
    if ss != [] {
      FilterDistinct(f, ss[..|ss| - 1]);
    }
  }

  // ----- the merge

  /** The last entry under each slug. */
  function BySlug(entries: seq<Entry>): map<string, Entry> {
    if entries == [] then map[]
    else
      var last := entries[|entries| - 1];
      BySlug(entries[..|entries| - 1])[Slug(last) := last]
  }

  lemma {:induction false} BySlugKeys(entries: seq<Entry>)
    ensures forall s :: s in BySlug(entries) <==> s in Slugs(entries)
  {
    if entries != [] {
      BySlugKeys(entries[..|entries| - 1]);
      assert Slugs(entries) == Slugs(entries[..|entries| - 1]) + [Slug(entries[|entries| - 1])];
    }
  }

  lemma {:induction false} BySlugHolds(entries: seq<Entry>)
    ensures forall s :: s in BySlug(entries) <==> s in Slugs(entries)
    ensures forall s :: s in BySlug(entries) ==> Slug(BySlug(entries)[s]) == s && BySlug(entries)[s] in entries
  {
    BySlugKeys(entries);
    if entries != [] {
      BySlugHolds(entries[..|entries| - 1]);
    }
  }

  /** The slugs of the picker's order that are there, each at its first place. */
  function InOrder(order: seq<string>, names: set<string>): (r: seq<string>)
    ensures forall s :: s in r <==> s in order && s in names
  {
    if order == [] then []
    else
      var r, s := InOrder(order[..|order| - 1], names), order[|order| - 1];
      if s in names && s !in r then r + [s] else r
  }

  /** A slug's first place in the order. */
  function Place(order: seq<string>, s: string): nat {
    if order == [] || order[0] == s then 0 else 1 + Place(order[1..], s)
  }

  /** An entry as the picker shows it. */
  function Dress(e: Entry, order: seq<string>): Entry {
    if Slug(e) in order then e["priority" := Number(Place(order, Slug(e)))]
    else if order != [] then e["visibility" := Text("hide")]
    else e
  }

  /** Which entries go in: not hidden and, of the native ones, not replaced. */
  function NativeIn(natives: seq<Entry>, external: seq<Entry>, p: Picker): seq<Entry> {
    Filter((e: Entry) => Slug(e) !in Slugs(external) && Slug(e) !in p.hidden, natives)
  }

  function ExternalIn(external: seq<Entry>, p: Picker): seq<Entry> {
    Filter((e: Entry) => Slug(e) !in p.hidden, external)
  }

  function SetOf(ss: seq<string>): set<string> {
    set s | s in ss
  }

  /** The slugs of the merged catalog: the picker's order, then the rest as
      first seen. */
  function MergedSlugs(entries: seq<Entry>, order: seq<string>): (ss: seq<string>)
    ensures forall s :: s in ss <==> s in Slugs(entries)
  {
    InOrder(order, SetOf(Slugs(entries))) + Filter((s: string) => s !in order, Dedup(Slugs(entries)))
  }

  function EntriesFor(ss: seq<string>, m: map<string, Entry>, order: seq<string>): (r: seq<Entry>)
    requires forall s :: s in ss ==> s in m
    ensures |r| == |ss|
  {
    if ss == [] then []
    else
      assert ss[|ss| - 1] in ss;
      EntriesFor(ss[..|ss| - 1], m, order) + [Dress(m[ss[|ss| - 1]], order)]
  }

  lemma {:induction false} EntriesForAt(ss: seq<string>, m: map<string, Entry>, order: seq<string>, k: nat)
    requires k < |ss| && forall s :: s in ss ==> s in m
    ensures ss[k] in ss && EntriesFor(ss, m, order)[k] == Dress(m[ss[k]], order)
  {
    if k < |ss| - 1 {
      EntriesForAt(ss[..|ss| - 1], m, order, k);
    }
  }

  /** The merged entries before the external ones take a comp_hash. */
  function Shown(natives: seq<Entry>, external: seq<Entry>, p: Picker): seq<Entry> {
    var entries := NativeIn(natives, external, p) + ExternalIn(external, p);
    BySlugKeys(entries);
    EntriesFor(MergedSlugs(entries, p.order), BySlug(entries), p.order)
  }

  predicate ShownNative(e: Entry, external: seq<Entry>) {
    Slug(e) !in Slugs(external) && StringAt(e, "visibility") != "hide" && HashAt(e) != None
  }

  /** The comp_hash of the shown native model of least priority, the first of them. */
  function TopHash(entries: seq<Entry>, external: seq<Entry>): Option<(Value, int)> {
    if entries == [] then None
    else
      var best, e := TopHash(entries[..|entries| - 1], external), entries[|entries| - 1];
      if ShownNative(e, external) && (best == None || IntAt(e, "priority") < best.value.1)
      then Some((HashAt(e).value, IntAt(e, "priority"))) else best
  }

  /** External models take the hash; native ones stay. */
  function WithHash(entries: seq<Entry>, external: seq<Entry>, hash: Value): (r: seq<Entry>)
    ensures |r| == |entries|
  {
    seq(|entries|, k requires 0 <= k < |entries| =>
      if Slug(entries[k]) in Slugs(external) then entries[k]["comp_hash" := hash] else entries[k])
  }

  function Merged(natives: seq<Entry>, external: seq<Entry>, p: Picker): seq<Entry> {
    var shown := Shown(natives, external, p);
    match TopHash(shown, external)
    case None => shown
    case Some((hash, _)) => WithHash(shown, external, hash)
  }

  // ----- merging again

  lemma BySlugMore(entries: seq<Entry>, e: Entry)
    ensures BySlug(entries + [e]) == BySlug(entries)[Slug(e) := e]
  {
    assert (entries + [e])[..|entries|] == entries;
  }

  lemma {:induction false} BySlugConcat(x: seq<Entry>, y: seq<Entry>)
    ensures BySlug(x + y) == BySlug(x) + BySlug(y)
  {
    if y == [] {
      assert x + y == x;
    } else {
      var y', e := y[..|y| - 1], y[|y| - 1];
      assert y == y' + [e] && x + y == x + y' + [e];
      BySlugConcat(x, y');
      BySlugMore(x + y', e);
      BySlugMore(y', e);
    }
  }

  lemma {:induction false} SlugsOfFilter(f: Entry -> bool, g: string -> bool, entries: seq<Entry>)
    requires forall e :: f(e) == g(Slug(e))
    ensures Slugs(Filter(f, entries)) == Filter(g, Slugs(entries))
  {
    if entries != [] {
      SlugsOfFilter(f, g, entries[..|entries| - 1]);
      assert Slugs(entries)[..|entries| - 1] == Slugs(entries[..|entries| - 1]);
    }
  }

  lemma {:induction false} InOrderDistinct(order: seq<string>, names: set<string>)
    ensures Distinct(InOrder(order, names))
  {
    if order != [] {
      InOrderDistinct(order[..|order| - 1], names);
    }
  }

  /** What goes into a merge, split by where it comes from. */
  datatype Parts = Parts(native: seq<Entry>, ext: seq<Entry>)

  function PartsOf(natives: seq<Entry>, external: seq<Entry>, p: Picker): Parts {
    Parts(NativeIn(natives, external, p), ExternalIn(external, p))
  }

  lemma SlugsConcat(x: seq<Entry>, y: seq<Entry>)
    ensures Slugs(x + y) == Slugs(x) + Slugs(y)
  {
  }

  lemma PartsApart(natives: seq<Entry>, external: seq<Entry>, p: Picker)
    ensures var parts := PartsOf(natives, external, p);
            && Apart(Slugs(parts.native), Slugs(parts.ext))
            && (forall s :: s in Slugs(parts.native) ==> s !in Slugs(external) && s !in p.hidden)
            && (forall s :: s in Slugs(parts.ext) <==> s in Slugs(external) && s !in p.hidden)
  {
    var parts := PartsOf(natives, external, p);
    SlugsOfFilter((e: Entry) => Slug(e) !in Slugs(external) && Slug(e) !in p.hidden,
                  (s: string) => s !in Slugs(external) && s !in p.hidden, natives);
    SlugsOfFilter((e: Entry) => Slug(e) !in p.hidden, (s: string) => s !in p.hidden, external);
  }

  lemma ConcatDistinct(x: seq<string>, y: seq<string>)
    requires Distinct(x) && Distinct(y) && Apart(x, y)
    ensures Distinct(x + y)
  {
    forall i, j | 0 <= i < j < |x + y| ensures (x + y)[i] != (x + y)[j] {
      if i < |x| <= j {
        assert x[i] in x && y[j - |x|] in y;
      }
    }
  }

  lemma MergedSlugsDistinct(entries: seq<Entry>, order: seq<string>)
    ensures Distinct(MergedSlugs(entries, order))
  {
    var rest := (s: string) => s !in order;
    InOrderDistinct(order, SetOf(Slugs(entries)));
    DedupDistinct(Slugs(entries));
    FilterDistinct(rest, Dedup(Slugs(entries)));
    ConcatDistinct(InOrder(order, SetOf(Slugs(entries))), Filter(rest, Dedup(Slugs(entries))));
  }

  /** What follows the picker's order: native slugs first, then external ones. */
  lemma RestSplit(parts: Parts, rest: string -> bool)
    requires Apart(Slugs(parts.native), Slugs(parts.ext))
    ensures Filter(rest, Dedup(Slugs(parts.native + parts.ext))) ==
            Filter(rest, Dedup(Slugs(parts.native))) + Filter(rest, Dedup(Slugs(parts.ext)))
  {
    SlugsConcat(parts.native, parts.ext);
    DedupConcat(Slugs(parts.native), Slugs(parts.ext));
    FilterConcat(rest, Dedup(Slugs(parts.native)), Dedup(Slugs(parts.ext)));
  }

  lemma SlugsOfEntriesFor(ss: seq<string>, m: map<string, Entry>, order: seq<string>)
    requires forall s :: s in ss ==> s in m && Slug(m[s]) == s
    ensures Slugs(EntriesFor(ss, m, order)) == ss
  {
    forall k | 0 <= k < |ss| ensures Slugs(EntriesFor(ss, m, order))[k] == ss[k] {
      EntriesForAt(ss, m, order, k);
    }
  }

  lemma SlugsOfWithHash(entries: seq<Entry>, external: seq<Entry>, hash: Value)
    ensures Slugs(WithHash(entries, external, hash)) == Slugs(entries)
  {
  }

  lemma SlugsOfShown(natives: seq<Entry>, external: seq<Entry>, p: Picker)
    ensures var parts := PartsOf(natives, external, p);
            && Slugs(Shown(natives, external, p)) == MergedSlugs(parts.native + parts.ext, p.order)
            && Slugs(Merged(natives, external, p)) == MergedSlugs(parts.native + parts.ext, p.order)
  {
    var parts := PartsOf(natives, external, p);
    var all := parts.native + parts.ext;
    var shown := Shown(natives, external, p);
    BySlugHolds(all);
    SlugsOfEntriesFor(MergedSlugs(all, p.order), BySlug(all), p.order);
    match TopHash(shown, external)
    case None =>
    case Some((hash, _)) => SlugsOfWithHash(shown, external, hash);
  }

  lemma FilterParts(g: string -> bool, i: seq<string>, n: seq<string>, e: seq<string>)
    requires (forall s :: s in n ==> g(s)) && (forall s :: s in e ==> !g(s))
    ensures Filter(g, i + (n + e)) == Filter(g, i) + n
  {
    FilterConcat(g, i, n + e);
    FilterConcat(g, n, e);
    FilterAll(g, n);
    FilterNone(g, e);
    assert n + [] == n;
  }

  /** The native entries of a merged catalog, by slug: the picker's own places,
      then the rest as first seen. */
  lemma NativesAgain(natives: seq<Entry>, external: seq<Entry>, p: Picker)
    ensures var parts := PartsOf(natives, external, p);
            var g := (s: string) => s !in Slugs(external) && s !in p.hidden;
            Slugs(NativeIn(Merged(natives, external, p), external, p)) ==
            Filter(g, InOrder(p.order, SetOf(Slugs(parts.native + parts.ext))))
              + Filter((s: string) => s !in p.order, Dedup(Slugs(parts.native)))
  {
    var parts := PartsOf(natives, external, p);
    var g := (s: string) => s !in Slugs(external) && s !in p.hidden;
    var rest := (s: string) => s !in p.order;
    var i := InOrder(p.order, SetOf(Slugs(parts.native + parts.ext)));
    var n, e := Filter(rest, Dedup(Slugs(parts.native))), Filter(rest, Dedup(Slugs(parts.ext)));
    SlugsOfShown(natives, external, p);
    PartsApart(natives, external, p);
    RestSplit(parts, rest);
    SlugsOfFilter((x: Entry) => Slug(x) !in Slugs(external) && Slug(x) !in p.hidden, g, Merged(natives, external, p));
    FilterParts(g, i, n, e);
  }

  /** Merging again finds the same slugs, and the same ones after the order. */
  lemma AgainSplit(order: seq<string>, names: set<string>, n: seq<string>, g: string -> bool)
    requires Distinct(n)
    requires forall s :: s in n ==> s in names && g(s)
    ensures var rest := (s: string) => s !in order;
            var again := Filter(g, InOrder(order, names)) + Filter(rest, n);
            && Dedup(again) == again
            && Filter(rest, again) == Filter(rest, n)
            && (forall s :: s in n ==> s in again)
            && (forall s :: s in again ==> s in names)
  {
    var rest := (s: string) => s !in order;
    var i, m := Filter(g, InOrder(order, names)), Filter(rest, n);
    InOrderDistinct(order, names);
    FilterDistinct(g, InOrder(order, names));
    FilterDistinct(rest, n);
    ConcatDistinct(i, m);
    DedupDistinct(i + m);
    FilterConcat(rest, i, m);
    FilterNone(rest, i);
    FilterAll(rest, m);
  }

  /** The merged slugs come out the same when a merged catalog is merged again. */
  lemma SlugsAgain(natives: seq<Entry>, external: seq<Entry>, p: Picker)
    ensures var parts := PartsOf(natives, external, p);
            var again := PartsOf(Merged(natives, external, p), external, p);
            MergedSlugs(again.native + again.ext, p.order) == MergedSlugs(parts.native + parts.ext, p.order)
  {
    var parts := PartsOf(natives, external, p);
    var again := PartsOf(Merged(natives, external, p), external, p);
    var names, n := SetOf(Slugs(parts.native + parts.ext)), Dedup(Slugs(parts.native));
    PartsApart(natives, external, p);
    PartsApart(Merged(natives, external, p), external, p);
    SlugsConcat(parts.native, parts.ext);
    SlugsConcat(again.native, again.ext);
    DedupDistinct(Slugs(parts.native));
    AgainSplit(p.order, names, n, (s: string) => s !in Slugs(external) && s !in p.hidden);
    NativesAgain(natives, external, p);
    SameNames(Slugs(parts.native), Slugs(again.native), Slugs(parts.ext));
    RestSplit(parts, (s: string) => s !in p.order);
    RestSplit(again, (s: string) => s !in p.order);
  }

  lemma SameNames(x: seq<string>, y: seq<string>, ext: seq<string>)
    requires forall s :: s in x ==> s in y
    requires forall s :: s in y ==> s in x || s in ext
    ensures SetOf(x + ext) == SetOf(y + ext)
  {
  }

  lemma DressAgain(e: Entry, order: seq<string>)
    ensures Dress(Dress(e, order), order) == Dress(e, order)
    ensures Slug(Dress(e, order)) == Slug(e)
  {
  }

  /** The keys the merge may write. */
  predicate Written(key: string) {
    key == "priority" || key == "visibility" || key == "comp_hash"
  }

  /** The two entries agree on everything the merge does not write. */
  ghost predicate SameButWritten(x: Entry, y: Entry) {
    forall key :: !Written(key) ==> (key in x <==> key in y) && (key in x ==> x[key] == y[key])
  }

  /** Entry k of a merged catalog: what went in under its slug, dressed. */
  lemma ShownAt(natives: seq<Entry>, external: seq<Entry>, p: Picker, k: nat)
    requires k < |Shown(natives, external, p)|
    ensures var parts := PartsOf(natives, external, p);
            var s := Slug(Shown(natives, external, p)[k]);
            && k < |MergedSlugs(parts.native + parts.ext, p.order)|
            && s == MergedSlugs(parts.native + parts.ext, p.order)[k]
            && s in BySlug(parts.native + parts.ext)
            && Shown(natives, external, p)[k] == Dress(BySlug(parts.native + parts.ext)[s], p.order)
  {
    var parts := PartsOf(natives, external, p);
    var all := parts.native + parts.ext;
    var ss := MergedSlugs(all, p.order);
    SlugsOfShown(natives, external, p);
    assert Slugs(Shown(natives, external, p))[k] == ss[k];
    BySlugKeys(all);
    EntriesForAt(ss, BySlug(all), p.order, k);
  }

  lemma MergedAt(natives: seq<Entry>, external: seq<Entry>, p: Picker, k: nat)
    requires k < |Merged(natives, external, p)|
    ensures |Shown(natives, external, p)| == |Merged(natives, external, p)|
    ensures var x := Merged(natives, external, p)[k]; var y := Shown(natives, external, p)[k];
            && Slug(x) == Slug(y) && SameButWritten(x, y)
            && (Slug(x) !in Slugs(external) ==> x == y)
  {
    var shown := Shown(natives, external, p);
    match TopHash(shown, external)
    case None =>
    case Some((hash, _)) =>
      SlugsOfWithHash(shown, external, hash);
      assert Slugs(Merged(natives, external, p))[k] == Slugs(shown)[k];
  }

  /** The entry of a merged catalog under a native slug is the one that went in,
      dressed. */
  lemma NativeEntry(natives: seq<Entry>, external: seq<Entry>, p: Picker, x: Entry)
    requires x in Merged(natives, external, p) && Slug(x) !in Slugs(external)
    ensures var parts := PartsOf(natives, external, p);
            Slug(x) in BySlug(parts.native) && x == Dress(BySlug(parts.native)[Slug(x)], p.order)
  {
    var parts := PartsOf(natives, external, p);
    var k :| 0 <= k < |Merged(natives, external, p)| && Merged(natives, external, p)[k] == x;
    MergedAt(natives, external, p, k);
    ShownAt(natives, external, p, k);
    PartsApart(natives, external, p);
    NativeWins(parts, Slug(x));
  }

  lemma ExternalWins(parts: Parts, s: string)
    requires s in BySlug(parts.native + parts.ext) && s !in Slugs(parts.native)
    ensures s in BySlug(parts.ext) && BySlug(parts.native + parts.ext)[s] == BySlug(parts.ext)[s]
  {
    BySlugKeys(parts.native);
    BySlugConcat(parts.native, parts.ext);
  }

  lemma NativeWins(parts: Parts, s: string)
    requires s in BySlug(parts.native + parts.ext) && s !in Slugs(parts.ext)
    ensures s in BySlug(parts.native) && BySlug(parts.native + parts.ext)[s] == BySlug(parts.native)[s]
  {
    BySlugKeys(parts.ext);
    BySlugConcat(parts.native, parts.ext);
  }

  /** Under each slug the second merge finds an entry that dresses as the first
      one's did. */
  lemma EntriesAgain(natives: seq<Entry>, external: seq<Entry>, p: Picker, s: string)
    requires var parts := PartsOf(natives, external, p);
             var again := PartsOf(Merged(natives, external, p), external, p);
             s in BySlug(parts.native + parts.ext) && s in BySlug(again.native + again.ext)
    ensures var parts := PartsOf(natives, external, p);
            var again := PartsOf(Merged(natives, external, p), external, p);
            Dress(BySlug(again.native + again.ext)[s], p.order) == Dress(BySlug(parts.native + parts.ext)[s], p.order)
  {
    var merged := Merged(natives, external, p);
    var parts, again := PartsOf(natives, external, p), PartsOf(merged, external, p);
    PartsApart(natives, external, p);
    PartsApart(merged, external, p);
    if s in Slugs(external) {
      ExternalWins(parts, s);
      ExternalWins(again, s);
    } else {
      NativeWins(parts, s);
      NativeWins(again, s);
      var x := BySlug(again.native)[s];
      BySlugHolds(again.native);
      NativeEntry(natives, external, p, x);
      DressAgain(BySlug(parts.native)[s], p.order);
    }
  }

  lemma ShownAgain(natives: seq<Entry>, external: seq<Entry>, p: Picker)
    ensures Shown(Merged(natives, external, p), external, p) == Shown(natives, external, p)
  {
    var merged := Merged(natives, external, p);
    SlugsAgain(natives, external, p);
    SlugsOfShown(natives, external, p);
    SlugsOfShown(merged, external, p);
    var first, second := Shown(natives, external, p), Shown(merged, external, p);
    assert |Slugs(first)| == |Slugs(second)|;
    forall k | 0 <= k < |first| ensures second[k] == first[k] {
      ShownAt(natives, external, p, k);
      ShownAt(merged, external, p, k);
      EntriesAgain(natives, external, p, Slug(first[k]));
    }
  }

  /** Merging twice changes nothing: not an entry, not the order. */
  lemma MergeIsIdempotent(natives: seq<Entry>, external: seq<Entry>, p: Picker)
    ensures Merged(Merged(natives, external, p), external, p) == Merged(natives, external, p)
  {
    ShownAgain(natives, external, p);
  }

  // ----- what a merged catalog holds

  /** Every model comes out once, and exactly those that are not hidden. */
  lemma MergedModels(natives: seq<Entry>, external: seq<Entry>, p: Picker, s: string)
    ensures Distinct(Slugs(Merged(natives, external, p)))
    ensures s in Slugs(Merged(natives, external, p)) <==>
            s !in p.hidden && (s in Slugs(natives) || s in Slugs(external))
  {
    var parts := PartsOf(natives, external, p);
    SlugsOfShown(natives, external, p);
    MergedSlugsDistinct(parts.native + parts.ext, p.order);
    PartsApart(natives, external, p);
    SlugsConcat(parts.native, parts.ext);
    SlugsOfFilter((e: Entry) => Slug(e) !in Slugs(external) && Slug(e) !in p.hidden,
                  (x: string) => x !in Slugs(external) && x !in p.hidden, natives);
  }

  /** An external model comes out as its own entry, whatever native entry had its
      slug, but for what the merge writes. */
  lemma ExternalReplaces(natives: seq<Entry>, external: seq<Entry>, p: Picker, k: nat)
    requires k < |Merged(natives, external, p)| && Slug(Merged(natives, external, p)[k]) in Slugs(external)
    ensures var s := Slug(Merged(natives, external, p)[k]);
            && s in BySlug(ExternalIn(external, p))
            && SameButWritten(Merged(natives, external, p)[k], BySlug(ExternalIn(external, p))[s])
  {
    var parts := PartsOf(natives, external, p);
    MergedAt(natives, external, p, k);
    ShownAt(natives, external, p, k);
    PartsApart(natives, external, p);
    ExternalWins(parts, Slug(Merged(natives, external, p)[k]));
    DressSame(BySlug(parts.ext)[Slug(Merged(natives, external, p)[k])], p.order);
  }

  lemma DressSame(e: Entry, order: seq<string>)
    ensures SameButWritten(Dress(e, order), e)
  {
  }

  /** Entry j is the shown native model of least priority, the first of them. */
  ghost predicate TopNative(entries: seq<Entry>, external: seq<Entry>, j: nat) {
    j < |entries| && ShownNative(entries[j], external) &&
    forall i :: 0 <= i < |entries| && ShownNative(entries[i], external) ==>
      IntAt(entries[j], "priority") < IntAt(entries[i], "priority")
      || (IntAt(entries[j], "priority") == IntAt(entries[i], "priority") && j <= i)
  }

  lemma {:induction false} TopHashIsTop(entries: seq<Entry>, external: seq<Entry>) returns (j: nat)
    ensures TopHash(entries, external) == None ==>
              forall i :: 0 <= i < |entries| ==> !ShownNative(entries[i], external)
    ensures TopHash(entries, external).Some? ==>
              TopNative(entries, external, j)
              && TopHash(entries, external).value == (HashAt(entries[j]).value, IntAt(entries[j], "priority"))
  {
    j := 0;
    if entries != [] {
      var n := |entries| - 1;
      var before := entries[..n];
      j := TopHashIsTop(before, external);
      if TopHash(entries, external) != TopHash(before, external)
         || (TopHash(before, external) == None && TopHash(entries, external).Some?) {
        j := n;
      }
    }
  }

  lemma SameNative(shown: seq<Entry>, external: seq<Entry>, hash: Value, i: nat)
    requires i < |shown|
    ensures var x := WithHash(shown, external, hash)[i];
            ShownNative(x, external) == ShownNative(shown[i], external) && (ShownNative(x, external) ==> x == shown[i])
  {
    SlugsOfWithHash(shown, external, hash);
    assert Slugs(WithHash(shown, external, hash))[i] == Slugs(shown)[i];
  }

  lemma SameTop(shown: seq<Entry>, external: seq<Entry>, hash: Value, j: nat)
    requires TopNative(shown, external, j)
    ensures TopNative(WithHash(shown, external, hash), external, j) && WithHash(shown, external, hash)[j] == shown[j]
  {
    SameNative(shown, external, hash, j);
    var m := WithHash(shown, external, hash);
    forall i | 0 <= i < |m| && ShownNative(m[i], external)
      ensures IntAt(m[j], "priority") < IntAt(m[i], "priority")
              || (IntAt(m[j], "priority") == IntAt(m[i], "priority") && j <= i)
    {
      SameNative(shown, external, hash, i);
    }
  }

  /** External models come out with the comp_hash of the shown native model at
      the top of the picker whenever one is shown. */
  lemma ExternalsTakeTopHash(natives: seq<Entry>, external: seq<Entry>, p: Picker, k: nat, i: nat)
    requires var m := Merged(natives, external, p);
             k < |m| && Slug(m[k]) in Slugs(external) && i < |m| && ShownNative(m[i], external)
    ensures var m := Merged(natives, external, p);
            exists j: nat :: TopNative(m, external, j) && HashAt(m[k]) == HashAt(m[j])
  {
    var shown := Shown(natives, external, p);
    var j := TopHashIsTop(shown, external);
    if TopHash(shown, external).Some? {
      var hash := TopHash(shown, external).value.0;
      SameTop(shown, external, hash, j);
      SlugsOfWithHash(shown, external, hash);
      assert Slugs(WithHash(shown, external, hash))[k] == Slugs(shown)[k];
      assert HashAt(WithHash(shown, external, hash)[k]) == Some(hash);
    }
  }

  lemma {:induction false} PlaceMore(order: seq<string>, x: string, s: string)
    ensures s in order ==> Place(order + [x], s) == Place(order, s) < |order|
    ensures s == x && x !in order ==> Place(order + [x], s) == |order|
  {
    if order == [] {
      assert order + [x] == [x];
    } else {
      assert (order + [x])[1..] == order[1..] + [x];
      PlaceMore(order[1..], x, s);
    }
  }

  lemma {:induction false} InOrderSorted(order: seq<string>, names: set<string>, i: nat, j: nat)
    requires i < j < |InOrder(order, names)|
    ensures Place(order, InOrder(order, names)[i]) < Place(order, InOrder(order, names)[j])
  {
    var before, x := order[..|order| - 1], order[|order| - 1];
    var r := InOrder(before, names);
    assert order == before + [x];
    assert r[i] in r;
    PlaceMore(before, x, r[i]);
    if j < |r| {
      assert r[j] in r;
      PlaceMore(before, x, r[j]);
      InOrderSorted(before, names, i, j);
    } else {
      PlaceMore(before, x, x);
    }
  }

  /** The picker's models come first, each once, in its order. */
  lemma PickerFirst(natives: seq<Entry>, external: seq<Entry>, p: Picker, i: nat, j: nat)
    requires i < j < |Merged(natives, external, p)|
    ensures var s, t := Slug(Merged(natives, external, p)[i]), Slug(Merged(natives, external, p)[j]);
            t in p.order ==> s in p.order && Place(p.order, s) < Place(p.order, t)
  {
    var parts := PartsOf(natives, external, p);
    var names := SetOf(Slugs(parts.native + parts.ext));
    var first := InOrder(p.order, names);
    MergedAt(natives, external, p, i);
    MergedAt(natives, external, p, j);
    ShownAt(natives, external, p, i);
    ShownAt(natives, external, p, j);
    var ss := MergedSlugs(parts.native + parts.ext, p.order);
    var rest := Filter((s: string) => s !in p.order, Dedup(Slugs(parts.native + parts.ext)));
    assert ss == first + rest;
    if j < |first| {
      assert first[i] in first;
      InOrderSorted(p.order, names, i, j);
    } else {
      assert rest[j - |first|] in rest;
    }
  }

  lemma DressWrites(e: Entry, order: seq<string>)
    ensures var x := Dress(e, order);
            && (Slug(e) in order ==> "priority" in x && x["priority"] == Number(Place(order, Slug(e))))
            && (Slug(e) !in order && order != [] ==> "visibility" in x && x["visibility"] == Text("hide"))
  {
  }

  lemma ShownWrites(natives: seq<Entry>, external: seq<Entry>, p: Picker, k: nat)
    requires k < |Shown(natives, external, p)|
    ensures var x := Shown(natives, external, p)[k];
            && (Slug(x) in p.order ==> "priority" in x && x["priority"] == Number(Place(p.order, Slug(x))))
            && (Slug(x) !in p.order && p.order != [] ==> "visibility" in x && x["visibility"] == Text("hide"))
  {
    var all := NativeIn(natives, external, p) + ExternalIn(external, p);
    ShownAt(natives, external, p, k);
    BySlugHolds(all);
    DressWrites(BySlug(all)[Slug(Shown(natives, external, p)[k])], p.order);
  }

  /** What the merge writes: a model in the picker's order has its place there as
      priority, and with an order every other model is hidden. */
  lemma PickerWrites(natives: seq<Entry>, external: seq<Entry>, p: Picker, k: nat)
    requires k < |Merged(natives, external, p)|
    ensures var x := Merged(natives, external, p)[k];
            && (Slug(x) in p.order ==> "priority" in x && x["priority"] == Number(Place(p.order, Slug(x))))
            && (Slug(x) !in p.order && p.order != [] ==> StringAt(x, "visibility") == "hide")
  {
    MergedKeeps(natives, external, p, k, "priority");
    MergedKeeps(natives, external, p, k, "visibility");
    MergedAt(natives, external, p, k);
    ShownWrites(natives, external, p, k);
  }

  lemma MergedKeeps(natives: seq<Entry>, external: seq<Entry>, p: Picker, k: nat, key: string)
    requires k < |Merged(natives, external, p)| && key != "comp_hash"
    ensures |Shown(natives, external, p)| == |Merged(natives, external, p)|
    ensures var x, y := Merged(natives, external, p)[k], Shown(natives, external, p)[k];
            (key in x <==> key in y) && (key in y ==> x[key] == y[key])
  {
  }

  /** Without an order, a native model keeps the entry it came with. */
  lemma NativesKept(natives: seq<Entry>, external: seq<Entry>, p: Picker, x: Entry)
    requires p.order == [] && x in Merged(natives, external, p) && Slug(x) !in Slugs(external)
    ensures x in natives
  {
    NativeEntry(natives, external, p, x);
    BySlugHolds(NativeIn(natives, external, p));
  }

  // ----- the program

  /** A catalog: its models list, if it has one, and its other fields. */
  datatype CatalogFile = CatalogFile(models: Option<seq<Entry>>, fields: map<string, Value>)

  lemma OneEntryMore(entries: seq<Entry>, e: Entry)
    ensures Dedup(Slugs(entries + [e])) == Dedup(Slugs(entries)) + if Slug(e) in Slugs(entries) then [] else [Slug(e)]
    ensures BySlug(entries + [e]) == BySlug(entries)[Slug(e) := e]
  {
    var all := entries + [e];
    assert all[..|entries|] == entries && Slugs(all) == Slugs(entries) + [Slug(e)];
    assert Slugs(all)[..|entries|] == Slugs(entries);
  }

  /** Adds an entry unless it is hidden; a later one replaces an earlier one
      under its slug and takes its place. */
  method AddEntry(slugs: seq<string>, bySlug: map<string, Entry>, e: Entry, hidden: seq<string>, ghost entries: seq<Entry>)
    returns (slugs': seq<string>, bySlug': map<string, Entry>, ghost all: seq<Entry>)
    requires slugs == Dedup(Slugs(entries)) && bySlug == BySlug(entries)
    ensures all == if Slug(e) in hidden then entries else entries + [e]
    ensures slugs' == Dedup(Slugs(all)) && bySlug' == BySlug(all)
  {
    slugs', bySlug', all := slugs, bySlug, entries;
    var s := Slug(e);
    if s in hidden {
      return;
    }
    all := entries + [e];
    OneEntryMore(entries, e);
    BySlugKeys(entries);
    if s !in bySlug {
      slugs' := slugs + [s];
    }
    bySlug' := bySlug[s := e];
  }

  method SlugSet(external: seq<Entry>) returns (ours: set<string>)
    ensures forall s :: s in ours <==> s in Slugs(external)
  {
    ours := {};
    for k := 0 to |external|
      invariant forall s :: s in ours <==> s in Slugs(external)[..k]
    {
      assert Slugs(external)[..k + 1] == Slugs(external)[..k] + [Slug(external[k])];
      ours := ours + {Slug(external[k])};
    }
    assert Slugs(external)[..|external|] == Slugs(external);
  }

  lemma FilterStep<T(!new)>(f: T -> bool, s: seq<T>, k: nat)
    requires k < |s|
    ensures Filter(f, s[..k + 1]) == Filter(f, s[..k]) + if f(s[k]) then [s[k]] else []
  {
    assert s[..k + 1][..k] == s[..k];
  }

  method CollectNatives(natives: seq<Entry>, external: seq<Entry>, p: Picker, ours: set<string>)
    returns (slugs: seq<string>, bySlug: map<string, Entry>)
    requires forall s :: s in ours <==> s in Slugs(external)
    ensures slugs == Dedup(Slugs(NativeIn(natives, external, p))) && bySlug == BySlug(NativeIn(natives, external, p))
  {
    ghost var f, all := (e: Entry) => Slug(e) !in Slugs(external) && Slug(e) !in p.hidden, [];
    slugs, bySlug := [], map[];
    for k := 0 to |natives|
      invariant all == Filter(f, natives[..k])
      invariant slugs == Dedup(Slugs(all)) && bySlug == BySlug(all)
    {
      FilterStep(f, natives, k);
      if Slug(natives[k]) !in ours {
        slugs, bySlug, all := AddEntry(slugs, bySlug, natives[k], p.hidden, all);
      }
    }
    assert natives[..|natives|] == natives;
  }

  lemma AppendOne<T>(x: seq<T>, y: seq<T>, e: T)
    ensures x + (y + [e]) == x + y + [e]
  {
  }

  method CollectExternal(slugs: seq<string>, bySlug: map<string, Entry>, external: seq<Entry>, hidden: seq<string>,
                         ghost first: seq<Entry>)
    returns (slugs': seq<string>, bySlug': map<string, Entry>)
    requires slugs == Dedup(Slugs(first)) && bySlug == BySlug(first)
    ensures var entries := first + Filter((e: Entry) => Slug(e) !in hidden, external);
            slugs' == Dedup(Slugs(entries)) && bySlug' == BySlug(entries)
  {
    ghost var g, all := (e: Entry) => Slug(e) !in hidden, first;
    slugs', bySlug' := slugs, bySlug;
    for k := 0 to |external|
      invariant all == first + Filter(g, external[..k])
      invariant slugs' == Dedup(Slugs(all)) && bySlug' == BySlug(all)
    {
      FilterStep(g, external, k);
      slugs', bySlug', all := AddEntry(slugs', bySlug', external[k], hidden, all);
      AppendOne(first, Filter(g, external[..k]), external[k]);
    }
    assert external[..|external|] == external;
  }

  /** Collects the entries that go in, under their slugs. */
  method Collect(natives: seq<Entry>, external: seq<Entry>, p: Picker)
    returns (slugs: seq<string>, bySlug: map<string, Entry>)
    ensures var entries := NativeIn(natives, external, p) + ExternalIn(external, p);
            slugs == Dedup(Slugs(entries)) && bySlug == BySlug(entries)
  {
    var ours := SlugSet(external);
    slugs, bySlug := CollectNatives(natives, external, p, ours);
    slugs, bySlug := CollectExternal(slugs, bySlug, external, p.hidden, NativeIn(natives, external, p));
  }

  lemma {:induction false} FirstPlace(order: seq<string>, i: nat)
    requires i < |order| && order[i] !in order[..i]
    ensures Place(order, order[i]) == i
  {
    if i > 0 {
      assert order[0] in order[..i];
      assert order[1..][..i - 1] == order[..i][1..];
      FirstPlace(order[1..], i - 1);
    }
  }

  lemma InOrderStep(order: seq<string>, names: set<string>, i: nat)
    requires i < |order|
    ensures InOrder(order[..i + 1], names) ==
            InOrder(order[..i], names) + if order[i] in names && order[i] !in order[..i] then [order[i]] else []
  {
    assert order[..i + 1][..i] == order[..i];
  }

  lemma EntriesForStep(ss: seq<string>, s: string, m: map<string, Entry>, order: seq<string>)
    requires (forall x :: x in ss ==> x in m) && s in m
    ensures EntriesFor(ss + [s], m, order) == EntriesFor(ss, m, order) + [Dress(m[s], order)]
  {
    assert (ss + [s])[..|ss|] == ss;
  }

  /** The entries the first i places of the order have not taken. */
  function Left(all: map<string, Entry>, taken: seq<string>): map<string, Entry> {
    map s | s in all && s !in taken :: all[s]
  }

  lemma LeftStep(all: map<string, Entry>, order: seq<string>, i: nat)
    requires i < |order|
    ensures Left(all, order[..i + 1]) == Left(all, order[..i]) - {order[i]}
  {
    assert order[..i + 1] == order[..i] + [order[i]];
  }

  lemma OrderedStep(order: seq<string>, all: map<string, Entry>, i: nat)
    requires i < |order| && (forall s :: s in all ==> Slug(all[s]) == s)
    ensures var s := order[i];
            EntriesFor(InOrder(order[..i + 1], all.Keys), all, order) ==
            EntriesFor(InOrder(order[..i], all.Keys), all, order)
              + if s in Left(all, order[..i]) then [all[s]["priority" := Number(i)]] else []
  {
    InOrderStep(order, all.Keys, i);
    var taken := InOrder(order[..i], all.Keys);
    if order[i] in all && order[i] !in order[..i] {
      FirstPlace(order, i);
      EntriesForStep(taken, order[i], all, order);
    } else {
      assert taken + [] == taken;
    }
  }

  /** Takes the picker's order first, each model at its place. */
  method TakeOrdered(order: seq<string>, all: map<string, Entry>)
    returns (merged: seq<Entry>, bySlug: map<string, Entry>)
    requires forall s :: s in all ==> Slug(all[s]) == s
    ensures merged == EntriesFor(InOrder(order, all.Keys), all, order)
    ensures bySlug == Left(all, order)
  {
    merged, bySlug := [], all;
    for i := 0 to |order|
      invariant merged == EntriesFor(InOrder(order[..i], all.Keys), all, order)
      invariant bySlug == Left(all, order[..i])
    {
      var s := order[i];
      OrderedStep(order, all, i);
      LeftStep(all, order, i);
      if s in bySlug {
        merged := merged + [bySlug[s]["priority" := Number(i)]];
        bySlug := bySlug - {s};
      }
    }
    assert order[..|order|] == order;
  }

  lemma RestStep(order: seq<string>, slugs: seq<string>, all: map<string, Entry>, first: seq<string>, k: nat)
    requires k < |slugs| && (forall s :: s in all ==> Slug(all[s]) == s)
    requires (forall s :: s in slugs ==> s in all) && (forall s :: s in first ==> s in all)
    ensures var rest := (s: string) => s !in order;
            EntriesFor(first + Filter(rest, slugs[..k + 1]), all, order) ==
            EntriesFor(first + Filter(rest, slugs[..k]), all, order)
              + if slugs[k] !in order then [Dress(all[slugs[k]], order)] else []
  {
    var rest := (s: string) => s !in order;
    var before := first + Filter(rest, slugs[..k]);
    FilterStep(rest, slugs, k);
    if slugs[k] !in order {
      EntriesForStep(before, slugs[k], all, order);
      AppendOne(first, Filter(rest, slugs[..k]), slugs[k]);
    } else {
      assert Filter(rest, slugs[..k]) + [] == Filter(rest, slugs[..k]);
    }
  }

  /** Appends the models outside the order, hidden when there is one. */
  method TakeRest(order: seq<string>, slugs: seq<string>, all: map<string, Entry>, bySlug: map<string, Entry>, ordered: seq<Entry>,
                  ghost first: seq<string>)
    returns (merged: seq<Entry>)
    requires forall s :: s in all ==> Slug(all[s]) == s
    requires (forall s :: s in slugs ==> s in all) && (forall s :: s in first ==> s in all)
    requires bySlug == Left(all, order)
    requires ordered == EntriesFor(first, all, order)
    ensures merged == EntriesFor(first + Filter((s: string) => s !in order, slugs), all, order)
  {
    ghost var rest := (s: string) => s !in order;
    merged := ordered;
    assert first + [] == first;
    for k := 0 to |slugs|
      invariant merged == EntriesFor(first + Filter(rest, slugs[..k]), all, order)
    {
      var s := slugs[k];
      RestStep(order, slugs, all, first, k);
      if s in bySlug {
        var e := bySlug[s];
        if |order| > 0 {
          e := e["visibility" := Text("hide")];
        }
        merged := merged + [e];
      }
    }
    assert slugs[..|slugs|] == slugs;
  }

  /** The comp_hash of the shown native model with the highest place, or none. */
  method TopNativeHash(entries: seq<Entry>, external: seq<Entry>, ours: set<string>) returns (hash: Option<Value>)
    requires forall s :: s in ours <==> s in Slugs(external)
    ensures hash == match TopHash(entries, external) case None => None case Some((h, _)) => Some(h)
  {
    hash := None;
    var best := 0;
    for k := 0 to |entries|
      invariant TopHash(entries[..k], external) == if hash == None then None else Some((hash.value, best))
    {
      var e := entries[k];
      assert entries[..k + 1][..k] == entries[..k];
      var h := HashAt(e);
      if Slug(e) in ours || StringAt(e, "visibility") == "hide" || h == None {
        continue;
      }
      if hash == None || IntAt(e, "priority") < best {
        hash, best := h, IntAt(e, "priority");
      }
    }
    assert entries[..|entries|] == entries;
  }

  /** Gives every external model the hash, in place. */
  method SetHash(shown: seq<Entry>, external: seq<Entry>, ours: set<string>, hash: Value) returns (merged: seq<Entry>)
    requires forall s :: s in ours <==> s in Slugs(external)
    ensures merged == WithHash(shown, external, hash)
  {
    merged := shown;
    for k := 0 to |merged|
      invariant |merged| == |shown|
      invariant forall i :: 0 <= i < k ==> merged[i] == WithHash(shown, external, hash)[i]
      invariant forall i :: k <= i < |merged| ==> merged[i] == shown[i]
    {
      if Slug(merged[k]) in ours {
        merged := merged[k := merged[k]["comp_hash" := hash]];
      }
    }
  }

  /** Collects, orders and dresses the entries. */
  method Arrange(natives: seq<Entry>, external: seq<Entry>, p: Picker) returns (merged: seq<Entry>)
    ensures merged == Shown(natives, external, p)
  {
    var slugs, all := Collect(natives, external, p);
    ghost var entries := NativeIn(natives, external, p) + ExternalIn(external, p);
    BySlugHolds(entries);
    assert all.Keys == SetOf(Slugs(entries));
    var bySlug;
    merged, bySlug := TakeOrdered(p.order, all);
    merged := TakeRest(p.order, slugs, all, bySlug, merged, InOrder(p.order, all.Keys));
  }

  /** Adds the external models to a native catalog and applies the picker. */
  method Merge(cat: CatalogFile, external: seq<Entry>, p: Picker) returns (out: Option<CatalogFile>)
    ensures out == match cat.models
                   case None => None
                   case Some(natives) => Some(cat.(models := Some(Merged(natives, external, p))))
  {
    if cat.models == None {
      return None;
    }
    var merged := Arrange(cat.models.value, external, p);
    var ours := SlugSet(external);
    var hash := TopNativeHash(merged, external, ours);
    if hash.Some? {
      merged := SetHash(merged, external, ours, hash.value);
    }
    return Some(cat.(models := Some(merged)));
  }
}
