/** The tool registry: tools by source, and the flattened index models and agents look names up in. */
module ToolCatalog {
  import opened Text

  /** `client` is the external process a tool talks to, if any. */
  datatype Tool = Tool(name: string, client: Option<nat>)

  type Source = map<string, Tool>

  type Sources = map<string, Source>

  const LOCAL := "local"

  /** Tools are filed under their own name. */
  ghost predicate WellNamed(sources: Sources) {
    forall s, n :: s in sources && n in sources[s] ==> sources[s][n].name == n
  }

  predicate Holds(sources: Sources, s: string, n: string) {
    s in sources && n in sources[s]
  }

  // ---- What a name means, without any index ----

  /** Local tools come first, then sources by name. */
  predicate Before(s: string, s': string) {
    s != s' && (s == LOCAL || (s' != LOCAL && Less(s, s')))
  }

  /** `s` is the source a name resolves to: it has the name and every other source that has it comes later. */
  ghost predicate IsOwner(sources: Sources, n: string, s: string) {
    Holds(sources, s, n) && forall s' :: Holds(sources, s', n) && s' != s ==> Before(s, s')
  }

  // ---- Source order ----

  lemma {:induction false} LeastExists(names: set<string>)
    requires names != {}
    ensures exists m :: IsLeast(m, names)
  {
    var x :| x in names;
    var rest := names - {x};
    if rest == {} {
      assert names == {x};
      assert IsLeast(x, names);
    } else {
      LeastExists(rest);
      var m :| IsLeast(m, rest);
      LessTotal(x, m);
      if Less(x, m) {
        forall y | y in names && y != x ensures Less(x, y) {
          if y != m {
            LessTransitive(x, m, y);
          }
        }
        assert IsLeast(x, names);
      } else {
        assert IsLeast(m, names);
      }
    }
  }

  ghost function SortedSeq(names: set<string>): (sorted: seq<string>)
    ensures Sorted(sorted)
    ensures forall x :: x in sorted <==> x in names
  {
    if names == {} then []
    else
      LeastExists(names);
      var m :| IsLeast(m, names);
      [m] + SortedSeq(names - {m})
  }

  ghost function Order(sources: Sources): seq<string> {
    [LOCAL] + SortedSeq(sources.Keys - {LOCAL})
  }

  lemma OrderIsBefore(sources: Sources, i: nat, j: nat)
    requires i < j < |Order(sources)|
    ensures Before(Order(sources)[i], Order(sources)[j])
  {
    LessTotal(Order(sources)[i], Order(sources)[j]);
    assert Order(sources)[j] in SortedSeq(sources.Keys - {LOCAL});
  }

  /** The position of the first source that has a name, or the length. */
  function First(sources: Sources, order: seq<string>, n: string): (k: nat)
    ensures k <= |order|
    ensures k < |order| ==> Holds(sources, order[k], n)
    ensures forall j :: 0 <= j < k ==> !Holds(sources, order[j], n)
  {
    if order == [] || Holds(sources, order[0], n) then 0 else 1 + First(sources, order[1..], n)
  }

  function Lookup(sources: Sources, order: seq<string>, n: string): Option<Tool> {
    var k := First(sources, order, n);
    if k < |order| then Some(sources[order[k]][n]) else None
  }

  lemma BeforeAsymmetric(s: string, s': string)
    ensures !(Before(s, s') && Before(s', s))
  {
    LessTotal(s, s');
  }

  lemma LookupStep(sources: Sources, order: seq<string>, n: string)
    requires order != []
    ensures Lookup(sources, order, n) ==
            if Holds(sources, order[0], n) then Some(sources[order[0]][n]) else Lookup(sources, order[1..], n)
    ensures Lookup(sources, [], n) == None
  {
  }

  /** Scanning the sources in order finds the owner's tool, and nothing when nobody has the name. */
  lemma LookupIsOwner(sources: Sources, n: string, s: string)
    ensures var k := First(sources, Order(sources), n);
            IsOwner(sources, n, s) <==> k < |Order(sources)| && Order(sources)[k] == s
  {
    var order := Order(sources);
    var k := First(sources, order, n);
    hide Less, Before, SortedSeq;
    if IsOwner(sources, n, s) {
      assert s in order;
      var i :| 0 <= i < |order| && order[i] == s;
      if k < i {
        OrderIsBefore(sources, k, i);
        BeforeAsymmetric(order[k], s);
      }
    }
    if k < |order| && order[k] == s {
      forall s' | Holds(sources, s', n) && s' != s ensures Before(s, s') {
        assert s' in order;
        var j :| 0 <= j < |order| && order[j] == s';
        OrderIsBefore(sources, k, j);
      }
    }
  }

  // ---- The flattened index ----

  datatype Flat = Flat(index: Source, list: seq<Tool>)

  /** `a` is listed before `b`: its first source comes earlier, or it is the smaller name of the same source. */
  ghost predicate ListedBefore(sources: Sources, order: seq<string>, a: string, b: string) {
    First(sources, order, a) < First(sources, order, b) || (First(sources, order, a) == First(sources, order, b) && Less(a, b))
  }

  /** The index has every name of the sources in `order`, with the tool the scan finds. */
  ghost predicate Indexes(sources: Sources, order: seq<string>, index: Source) {
    && (forall n :: n in index <==> First(sources, order, n) < |order|)
    && (forall n :: n in index ==> Some(index[n]) == Lookup(sources, order, n))
  }

  /** The list has the tools of the index under their names. */
  ghost predicate Lists(flat: Flat) {
    && (forall t :: t in flat.list ==> t.name in flat.index && flat.index[t.name] == t)
    && (forall n :: n in flat.index ==> flat.index[n] in flat.list)
  }

  ghost predicate ListOrdered(sources: Sources, order: seq<string>, list: seq<Tool>) {
    forall i, j :: 0 <= i < j < |list| ==> ListedBefore(sources, order, list[i].name, list[j].name)
  }

  /** Every name of the sources in `order`, with the tool the scan finds, listed once and in order. */
  ghost predicate IsFlat(sources: Sources, order: seq<string>, flat: Flat) {
    Indexes(sources, order, flat.index) && Lists(flat) && ListOrdered(sources, order, flat.list)
  }

  lemma {:induction false} FirstAppend(sources: Sources, order: seq<string>, s: string, n: string)
    ensures First(sources, order + [s], n) ==
            if First(sources, order, n) < |order| then First(sources, order, n)
            else if Holds(sources, s, n) then |order| else |order| + 1
  {
    if order == [] {
      assert order + [s] == [s];
      assert [s][1..] == [];
    } else {
      FirstAppend(sources, order[1..], s, n);
      assert (order + [s])[1..] == order[1..] + [s];
    }
  }

  /** A scan of all sources agrees with the index, hit or miss. */
  lemma IndexIsScan(sources: Sources, flat: Flat, n: string)
    requires IsFlat(sources, Order(sources), flat)
    ensures (if n in flat.index then Some(flat.index[n]) else None) == Lookup(sources, Order(sources), n)
  {
  }

  /** There is one index for given sources, so rebuilding never depends on what was there before. */
  lemma FlatUnique(sources: Sources, order: seq<string>, x: Flat, y: Flat)
    requires IsFlat(sources, order, x) && IsFlat(sources, order, y) && WellNamed(sources)
    ensures x == y
  {
    IndexUnique(sources, order, x.index, y.index);
    hide Indexes, ListOrdered;
    forall t ensures t in x.list <==> t in y.list {
    }
    ListUnique(sources, order, x.list, y.list);
  }

  lemma IndexUnique(sources: Sources, order: seq<string>, x: Source, y: Source)
    requires Indexes(sources, order, x) && Indexes(sources, order, y)
    ensures x == y
  {
    hide First, Lookup;
    assert x.Keys == y.Keys;
    forall n | n in x ensures x[n] == y[n] {
      assert Some(x[n]) == Lookup(sources, order, n) == Some(y[n]);
    }
  }

  lemma {:induction false} ListUnique(sources: Sources, order: seq<string>, x: seq<Tool>, y: seq<Tool>)
    requires ListOrdered(sources, order, x) && ListOrdered(sources, order, y)
    requires forall t :: t in x <==> t in y
    ensures x == y
  {
    hide First;
    assert x == [] <==> y == [] by {
      assert y != [] ==> y[0] in y;
      assert x != [] ==> x[0] in x;
    }
    if x != [] {
      assert x[0] in y;
      assert y[0] in x;
      LessTotal(x[0].name, y[0].name);
      assert x[0] == y[0];
      forall t ensures t in x[1..] <==> t in y[1..] {
        LessTotal(x[0].name, x[0].name);
        if t in x[1..] {
          assert t in x && t != x[0];
        }
        if t in y[1..] {
          assert t in y && t != y[0];
        }
      }
      ListUnique(sources, order, x[1..], y[1..]);
    }
  }

  // ---- Building the index one name at a time ----

  lemma {:induction false} FirstSame(x: Sources, y: Sources, order: seq<string>, n: string)
    requires forall s :: s in order ==> (Holds(x, s, n) <==> Holds(y, s, n))
    ensures First(x, order, n) == First(y, order, n)
  {
  }

  lemma NothingIsFlat(sources: Sources)
    ensures IsFlat(sources, [], Flat(map[], []))
  {
  }

  /** The sources with only some names of `s` so far. */
  function Upto(sources: Sources, s: string, done: seq<string>): Sources {
    sources[s := map n | n in done && Holds(sources, s, n) :: sources[s][n]]
  }

  /** The index after the first names of `s`, on top of the sources in `order`. */
  ghost predicate IsPartly(sources: Sources, order: seq<string>, s: string, done: seq<string>, flat: Flat) {
    IsFlat(Upto(sources, s, done), order + [s], flat)
  }

  /** Positions of names when `s` is flattened behind `order`. */
  lemma FirstUpto(sources: Sources, order: seq<string>, s: string, done: seq<string>, n: string)
    requires s !in order
    ensures First(Upto(sources, s, done), order + [s], n) ==
            if First(sources, order, n) < |order| then First(sources, order, n)
            else if n in done && Holds(sources, s, n) then |order| else |order| + 1
  {
    var upto := Upto(sources, s, done);
    FirstAppend(upto, order, s, n);
    FirstSame(upto, sources, order, n);
  }

  /** An index is also that of other sources that resolve its names to the same positions and tools, and no others. */
  lemma Transfer(x: Sources, orderX: seq<string>, y: Sources, orderY: seq<string>, flat: Flat)
    requires IsFlat(x, orderX, flat)
    requires forall n :: First(y, orderY, n) < |orderY| <==> First(x, orderX, n) < |orderX|
    requires forall n :: n in flat.index ==> First(y, orderY, n) == First(x, orderX, n) && Lookup(y, orderY, n) == Lookup(x, orderX, n)
    ensures IsFlat(y, orderY, flat)
  {
    hide First, Lookup, Less;
    assert Indexes(y, orderY, flat.index);
    forall i, j | 0 <= i < j < |flat.list| ensures ListedBefore(y, orderY, flat.list[i].name, flat.list[j].name) {
      assert flat.list[i] in flat.list && flat.list[j] in flat.list;
      assert ListedBefore(x, orderX, flat.list[i].name, flat.list[j].name);
    }
  }

  lemma StartIsPartly(sources: Sources, order: seq<string>, s: string, flat: Flat)
    requires IsFlat(sources, order, flat) && s !in order
    ensures IsPartly(sources, order, s, [], flat)
  {
    var upto := Upto(sources, s, []);
    hide First, Lookup, Upto, Lists, ListOrdered;
    forall n
      ensures First(upto, order + [s], n) == if First(sources, order, n) < |order| then First(sources, order, n) else |order| + 1
      ensures First(sources, order, n) < |order| ==> Lookup(upto, order + [s], n) == Lookup(sources, order, n)
    {
      FirstUpto(sources, order, s, [], n);
      LookupUpto(sources, order, s, [], n);
    }
    Transfer(sources, order, upto, order + [s], flat);
  }

  lemma LookupUpto(sources: Sources, order: seq<string>, s: string, done: seq<string>, n: string)
    requires s !in order
    ensures Lookup(Upto(sources, s, done), order + [s], n) ==
            if First(sources, order, n) < |order| then Lookup(sources, order, n)
            else if n in done && Holds(sources, s, n) then Some(sources[s][n]) else None
  {
    hide First, Less;
    FirstUpto(sources, order, s, done, n);
  }

  function AddName(flat: Flat, n: string, t: Tool): Flat {
    if n in flat.index then flat else Flat(flat.index[n := t], flat.list + [t])
  }

  /** `y` lists one name more than `x`, behind every name `x` has at position `last`. */
  ghost predicate OneMore(x: Sources, y: Sources, order: seq<string>, name: string, t: Tool, last: nat) {
    && (forall n :: First(y, order, n) == if n == name && First(x, order, n) > last then last else First(x, order, n))
    && (forall n :: Lookup(y, order, n) == if n == name && First(x, order, n) > last then Some(t) else Lookup(x, order, n))
  }

  lemma AddNameIndexes(x: Sources, y: Sources, order: seq<string>, flat: Flat, name: string, t: Tool, last: nat)
    requires last == |order| - 1 && Indexes(x, order, flat.index) && OneMore(x, y, order, name, t, last)
    ensures Indexes(y, order, AddName(flat, name, t).index)
  {
    hide First, Lookup;
    var index := AddName(flat, name, t).index;
    forall n ensures n in index <==> First(y, order, n) < |order| {
      assert n in flat.index <==> First(x, order, n) < |order|;
    }
    forall n | n in index ensures Some(index[n]) == Lookup(y, order, n) {
      assert n in flat.index <==> First(x, order, n) < |order|;
      assert Lookup(y, order, n) == if n == name && First(x, order, n) > last then Some(t) else Lookup(x, order, n);
    }
  }

  /** Where the names of a list are before and after adding one more name. */
  ghost predicate Placed(x: Sources, y: Sources, order: seq<string>, a: string, name: string, last: nat) {
    First(y, order, a) == First(x, order, a) <= last && (First(x, order, a) == last ==> Less(a, name))
  }

  lemma AddNameLists(x: Sources, y: Sources, order: seq<string>, flat: Flat, name: string, t: Tool, last: nat)
    requires t.name == name && last == |order| - 1 && IsFlat(x, order, flat) && OneMore(x, y, order, name, t, last)
    requires forall a :: a in flat.index && First(x, order, a) == last ==> Less(a, name)
    ensures ListOrdered(y, order, AddName(flat, name, t).list)
  {
    hide First, Less, Lookup;
    forall i | 0 <= i < |flat.list| ensures Placed(x, y, order, flat.list[i].name, name, last) {
      assert flat.list[i] in flat.list;
    }
    assert name !in flat.index ==> First(y, order, name) == last;
    assert ListOrdered(x, order, flat.list);
    hide OneMore, IsFlat;
    ListGrows(x, y, order, flat.list, t, last, AddName(flat, name, t).list);
  }

  lemma ListGrows(x: Sources, y: Sources, order: seq<string>, list: seq<Tool>, t: Tool, last: nat, list': seq<Tool>)
    requires ListOrdered(x, order, list) && forall i :: 0 <= i < |list| ==> Placed(x, y, order, list[i].name, t.name, last)
    requires list' == list || (list' == list + [t] && First(y, order, t.name) == last)
    ensures ListOrdered(y, order, list')
  {
    hide First, Less;
    forall i, j | 0 <= i < j < |list'| ensures ListedBefore(y, order, list'[i].name, list'[j].name) {
      assert Placed(x, y, order, list[i].name, t.name, last);
      if j < |list| {
        assert ListedBefore(x, order, list[i].name, list[j].name) && Placed(x, y, order, list[j].name, t.name, last);
      }
    }
  }

  /** One more name behind all names of its source keeps an index flat. */
  lemma AddNameIsFlat(x: Sources, y: Sources, order: seq<string>, flat: Flat, name: string, t: Tool, last: nat)
    requires t.name == name && last == |order| - 1 && IsFlat(x, order, flat) && OneMore(x, y, order, name, t, last)
    requires forall a :: a in flat.index && First(x, order, a) == last ==> Less(a, name)
    ensures IsFlat(y, order, AddName(flat, name, t))
  {
    AddNameLists(x, y, order, flat, name, t, last);
    hide First, Less, Lookup, OneMore, ListOrdered, Indexes;
    AddNameIndexes(x, y, order, flat, name, t, last);
    AddNameKeepsLists(flat, name, t);
  }

  lemma AddNameKeepsLists(flat: Flat, name: string, t: Tool)
    requires Lists(flat) && t.name == name
    ensures Lists(AddName(flat, name, t))
  {
  }

  /** The next name of `s` is behind all names so far and changes nothing else. */
  lemma NextIsOneMore(sources: Sources, order: seq<string>, s: string, names: seq<string>, i: nat)
    requires s !in order && i < |names| && names[i] !in names[..i] && Holds(sources, s, names[i])
    ensures OneMore(Upto(sources, s, names[..i]), Upto(sources, s, names[..i + 1]), order + [s], names[i], sources[s][names[i]], |order|)
  {
    assert names[..i + 1] == names[..i] + [names[i]];
    hide First, Upto, Lookup;
    forall n
      ensures var x, y, last := Upto(sources, s, names[..i]), Upto(sources, s, names[..i + 1]), |order|;
              && First(y, order + [s], n) == (if n == names[i] && First(x, order + [s], n) > last then last else First(x, order + [s], n))
              && Lookup(y, order + [s], n) ==
                 (if n == names[i] && First(x, order + [s], n) > last then Some(sources[s][names[i]]) else Lookup(x, order + [s], n))
    {
      FirstUpto(sources, order, s, names[..i], n);
      FirstUpto(sources, order, s, names[..i + 1], n);
      LookupUpto(sources, order, s, names[..i], n);
      LookupUpto(sources, order, s, names[..i + 1], n);
    }
  }

  lemma PartlyNext(sources: Sources, order: seq<string>, s: string, names: seq<string>, i: nat, flat: Flat)
    requires s !in order && WellNamed(sources) && i < |names| && Sorted(names)
    requires Holds(sources, s, names[i])
    requires IsPartly(sources, order, s, names[..i], flat)
    ensures IsPartly(sources, order, s, names[..i + 1], AddName(flat, names[i], sources[s][names[i]]))
  {
    var name := names[i];
    LessTotal(name, name);
    assert name !in names[..i] && (forall a :: a in names[..i] ==> Less(a, name)) && sources[s][name].name == name;
    var x, y := Upto(sources, s, names[..i]), Upto(sources, s, names[..i + 1]);
    assert |order + [s]| - 1 == |order|;
    hide First, Upto, Less, Sorted, WellNamed, IsFlat, OneMore, AddName;
    NextIsOneMore(sources, order, s, names, i);
    forall a | First(x, order + [s], a) == |order| ensures Less(a, name) {
      FirstUpto(sources, order, s, names[..i], a);
    }
    AddNameIsFlat(x, y, order + [s], flat, name, sources[s][name], |order|);
  }

  lemma PartlyIsFlat(sources: Sources, order: seq<string>, s: string, names: seq<string>, flat: Flat)
    requires s !in order && forall n :: n in names <==> Holds(sources, s, n)
    requires IsPartly(sources, order, s, names, flat)
    ensures IsFlat(sources, order + [s], flat)
  {
    var x := Upto(sources, s, names);
    hide First, Upto, IsFlat;
    forall n
      ensures First(x, order + [s], n) == First(sources, order + [s], n)
      ensures Lookup(x, order + [s], n) == Lookup(sources, order + [s], n)
    {
      FirstUpto(sources, order, s, names, n);
      LookupUpto(sources, order, s, names, n);
      FirstAppend(sources, order, s, n);
    }
    Transfer(x, order + [s], sources, order + [s], flat);
  }

  // ---- What registry operations do to the sources ----

  function Ensure(sources: Sources): Sources {
    if LOCAL in sources then sources else sources[LOCAL := map[]]
  }

  function Effective(source: string): string {
    if source == "" then LOCAL else source
  }

  /** A list of tools as a source; a later tool replaces an earlier one of the same name. */
  function ByName(tools: seq<Tool>): Source {
    if tools == [] then map[]
    else
      var last := tools[|tools| - 1];
      ByName(tools[..|tools| - 1])[last.name := last]
  }

  function SourceOf(sources: Sources, s: string): Source {
    if s in sources then sources[s] else map[]
  }

  function Elems(names: seq<string>): set<string> {
    set s | s in names
  }

  function EffectiveElems(names: seq<string>): set<string> {
    set s | s in names :: Effective(s)
  }

  lemma ElemsUpto(names: seq<string>, i: nat)
    requires i < |names|
    ensures Elems(names[..i + 1]) == Elems(names[..i]) + {names[i]}
    ensures EffectiveElems(names[..i + 1]) == EffectiveElems(names[..i]) + {Effective(names[i])}
  {
  }

  function CloneExcluding(sources: Sources, excluded: set<string>): Sources {
    Ensure(sources - excluded)
  }

  lemma CloneIsMerge(sources: Sources, excluded: set<string>)
    ensures map[LOCAL := map[]] + (sources - excluded) == CloneExcluding(sources, excluded)
  {
  }

  /** Removes some sources and takes others over from a snapshot, missing ones as empty. */
  function Replaced(sources: Sources, snapshot: Sources, remove: set<string>, add: set<string>): Sources {
    (Ensure(sources) - remove) + map s | s in add :: SourceOf(snapshot, s)
  }

  function Unregistered(sources: Sources, remove: seq<string>): Sources {
    Ensure(sources) - EffectiveElems(remove)
  }

  // ---- The same, source by source ----

  /** Exactly the sources in `names` are gone, where the empty name stands for the local one; the others keep their tools. */
  ghost predicate Removes(before: Sources, names: seq<string>, after: Sources) {
    && (forall s :: s in after <==> (s in before || s == LOCAL) && !((s in names && s != "") || (s == LOCAL && "" in names)))
    && (forall s :: s in after ==> after[s] == if s in before then before[s] else map[])
  }

  lemma UnregisteredRemoves(sources: Sources, names: seq<string>)
    ensures Removes(sources, names, Unregistered(sources, names))
  {
    forall s | s in names || (s == LOCAL && "" in names) ensures Effective(s) in EffectiveElems(names) {
      assert s == LOCAL && s !in names ==> Effective("") == LOCAL;
    }
  }

  /** The sources in `add` are those of the snapshot, missing ones empty, and of the others exactly those in `remove` are gone. */
  ghost predicate Replaces(before: Sources, snapshot: Sources, remove: seq<string>, add: seq<string>, after: Sources) {
    && (forall s :: s in after <==> s in add || ((s in before || s == LOCAL) && s !in remove))
    && (forall s :: s in add ==> s in after && after[s] == if s in snapshot then snapshot[s] else map[])
    && (forall s :: s in after && s !in add ==> after[s] == if s in before then before[s] else map[])
  }

  lemma ReplacedReplaces(sources: Sources, snapshot: Sources, remove: seq<string>, add: seq<string>)
    ensures Replaces(sources, snapshot, remove, add, Replaced(sources, snapshot, Elems(remove), Elems(add)))
  {
  }

  ghost predicate Copies(before: Sources, excluded: set<string>, after: Sources) {
    && (forall s :: s in after <==> s == LOCAL || (s in before && s !in excluded))
    && (forall s :: s in after ==> after[s] == if s in before && s !in excluded then before[s] else map[])
  }

  lemma ClonedCopies(sources: Sources, excluded: set<string>)
    ensures Copies(sources, excluded, CloneExcluding(sources, excluded))
  {
  }

  /** `t` is the last tool of its name. */
  ghost predicate IsLast(tools: seq<Option<Tool>>, t: Tool) {
    exists i :: 0 <= i < |tools| && tools[i] == Some(t) && forall j :: i < j < |tools| && tools[j].Some? ==> tools[j].value.name != t.name
  }

  /** Under each name of the list stands the last tool of that name. */
  ghost predicate Files(tools: seq<Option<Tool>>, filed: Source) {
    && (forall n :: n in filed ==> filed[n].name == n && IsLast(tools, filed[n]))
    && (forall i :: 0 <= i < |tools| && tools[i].Some? ==> tools[i].value.name in filed)
  }

  lemma LastStays(tools: seq<Option<Tool>>, x: Option<Tool>, t: Tool)
    requires IsLast(tools, t) && (x.None? || x.value.name != t.name)
    ensures IsLast(tools + [x], t)
  {
    var i :| 0 <= i < |tools| && tools[i] == Some(t) && forall j :: i < j < |tools| && tools[j].Some? ==> tools[j].value.name != t.name;
    assert (tools + [x])[i] == Some(t);
  }

  lemma LastIsNew(tools: seq<Option<Tool>>, t: Tool)
    ensures IsLast(tools + [Some(t)], t)
  {
    assert (tools + [Some(t)])[|tools|] == Some(t);
  }

  lemma FilesOneMore(tools: seq<Option<Tool>>, x: Option<Tool>, filed: Source)
    requires Files(tools, filed)
    ensures Files(tools + [x], if x.None? then filed else filed[x.value.name := x.value])
  {
    var filed' := if x.None? then filed else filed[x.value.name := x.value];
    hide IsLast;
    forall n | n in filed' ensures filed'[n].name == n && IsLast(tools + [x], filed'[n]) {
      if x.Some? && x.value.name == n {
        LastIsNew(tools, x.value);
      } else {
        LastStays(tools, x, filed[n]);
      }
    }
  }

  lemma {:induction false} ByNameFiles(tools: seq<Option<Tool>>)
    ensures Files(tools, ByName(Present(tools)))
  {
    if tools != [] {
      var k := |tools| - 1;
      ByNameFiles(tools[..k]);
      PresentStep(tools, k);
      FilesOneMore(tools[..k], tools[k], ByName(Present(tools[..k])));
      assert tools[..k + 1] == tools && tools[..k] + [tools[k]] == tools;
      hide *;
    }
  }

  /** One source has the tools of a list, and the others are as they were. */
  ghost predicate Registers(before: Sources, s: string, tools: seq<Option<Tool>>, after: Sources) {
    && after.Keys == before.Keys + {LOCAL, s} && Files(tools, after[s])
    && (forall s' :: s' in after && s' != s ==> after[s'] == if s' in before then before[s'] else map[])
  }

  lemma RegisteredRegisters(sources: Sources, s: string, tools: seq<Option<Tool>>)
    ensures Registers(sources, s, tools, Ensure(sources)[s := ByName(Present(tools))])
  {
    ByNameFiles(tools);
    hide ByName, Present, Files;
  }

  lemma OperationsKeepNames(sources: Sources, snapshot: Sources, remove: set<string>, add: set<string>, names: seq<string>)
    requires WellNamed(sources) && WellNamed(snapshot)
    ensures WellNamed(Replaced(sources, snapshot, remove, add))
    ensures WellNamed(Unregistered(sources, names)) && WellNamed(CloneExcluding(sources, remove))
  {
  }

  function Present(tools: seq<Option<Tool>>): seq<Tool> {
    if tools == [] then []
    else
      var last := tools[|tools| - 1];
      Present(tools[..|tools| - 1]) + if last.Some? then [last.value] else []
  }

  lemma {:induction false} ByNameIsWellNamed(tools: seq<Tool>)
    ensures forall n :: n in ByName(tools) ==> ByName(tools)[n].name == n && ByName(tools)[n] in tools
    ensures forall t :: t in tools ==> t.name in ByName(tools)
  {
    if tools != [] {
      var front := tools[..|tools| - 1];
      ByNameIsWellNamed(front);
      assert tools == front + [tools[|tools| - 1]];
    }
  }

  lemma PresentStep(tools: seq<Option<Tool>>, i: nat)
    requires i < |tools|
    ensures ByName(Present(tools[..i + 1])) ==
            if tools[i].None? then ByName(Present(tools[..i]))
            else ByName(Present(tools[..i]))[tools[i].value.name := tools[i].value]
  {
    var present := Present(tools[..i]);
    assert tools[..i + 1][..i] == tools[..i] && present + [] == present;
    if tools[i].Some? {
      assert (present + [tools[i].value])[..|present|] == present;
    }
  }

  lemma RegisteringKeepsNames(sources: Sources, s: string, tools: seq<Tool>)
    requires WellNamed(sources)
    ensures WellNamed(Ensure(sources)[s := ByName(tools)])
  {
    ByNameIsWellNamed(tools);
  }

  lemma EmptyLocalIsFlat()
    ensures IsFlat(map[LOCAL := map[]], Order(map[LOCAL := map[]]), Flat(map[], []))
  {
  }
}
