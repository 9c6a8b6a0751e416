/**
 The index of a GRIB2 file: which records belong to which field identity, in which order,
 and with which grid.  The scan for the next message and the decoding of headers are
 inputs.
 */
module RecordIndex {
  import opened Common
  import opened Indexing
  import opened Selections
  import FieldIdentity
  import Grib2Grid

  /** The decoded metadata of one field. */
  datatype Header = Header(pdt: int, product: seq<int>, grid: seq<int>, points: int)

  /** One message of the file; None is a field whose header cannot be decoded. */
  datatype Message = Message(offset: int, length: int, readable: bool, discipline: int, fields: seq<Option<Header>>)

  datatype Location = Location(offset: int, length: int, field: nat)

  datatype Geometry = Geometry(ni: int, nj: int, points: int)

  datatype FieldEntry = FieldEntry(geometry: Geometry, records: seq<Location>)

  type Index = map<string, FieldEntry>

  /******* One field *******/

  const NI_INDEX: nat := 7
  const NJ_INDEX: nat := 8

  /** Ni and Nj from the grid template when they multiply to the number of points, else a
      single row. */
  function GeometryOf(h: Header): Geometry {
    var shaped := |h.grid| > NJ_INDEX && h.grid[NI_INDEX] > 0 && h.grid[NJ_INDEX] > 0 && h.grid[NI_INDEX] * h.grid[NJ_INDEX] == h.points;
    if shaped then Geometry(h.grid[NI_INDEX], h.grid[NJ_INDEX], h.points) else Geometry(h.points, 1, h.points)
  }

  function KeyOf(discipline: int, h: Header): string {
    FieldIdentity.Name(FieldIdentity.DecodedIdentity(discipline, h.pdt, h.product))
  }

  /** The settings that reach Section 3. */
  datatype GridSettings = GridSettings(latFirst: int, lonFirst: int, latLast: int, lonLast: int, parallels: int)

  /** Division that truncates toward zero, for a positive divisor. */
  function Truncated(a: int, b: int): int
    requires b > 0
  {
    if a >= 0 then a / b else -(-a / b)
  }

  function Abs(x: int): int { if x < 0 then -x else x }

  /** The increment between `n` points over a span. */
  function Increment(span: int, n: int): int {
    Abs(if n > 1 then Truncated(span, n - 1) else 0)
  }

  function BuildGrid0(s: GridSettings, ni: int, nj: int): seq<int> {
    [6, 0, 0, 0, 0, 0, 0, ni, nj, 0, 0, s.latFirst, s.lonFirst, 48, s.latLast, s.lonLast,
     Increment(s.lonLast - s.lonFirst, ni), Increment(s.latFirst - s.latLast, nj), 0]
  }

  function BuildGrid40(s: GridSettings, ni: int, nj: int): seq<int> {
    [6, 0, 0, 0, 0, 0, 0, ni, nj, 0, 0, s.latFirst, s.lonFirst, 48, s.latLast, s.lonLast,
     Increment(s.lonLast - s.lonFirst, ni), s.parallels, 0]
  }

  /** The encoder's dispatch; other template numbers are refused. */
  function BuildGrid(number: int, s: GridSettings, ni: int, nj: int): Option<seq<int>> {
    if number == 0 then Some(BuildGrid0(s, ni, nj)) else if number == 40 then Some(BuildGrid40(s, ni, nj)) else None
  }

  /** Whatever the template says, the indexed extents multiply to the number of points, and
      a grid that the encoder wrote comes back with its own Ni and Nj. */
  lemma GeometryIsConsistent(h: Header)
    ensures var g := GeometryOf(h);
      && g.ni * g.nj == h.points == g.points
      && (h.points >= 1 ==> g.ni >= 1 && g.nj >= 1)
      && Product(Grib2Grid.Described(g.nj, g.ni)) == h.points
  {
    var g := GeometryOf(h);
    assert [g.nj, g.ni][1..] == [g.ni] && [g.ni][1..] == [];
    assert Product([g.ni]) == g.ni;
    Grib2Grid.Commute(g.ni, g.nj);
  }

  /** The increments are positive steps that do not leave the span. */
  lemma IncrementSpans(span: int, n: int)
    requires n > 1
    ensures 0 <= Increment(span, n) && Increment(span, n) * (n - 1) <= Abs(span) < (Increment(span, n) + 1) * (n - 1)
  {
    var a, b := Abs(span), n - 1;
    assert Increment(span, n) == a / b;
    assert a == (a / b) * b + a % b;
    Distribute(a / b, 1, b);
  }

  /** A grid that the encoder wrote with either template comes back with its own Ni and Nj
      if and only if the record has that many points and they are positive; a record of
      another number of points comes back as a single row. */
  lemma EncodedGridComesBack(number: int, s: GridSettings, ni: int, nj: int, h: Header)
    requires BuildGrid(number, s, ni, nj) == Some(h.grid)
    ensures ni >= 1 && nj >= 1 && h.points == ni * nj ==> GeometryOf(h) == Geometry(ni, nj, ni * nj)
    ensures !(ni >= 1 && nj >= 1 && h.points == ni * nj) ==> GeometryOf(h) == Geometry(h.points, 1, h.points)
  {
    assert h.grid == BuildGrid0(s, ni, nj) || h.grid == BuildGrid40(s, ni, nj);
  }

  /******* The file as a list of fields *******/

  datatype Item = Item(key: string, location: Location, geometry: Geometry)

  predicate FieldsReadable(m: Message, n: nat)
    requires n <= |m.fields|
  {
    forall i :: 0 <= i < n ==> m.fields[i].Some?
  }

  predicate Readable(m: Message) {
    m.readable && FieldsReadable(m, |m.fields|)
  }

  /** Field numbers within a message start at 1. */
  function ItemOf(m: Message, i: nat): Item
    requires i < |m.fields| && m.fields[i].Some?
  {
    var h := m.fields[i].value;
    Item(KeyOf(m.discipline, h), Location(m.offset, m.length, i + 1), GeometryOf(h))
  }

  function FieldItems(m: Message, n: nat): (r: seq<Item>)
    requires n <= |m.fields| && FieldsReadable(m, n)
    ensures |r| == n
  {
    seq(n, i requires 0 <= i < n => ItemOf(m, i))
  }

  function Items(file: seq<Message>): seq<Item>
    requires forall i :: 0 <= i < |file| ==> Readable(file[i])
  {
    if file == [] then []
    else
      var last := file[|file| - 1];
      assert Readable(last);
      Items(file[..|file| - 1]) + FieldItems(last, |last.fields|)
  }

  /** The records of one identity, in file order. */
  function Pick(items: seq<Item>, key: string): seq<Location> {
    if items == [] then []
    else
      var last := items[|items| - 1];
      Pick(items[..|items| - 1], key) + if last.key == key then [last.location] else []
  }

  /** The grid of the first record of an identity. */
  function FirstGeometry(items: seq<Item>, key: string): Geometry {
    if items == [] then Geometry(0, 1, 0)
    else
      var last := items[|items| - 1];
      if Pick(items[..|items| - 1], key) == [] && last.key == key then last.geometry
      else FirstGeometry(items[..|items| - 1], key)
  }

  /******* Building the index *******/

  ghost predicate Indexes(index: Index, items: seq<Item>) {
    && (forall key :: key in index <==> Pick(items, key) != [])
    && (forall key :: key in index ==> index[key] == FieldEntry(FirstGeometry(items, key), Pick(items, key)))
  }

  /** `records_[key]` with the record appended; the first record also sets the grid. */
  function Add(index: Index, item: Item): Index {
    if item.key in index
    then index[item.key := index[item.key].(records := index[item.key].records + [item.location])]
    else index[item.key := FieldEntry(item.geometry, [item.location])]
  }

  lemma AddIndexes(index: Index, items: seq<Item>, item: Item)
    requires Indexes(index, items)
    ensures Indexes(Add(index, item), items + [item])
  {
    var more := items + [item];
    assert more[..|more| - 1] == items;
    forall key
      ensures key in Add(index, item) <==> Pick(more, key) != []
      ensures key in Add(index, item) ==> Add(index, item)[key] == FieldEntry(FirstGeometry(more, key), Pick(more, key))
    {
      assert Pick(more, key) == Pick(items, key) + if item.key == key then [item.location] else [];
    }
  }

  lemma AddField(index: Index, items: seq<Item>, m: Message, n: nat)
    requires n < |m.fields| && FieldsReadable(m, n + 1) && Indexes(index, items + FieldItems(m, n))
    ensures Indexes(Add(index, ItemOf(m, n)), items + FieldItems(m, n + 1))
  {
    AddToTail(index, items, FieldItems(m, n), ItemOf(m, n));
    FieldItemsStep(m, n);
  }

  lemma FieldItemsStep(m: Message, n: nat)
    requires n < |m.fields| && FieldsReadable(m, n + 1)
    ensures FieldItems(m, n + 1) == FieldItems(m, n) + [ItemOf(m, n)]
  {
    var a, b := FieldItems(m, n + 1), FieldItems(m, n) + [ItemOf(m, n)];
    assert |a| == |b|;
    forall i | 0 <= i < |a| ensures a[i] == b[i] {
      assert a[i] == ItemOf(m, i);
    }
  }

  lemma AddToTail(index: Index, items: seq<Item>, more: seq<Item>, item: Item)
    requires Indexes(index, items + more)
    ensures Indexes(Add(index, item), items + (more + [item]))
  {
    AddIndexes(index, items + more, item);
    assert items + more + [item] == items + (more + [item]);
  }

  /** `done` is the index after the first `n` fields of message `m`. */
  ghost predicate IndexesFirst(done: Index, items: seq<Item>, m: Message, n: nat) {
    n <= |m.fields| && FieldsReadable(m, n) && Indexes(done, items + FieldItems(m, n))
  }

  /** Add the next field, unless its header cannot be decoded. */
  function AddNext(done: Index, m: Message, n: nat): Option<Index>
    requires n < |m.fields|
  {
    if m.fields[n].None? then None else Some(Add(done, ItemOf(m, n)))
  }

  lemma AddNextIndexes(done: Index, items: seq<Item>, m: Message, n: nat)
    requires n < |m.fields| && IndexesFirst(done, items, m, n)
    ensures AddNext(done, m, n).None? ==> !Readable(m)
    ensures AddNext(done, m, n).Some? ==> IndexesFirst(AddNext(done, m, n).value, items, m, n + 1)
  {
    if m.fields[n].Some? { AddField(done, items, m, n); }
  }

  lemma IndexesNone(index: Index, items: seq<Item>, m: Message)
    requires Indexes(index, items)
    ensures IndexesFirst(index, items, m, 0)
  {
    assert items + FieldItems(m, 0) == items;
  }

  method IndexMessage(index: Index, m: Message, ghost items: seq<Item>) returns (r: Option<Index>)
    requires Indexes(index, items) && m.readable
    ensures r.Some? <==> Readable(m)
    ensures r.Some? ==> IndexesFirst(r.value, items, m, |m.fields|)
  {
    var done := index;
    var n := 0;
    IndexesNone(index, items, m);
    while n < |m.fields|
      invariant IndexesFirst(done, items, m, n)
    {
      AddNextIndexes(done, items, m, n);
      var next := AddNext(done, m, n);
      if next.None? { return None; }
      done := next.value;
      n := n + 1;
    }
    return Some(done);
  }

  predicate AllReadable(file: seq<Message>) {
    forall i :: 0 <= i < |file| ==> Readable(file[i])
  }

  lemma ItemsStep(file: seq<Message>, k: nat)
    requires k < |file| && AllReadable(file[..k]) && Readable(file[k])
    ensures AllReadable(file[..k + 1])
    ensures Items(file[..k + 1]) == Items(file[..k]) + FieldItems(file[k], |file[k].fields|)
  {
    assert file[..k + 1][..k] == file[..k];
    assert file[..k + 1] == file[..k] + [file[k]];
  }

  /** The scan fails when a message or a field header cannot be read; otherwise the index
      maps every identity that occurs to its records in file order. */
  method BuildRecordIndex(file: seq<Message>) returns (r: Option<Index>)
    ensures r.Some? <==> AllReadable(file)
    ensures r.Some? ==> Indexes(r.value, Items(file))
  {
    var index: Index := map[];
    var k := 0;
    while k < |file|
      invariant 0 <= k <= |file| && AllReadable(file[..k])
      invariant Indexes(index, Items(file[..k]))
    {
      if !file[k].readable { return None; }
      var next := IndexMessage(index, file[k], Items(file[..k]));
      if next.None? { return None; }
      ItemsStep(file, k);
      index := next.value;
      k := k + 1;
    }
    assert file[..k] == file;
    return Some(index);
  }

  /******* What the index means *******/

  /** The record list of an identity holds exactly the locations of its fields. */
  lemma {:induction false} PickIsExact(items: seq<Item>, key: string, l: Location)
    ensures l in Pick(items, key) <==> exists i :: 0 <= i < |items| && items[i].key == key && items[i].location == l
  {
    if items != [] {
      var n := |items| - 1;
      PickIsExact(items[..n], key, l);
      if l in Pick(items[..n], key) {
        var i :| 0 <= i < n && items[..n][i].key == key && items[..n][i].location == l;
        assert items[i].key == key;
      }
      if i :| 0 <= i < |items| && items[i].key == key && items[i].location == l {
        if i < n { assert items[..n][i] == items[i]; }
      }
    }
  }

  predicate Precedes(a: Location, b: Location) {
    a.offset < b.offset || (a.offset == b.offset && a.field < b.field)
  }

  ghost predicate InFileOrder(items: seq<Item>) {
    forall i, j :: 0 <= i < j < |items| ==> Precedes(items[i].location, items[j].location)
  }

  /** Records are in file order, so `records[t]` is timestep t, and none occurs twice. */
  lemma {:induction false} RecordsInFileOrder(items: seq<Item>, key: string)
    requires InFileOrder(items)
    ensures forall s, t :: 0 <= s < t < |Pick(items, key)| ==> Precedes(Pick(items, key)[s], Pick(items, key)[t])
  {
    if items != [] {
      var n := |items| - 1;
      RecordsInFileOrder(items[..n], key);
      var before := Pick(items[..n], key);
      forall s | 0 <= s < |before| ensures Precedes(before[s], items[n].location) {
        PickIsExact(items[..n], key, before[s]);
        var i :| 0 <= i < n && items[..n][i].key == key && items[..n][i].location == before[s];
        assert items[..n][i] == items[i];
      }
    }
  }

  /** Messages found one after the other give fields in file order. */
  lemma {:induction false} ScanIsInFileOrder(file: seq<Message>)
    requires forall i :: 0 <= i < |file| ==> Readable(file[i])
    requires forall i, j :: 0 <= i < j < |file| ==> file[i].offset < file[j].offset
    ensures InFileOrder(Items(file))
    ensures forall i :: 0 <= i < |Items(file)| ==> exists k :: 0 <= k < |file| && Items(file)[i].location.offset == file[k].offset
  {
    if file != [] {
      var n := |file| - 1;
      var prev, last := Items(file[..n]), FieldItems(file[n], |file[n].fields|);
      ScanIsInFileOrder(file[..n]);
      var all := Items(file);
      assert all == prev + last;
      forall i | 0 <= i < |all| ensures exists k :: 0 <= k < |file| && all[i].location.offset == file[k].offset {
        if i < |prev| {
          var k :| 0 <= k < n && prev[i].location.offset == file[..n][k].offset;
          assert file[..n][k] == file[k];
        } else {
          assert all[i].location.offset == file[n].offset;
        }
      }
      forall i, j | 0 <= i < j < |all| ensures Precedes(all[i].location, all[j].location) {
        if i < |prev| <= j {
          var k :| 0 <= k < n && prev[i].location.offset == file[..n][k].offset;
          assert file[..n][k] == file[k];
        }
      }
    }
  }

  /******* The index in terms of the file *******/

  /** The position of field `i` of message `m` in the list of fields. */
  function At(file: seq<Message>, m: nat, i: nat): nat
    requires AllReadable(file) && m < |file|
  {
    |Items(file[..m])| + i
  }

  lemma ItemsSplit(file: seq<Message>)
    requires AllReadable(file) && file != []
    ensures var n := |file| - 1;
      AllReadable(file[..n]) && Items(file) == Items(file[..n]) + FieldItems(file[n], |file[n].fields|)
  {
  }

  lemma FieldItemAt(before: seq<Item>, m: Message, i: nat)
    requires Readable(m) && i < |m.fields|
    ensures (before + FieldItems(m, |m.fields|))[|before| + i] == ItemOf(m, i)
  {
  }

  /** Field `i` of message `m` stands behind the fields of the messages before it. */
  lemma {:induction false} ItemAt(file: seq<Message>, m: nat, i: nat)
    requires AllReadable(file) && m < |file| && i < |file[m].fields|
    ensures At(file, m, i) < |Items(file)| && Readable(file[m]) && Items(file)[At(file, m, i)] == ItemOf(file[m], i)
  {
    var n := |file| - 1;
    ItemsSplit(file);
    if m < n {
      ItemAt(file[..n], m, i);
      assert file[..n][..m] == file[..m] && file[..n][m] == file[m];
    } else {
      FieldItemAt(Items(file[..n]), file[n], i);
    }
  }

  lemma {:induction false} ItemsGrow(file: seq<Message>, a: nat, b: nat)
    requires AllReadable(file) && a < b <= |file|
    ensures |Items(file[..a])| + |file[a].fields| <= |Items(file[..b])|
  {
    ItemsSplit(file[..b]);
    assert file[..b][..b - 1] == file[..b - 1];
    if a < b - 1 { ItemsGrow(file, a, b - 1); }
  }

  /** Every item is a field of some message. */
  lemma {:induction false} Locate(file: seq<Message>, j: nat) returns (m: nat, i: nat)
    requires AllReadable(file) && j < |Items(file)|
    ensures m < |file| && i < |file[m].fields| && j == At(file, m, i)
  {
    var n := |file| - 1;
    ItemsSplit(file);
    var before := |Items(file[..n])|;
    if j < before {
      m, i := Locate(file[..n], j);
      assert file[..n][..m] == file[..m];
    } else {
      m, i := n, j - before;
    }
  }

  lemma {:induction false} FirstIs(items: seq<Item>, key: string) returns (j: nat)
    requires Pick(items, key) != []
    ensures j < |items| && items[j].key == key && FirstGeometry(items, key) == items[j].geometry
    ensures forall k :: 0 <= k < j ==> items[k].key != key
  {
    var n := |items| - 1;
    if Pick(items[..n], key) == [] {
      j := n;
      forall k | 0 <= k < n ensures items[k].key != key {
        assert items[..n][k] == items[k];
        PickIsExact(items[..n], key, items[k].location);
      }
    } else {
      j := FirstIs(items[..n], key);
      forall k | 0 <= k < j ensures items[k].key != key { assert items[..n][k] == items[k]; }
    }
  }

  /** Field `i` of message `m` exists and its own header prints as `key`. */
  predicate Named(file: seq<Message>, m: int, i: int, key: string) {
    && 0 <= m < |file| && 0 <= i < |file[m].fields| && file[m].fields[i].Some?
    && KeyOf(file[m].discipline, file[m].fields[i].value) == key
  }

  lemma NamedIs(file: seq<Message>, m: nat, i: nat, key: string)
    requires AllReadable(file) && m < |file| && i < |file[m].fields|
    ensures At(file, m, i) < |Items(file)|
    ensures Named(file, m, i, key) <==> Items(file)[At(file, m, i)].key == key
    ensures Items(file)[At(file, m, i)].location == Location(file[m].offset, file[m].length, i + 1)
  {
    ItemAt(file, m, i);
  }

  lemma ListedIsNamed(file: seq<Message>, key: string, l: Location)
    requires AllReadable(file) && l in Pick(Items(file), key)
    ensures exists m, i :: Named(file, m, i, key) && l == Location(file[m].offset, file[m].length, i + 1)
  {
    var items := Items(file);
    PickIsExact(items, key, l);
    var j :| 0 <= j < |items| && items[j].key == key && items[j].location == l;
    var m, i := Locate(file, j);
    NamedIs(file, m, i, key);
  }

  lemma NamedIsListed(file: seq<Message>, key: string, m: nat, i: nat)
    requires AllReadable(file) && Named(file, m, i, key)
    ensures Location(file[m].offset, file[m].length, i + 1) in Pick(Items(file), key)
  {
    NamedIs(file, m, i, key);
    PickIsExact(Items(file), key, Location(file[m].offset, file[m].length, i + 1));
  }

  /** The fields of the file under a name, each with its own header and numbered from 1
      within its message, are exactly the records that the index lists for the name. */
  lemma ListedIff(file: seq<Message>, index: Index, key: string, l: Location)
    requires AllReadable(file) && Indexes(index, Items(file))
    ensures (key in index && l in index[key].records) <==>
      exists m, i :: Named(file, m, i, key) && l == Location(file[m].offset, file[m].length, i + 1)
  {
    assert key in index && l in index[key].records <==> l in Pick(Items(file), key);
    if l in Pick(Items(file), key) {
      ListedIsNamed(file, key, l);
    }
    if m, i :| Named(file, m, i, key) && l == Location(file[m].offset, file[m].length, i + 1) {
      NamedIsListed(file, key, m, i);
    }
  }

  lemma EarlierStandsBefore(file: seq<Message>, n: nat, k: nat, m: nat, i: nat)
    requires AllReadable(file) && n < |file| && m < |file| && k < |file[n].fields|
    requires n < m || (n == m && k < i)
    ensures At(file, n, k) < At(file, m, i)
  {
    if n < m { ItemsGrow(file, n, m); }
  }

  /** The entry's grid is that of the first field of its name: no field of an earlier message,
      and no earlier field of the same message, has it. */
  lemma GeometryIsFirst(file: seq<Message>, index: Index, key: string) returns (m: nat, i: nat)
    requires AllReadable(file) && Indexes(index, Items(file)) && key in index
    ensures Named(file, m, i, key) && index[key].geometry == GeometryOf(file[m].fields[i].value)
    ensures forall n, k :: Named(file, n, k, key) ==> m < n || (m == n && i <= k)
  {
    var items := Items(file);
    var j := FirstIs(items, key);
    m, i := Locate(file, j);
    ItemAt(file, m, i);
    forall n, k | Named(file, n, k, key) ensures m < n || (m == n && i <= k) {
      NamedIs(file, n, k, key);
      if n < m || (n == m && k < i) { EarlierStandsBefore(file, n, k, m, i); }
    }
  }

  /** Two fields, of whatever templates, share an index entry exactly when they agree in
      the descriptors that their templates print and in the template number, where every
      unsupported number counts as 0. */
  lemma SameEntryIff(da: int, a: Header, db: int, b: Header)
    ensures KeyOf(da, a) == KeyOf(db, b) <==>
      FieldIdentity.Told(FieldIdentity.DecodedIdentity(da, a.pdt, a.product))
      == FieldIdentity.Told(FieldIdentity.DecodedIdentity(db, b.pdt, b.product))
  {
    FieldIdentity.SameNameIff(FieldIdentity.DecodedIdentity(da, a.pdt, a.product), FieldIdentity.DecodedIdentity(db, b.pdt, b.product));
  }

  /******* Records of different grids under one identity *******/

  /** The box that selects the whole grid of nj rows of ni points. */
  function WholeBox(nj: int, ni: int): Box {
    BoxData(2, [0, 0, 0, 0, 0, 0, 0], [nj, ni, 1, 1, 1, 1, 1], [1, 1, 1, 1, 1, 1, 1])
  }

  lemma WholeBoxSlices(nj: int, ni: int)
    ensures var b: BoxData := WholeBox(nj, ni);
      b.offsets[..2] == [0, 0] && b.extents[..2] == [nj, ni] && b.strides[..2] == [1, 1] && b.rank == 2
  {
  }

  lemma WholeBoxReachesLast(nj: int, ni: int)
    requires nj >= 1 && ni >= 1
    ensures Grib2Grid.Fits([0, 0], [nj, ni], [1, 1], [nj, ni])
    ensures Grib2Grid.Furthest([0, 0], [nj, ni], [1, 1], [nj, ni]) == nj * ni - 1 && Product([nj, ni]) == nj * ni
  {
    assert seq(2, d requires 0 <= d < 2 => [0, 0][d] + ([nj, ni][d] - 1) * [1, 1][d]) == Last([nj, ni]);
    LinIsDot(Last([nj, ni]), [nj, ni]);
    Grib2Grid.LastPosition([nj, ni]);
    assert [nj, ni][1..] == [ni] && [ni][1..] == [] && Product([ni]) == ni;
  }

  /** For a field with a two-dimensional grid the coordinator accepts the whole-grid box, and
      reading it from a record of `points` points leaves the record if and only if that has
      fewer points than the grid. */
  lemma ShortRecordEscapesIff(nj: int, ni: int, points: nat, capacity: nat)
    requires nj > 1 && ni >= 1 && points >= 1 && capacity >= Grib2Grid.POINT_SIZE * (nj * ni)
    ensures Grib2Grid.Inside([0, 0], [nj, ni], [1, 1], Grib2Grid.Described(nj, ni))
    ensures Grib2Grid.ReadOutcome(points, nj, ni, Some(WholeBox(nj, ni)), capacity) == Grib2Grid.Escapes <==> points < nj * ni
  {
    WholeBoxSlices(nj, ni);
    WholeBoxReachesLast(nj, ni);
    Grib2Grid.FitsIffInside([0, 0], [nj, ni], [1, 1], [nj, ni]);
  }

  /** A file of two messages with the same product template: a 2 x 2 grid, then 3 points. */
  function MixedFile(discipline: int, pdt: int, product: seq<int>): seq<Message> {
    [Message(0, 100, true, discipline, [Some(Header(pdt, product, [0, 0, 0, 0, 0, 0, 0, 2, 2], 4))]),
     Message(100, 100, true, discipline, [Some(Header(pdt, product, [], 3))])]
  }

  lemma MixedItems(discipline: int, pdt: int, product: seq<int>)
    ensures var file := MixedFile(discipline, pdt, product);
      var key := FieldIdentity.Name(FieldIdentity.DecodedIdentity(discipline, pdt, product));
      && AllReadable(file)
      && Items(file) == [Item(key, Location(0, 100, 1), Geometry(2, 2, 4)), Item(key, Location(100, 100, 1), Geometry(3, 1, 3))]
  {
    var file := MixedFile(discipline, pdt, product);
    ItemsStep(file, 0);
    ItemsStep(file, 1);
    assert file[..0] == [] && file[..2] == file;
  }

  lemma PickTwo(x: Item, y: Item)
    requires x.key == y.key
    ensures Pick([x, y], x.key) == [x.location, y.location] && FirstGeometry([x, y], x.key) == x.geometry
  {
    assert [x, y][..1] == [x] && [x][..0] == [];
    assert Pick([x], x.key) == [x.location];
  }

  /** The indexing scan accepts such a file under one identity with the grid of its first
      record, and a whole-grid read of timestep 1 leaves that record. */
  lemma MixedFileEscapes(discipline: int, pdt: int, product: seq<int>, index: Index)
    requires AllReadable(MixedFile(discipline, pdt, product)) && Indexes(index, Items(MixedFile(discipline, pdt, product)))
    ensures var key := FieldIdentity.Name(FieldIdentity.DecodedIdentity(discipline, pdt, product));
      && key in index
      && index[key] == FieldEntry(Geometry(2, 2, 4), [Location(0, 100, 1), Location(100, 100, 1)])
      && Grib2Grid.Inside([0, 0], [2, 2], [1, 1], Grib2Grid.Described(2, 2))
      && Grib2Grid.ReadOutcome(3, 2, 2, Some(WholeBox(2, 2)), 16) == Grib2Grid.Escapes
  {
    var key := FieldIdentity.Name(FieldIdentity.DecodedIdentity(discipline, pdt, product));
    MixedItems(discipline, pdt, product);
    PickTwo(Item(key, Location(0, 100, 1), Geometry(2, 2, 4)), Item(key, Location(100, 100, 1), Geometry(3, 1, 3)));
    ShortRecordEscapesIff(2, 2, 3, 16);
  }
}
