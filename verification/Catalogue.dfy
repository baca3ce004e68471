/** Merchant listings brought in line with a marketplace report. */
module Catalogue {
  import opened Text
  import opened Wrappers

  /** Listings are unique by this identity. */
  datatype Id = Id(brand: int, marketplace: string, asin: string, sku: string)

  datatype Key = Key(asin: string, sku: string)

  datatype Listing = Listing(name: string, description: Option<string>, channel: Option<string>)

  datatype Row = Row(asin: string, sku: string, name: Option<string>, description: Option<string>,
      channel: Option<string>)

  type Table = map<Id, Listing>

  function OrEmpty(value: Option<string>): string {
    if value.None? then "" else value.value
  }

  function StripOptional(value: Option<string>): Option<string> {
    if Strip(OrEmpty(value)) == "" then None else Some(Strip(OrEmpty(value)))
  }

  function MergeTextField(incoming: Option<string>, existing: string): string {
    if Strip(OrEmpty(incoming)) != "" then Strip(OrEmpty(incoming)) else Strip(existing)
  }

  function MergeOptionalField(incoming: Option<string>, existing: Option<string>): Option<string> {
    if StripOptional(incoming).Some? then StripOptional(incoming) else StripOptional(existing)
  }

  /** A new listing is stored as reported; a known one is merged field by field. */
  function Upserted(existing: Option<Listing>, row: Row): Listing {
    if existing.None? then Listing(OrEmpty(row.name), row.description, row.channel)
    else
      var was := existing.value;
      Listing(MergeTextField(row.name, was.name), MergeOptionalField(row.description, was.description),
              MergeOptionalField(row.channel, was.channel))
  }

  function KeyOf(row: Row): Key {
    Key(row.asin, row.sku)
  }

  function Find<K, V>(m: map<K, V>, key: K): Option<V> {
    if key in m then Some(m[key]) else None
  }

  /** The rows about one key, in report order. */
  function RowsOf(rows: seq<Row>, key: Key): seq<Row> {
    if rows == [] then []
    else RowsOf(rows[..|rows| - 1], key) + if KeyOf(rows[|rows| - 1]) == key then [rows[|rows| - 1]] else []
  }

  function Fold(existing: Option<Listing>, rows: seq<Row>): Option<Listing>
    ensures rows != [] ==> Fold(existing, rows).Some?
  {
    if rows == [] then existing
    else Some(Upserted(Fold(existing, rows[..|rows| - 1]), rows[|rows| - 1]))
  }

  function Keys(rows: seq<Row>): set<Key> {
    set i | 0 <= i < |rows| :: KeyOf(rows[i])
  }

  predicate InScope(id: Id, brand: int, marketplace: string) {
    id.brand == brand && id.marketplace == marketplace
  }

  function IdOf(brand: int, marketplace: string, key: Key): Id {
    Id(brand, marketplace, key.asin, key.sku)
  }

  function Loaded(table: Table, brand: int, marketplace: string): map<Key, Listing> {
    map key | key in (set id | id in table && InScope(id, brand, marketplace) :: Key(id.asin, id.sku)) ::
      table[IdOf(brand, marketplace, key)]
  }

  /** The table with the listings of one brand and marketplace replaced. */
  function Replaced(table: Table, brand: int, marketplace: string, listings: map<Key, Listing>): Table {
    (map id | id in table && !InScope(id, brand, marketplace) :: table[id])
    + map id | id in (set key | key in listings :: IdOf(brand, marketplace, key)) :: listings[Key(id.asin, id.sku)]
  }

  /** The dictionary after the loop over the report. */
  function Scan(existing: map<Key, Listing>, rows: seq<Row>): map<Key, Listing> {
    if rows == [] then existing
    else
      var before, row := Scan(existing, rows[..|rows| - 1]), rows[|rows| - 1];
      before[KeyOf(row) := Upserted(Find(before, KeyOf(row)), row)]
  }

  /** An empty report changes nothing; any other also removes the listings it does not mention. */
  function Report(table: Table, brand: int, marketplace: string, rows: seq<Row>): Table {
    if rows == [] then table
    else
      var scanned := Scan(Loaded(table, brand, marketplace), rows);
      Replaced(table, brand, marketplace, scanned - (scanned.Keys - Keys(rows)))
  }

  lemma KeysGrow(rows: seq<Row>, i: nat)
    requires i < |rows|
    ensures Keys(rows[..i + 1]) == Keys(rows[..i]) + {KeyOf(rows[i])}
  {
    forall key
      ensures key in Keys(rows[..i + 1]) <==> key in Keys(rows[..i]) || key == KeyOf(rows[i])
    {
      if key in Keys(rows[..i]) {
        var k :| 0 <= k < i && KeyOf(rows[..i][k]) == key;
        assert KeyOf(rows[..i + 1][k]) == key;
      }
      if key == KeyOf(rows[i]) {
        assert KeyOf(rows[..i + 1][i]) == key;
      }
      if key in Keys(rows[..i + 1]) {
        var k :| 0 <= k < i + 1 && KeyOf(rows[..i + 1][k]) == key;
        assert k < i ==> KeyOf(rows[..i][k]) == key;
      }
    }
  }

  class MerchantListingRepository {
    var table: Table

    method UpsertMany(brand: int, marketplace: string, rows: seq<Row>)
      modifies this
      ensures table == Report(old(table), brand, marketplace, rows)
    {
      if rows == [] {
        return;
      }
      var existing := Loaded(table, brand, marketplace);
      var seen: set<Key> := {};
      for i := 0 to |rows|
        invariant table == old(table)
        invariant seen == Keys(rows[..i])
        invariant existing == Scan(Loaded(table, brand, marketplace), rows[..i])
      {
        var key := KeyOf(rows[i]);
        assert rows[..i + 1][..i] == rows[..i];
        KeysGrow(rows, i);
        seen := seen + {key};
        var entity := Find(existing, key);
        existing := existing[key := Upserted(entity, rows[i])];
      }
      assert rows[..|rows|] == rows;
      var obsolete := existing.Keys - seen;
      table := Replaced(table, brand, marketplace, existing - obsolete);
    }
  }

  /* ---------- Which listings there are ---------- */

  lemma {:induction false} ScanKeys(existing: map<Key, Listing>, rows: seq<Row>)
    ensures Scan(existing, rows).Keys == existing.Keys + Keys(rows)
  {
    if rows != [] {
      var n := |rows| - 1;
      ScanKeys(existing, rows[..n]);
      KeysGrow(rows, n);
      assert rows[..n + 1] == rows;
    }
  }

  lemma KeysAre(rows: seq<Row>, key: Key)
    ensures key in Keys(rows) <==> exists i :: 0 <= i < |rows| && rows[i].asin == key.asin && rows[i].sku == key.sku
  {
  }

  lemma ReportIds(table: Table, brand: int, marketplace: string, rows: seq<Row>, id: Id)
    requires rows != []
    ensures var after := Report(table, brand, marketplace, rows);
            if InScope(id, brand, marketplace) then id in after <==> Key(id.asin, id.sku) in Keys(rows)
            else Find(after, id) == Find(table, id)
  {
    ScanKeys(Loaded(table, brand, marketplace), rows);
    if InScope(id, brand, marketplace) {
      assert id == IdOf(brand, marketplace, Key(id.asin, id.sku));
    }
  }

  /** The listings of the brand and marketplace become exactly the report's; every other listing stays as it is. */
  lemma ReportKeys(table: Table, brand: int, marketplace: string, rows: seq<Row>, id: Id)
    requires rows != []
    ensures var after := Report(table, brand, marketplace, rows);
            && (id.brand == brand && id.marketplace == marketplace ==>
                  (id in after <==> exists i :: 0 <= i < |rows| && rows[i].asin == id.asin && rows[i].sku == id.sku))
            && (id.brand != brand || id.marketplace != marketplace ==>
                  (id in after <==> id in table) && (id in after ==> after[id] == table[id]))
  {
    ReportIds(table, brand, marketplace, rows, id);
    KeysAre(rows, Key(id.asin, id.sku));
  }

  /* ---------- What a listing becomes ---------- */

  lemma {:induction false} ScanIsFold(existing: map<Key, Listing>, rows: seq<Row>, key: Key)
    ensures Find(Scan(existing, rows), key) == Fold(Find(existing, key), RowsOf(rows, key))
  {
    if rows != [] {
      var n := |rows| - 1;
      ScanIsFold(existing, rows[..n], key);
      var mine := RowsOf(rows, key);
      if KeyOf(rows[n]) == key {
        assert mine[..|mine| - 1] == RowsOf(rows[..n], key);
      } else {
        assert mine == RowsOf(rows[..n], key);
      }
    }
  }

  /** The last value that is not blank, stripped; failing that, the default, stripped. */
  function LastText(values: seq<Option<string>>, default: string): string {
    if values == [] then Strip(default)
    else if !IsBlank(OrEmpty(values[|values| - 1])) then Strip(values[|values| - 1].value)
    else LastText(values[..|values| - 1], default)
  }

  function LastOptional(values: seq<Option<string>>, default: Option<string>): Option<string> {
    if values == [] then StripOptional(default)
    else if !IsBlank(OrEmpty(values[|values| - 1])) then Some(Strip(values[|values| - 1].value))
    else LastOptional(values[..|values| - 1], default)
  }

  function Names(rows: seq<Row>): seq<Option<string>> {
    seq(|rows|, i requires 0 <= i < |rows| => rows[i].name)
  }

  function Descriptions(rows: seq<Row>): seq<Option<string>> {
    seq(|rows|, i requires 0 <= i < |rows| => rows[i].description)
  }

  function Channels(rows: seq<Row>): seq<Option<string>> {
    seq(|rows|, i requires 0 <= i < |rows| => rows[i].channel)
  }

  const BLANK: Listing := Listing("", None, None)

  function Was(existing: Option<Listing>): Listing {
    if existing.None? then BLANK else existing.value
  }

  /** A listing up to surrounding white space, a blank optional field being none. */
  function Trimmed(listing: Listing): Listing {
    Listing(Strip(listing.name), StripOptional(listing.description), StripOptional(listing.channel))
  }

  function Latest(existing: Option<Listing>, rows: seq<Row>): Listing {
    Listing(LastText(Names(rows), Was(existing).name),
            LastOptional(Descriptions(rows), Was(existing).description),
            LastOptional(Channels(rows), Was(existing).channel))
  }

  lemma StripOptionalTwice(value: Option<string>)
    ensures StripOptional(StripOptional(value)) == StripOptional(value)
  {
    StripTwice(OrEmpty(value));
  }

  lemma TrimmedTwice(listing: Listing)
    ensures Trimmed(Trimmed(listing)) == Trimmed(listing)
  {
    StripTwice(listing.name);
    StripOptionalTwice(listing.description);
    StripOptionalTwice(listing.channel);
  }

  /** One more row: each field is the row's if that is not blank, else what it was. */
  lemma LatestAppend(existing: Option<Listing>, rows: seq<Row>)
    requires rows != []
    ensures var front, row := rows[..|rows| - 1], rows[|rows| - 1];
            var was := Latest(existing, front);
            Latest(existing, rows)
              == Listing(if StripOptional(row.name).Some? then StripOptional(row.name).value else was.name,
                         if StripOptional(row.description).Some? then StripOptional(row.description)
                         else was.description,
                         if StripOptional(row.channel).Some? then StripOptional(row.channel) else was.channel)
  {
    var n := |rows| - 1;
    var row := rows[n];
    assert Names(rows)[..n] == Names(rows[..n]);
    assert Descriptions(rows)[..n] == Descriptions(rows[..n]);
    assert Channels(rows)[..n] == Channels(rows[..n]);
    StripBlank(OrEmpty(row.name));
    StripBlank(OrEmpty(row.description));
    StripBlank(OrEmpty(row.channel));
  }

  /**
    Up to white space, every field is the last value reported for the key that is not blank, else the old one; exactly
    so, unless the listing is new and reported once.
   */
  lemma {:induction false} FoldIsLatest(existing: Option<Listing>, rows: seq<Row>)
    requires rows != []
    ensures Trimmed(Fold(existing, rows).value) == Latest(existing, rows)
    ensures existing.Some? || |rows| >= 2 ==> Fold(existing, rows).value == Latest(existing, rows)
  {
    var n := |rows| - 1;
    LatestAppend(existing, rows);
    if n > 0 {
      FoldIsLatest(existing, rows[..n]);
      MergeTrims(Fold(existing, rows[..n]).value, rows[n]);
    } else {
      assert rows[..n] == [];
      StripBlank("");
      if existing.Some? {
        MergeTrims(existing.value, rows[n]);
      } else {
        assert Names(rows)[..0] == [] && Descriptions(rows)[..0] == [] && Channels(rows)[..0] == [];
      }
    }
  }

  /** Merging leaves no white space around a field. */
  lemma MergeTrims(was: Listing, row: Row)
    ensures var merged := Upserted(Some(was), row);
            && Trimmed(merged) == merged
            && merged == Upserted(Some(Trimmed(was)), row)
  {
    TrimmedTwice(was);
    StripTwice(OrEmpty(row.name));
    StripOptionalTwice(row.description);
    StripOptionalTwice(row.channel);
  }

  /** The listing a report leaves under one of its keys. */
  lemma ReportListing(table: Table, brand: int, marketplace: string, rows: seq<Row>, key: Key)
    requires key in Keys(rows)
    ensures var id := IdOf(brand, marketplace, key);
            var after := Report(table, brand, marketplace, rows);
            var mine := RowsOf(rows, key);
            && id in after
            && Trimmed(after[id]) == Latest(Find(table, id), mine)
            && (id in table || |mine| >= 2 ==> after[id] == Latest(Find(table, id), mine))
  {
    RowsOfKnown(rows, key);
    ScanKeys(Loaded(table, brand, marketplace), rows);
    ScanIsFold(Loaded(table, brand, marketplace), rows, key);
    FoldIsLatest(Find(table, IdOf(brand, marketplace, key)), RowsOf(rows, key));
    LoadedFinds(table, brand, marketplace, key);
  }

  lemma LoadedFinds(table: Table, brand: int, marketplace: string, key: Key)
    ensures Find(Loaded(table, brand, marketplace), key) == Find(table, IdOf(brand, marketplace, key))
  {
    var id := IdOf(brand, marketplace, key);
    if id in table {
      assert InScope(id, brand, marketplace) && Key(id.asin, id.sku) == key;
    }
  }

  lemma {:induction false} RowsOfKnown(rows: seq<Row>, key: Key)
    ensures key in Keys(rows) <==> RowsOf(rows, key) != []
  {
    if rows != [] {
      var n := |rows| - 1;
      RowsOfKnown(rows[..n], key);
      KeysGrow(rows, n);
      assert rows[..n + 1] == rows;
    }
  }

  /* ---------- The same report again ---------- */

  lemma {:induction false} LastTextTwice(values: seq<Option<string>>, default: string)
    ensures LastText(values, LastText(values, default)) == LastText(values, default)
    ensures LastText(values, Strip(default)) == LastText(values, default)
  {
    StripTwice(default);
    if values != [] {
      LastTextTwice(values[..|values| - 1], default);
    }
  }

  lemma {:induction false} LastOptionalTwice(values: seq<Option<string>>, default: Option<string>)
    ensures LastOptional(values, LastOptional(values, default)) == LastOptional(values, default)
    ensures LastOptional(values, StripOptional(default)) == LastOptional(values, default)
  {
    StripOptionalTwice(default);
    if values != [] {
      LastOptionalTwice(values[..|values| - 1], default);
    }
  }

  /** Repeating a report changes no listing up to white space. */
  lemma ReportTwice(table: Table, brand: int, marketplace: string, rows: seq<Row>, id: Id)
    ensures var once := Report(table, brand, marketplace, rows);
            var twice := Report(once, brand, marketplace, rows);
            && (id in twice <==> id in once)
            && (id in once && !InScope(id, brand, marketplace) ==> twice[id] == once[id])
            && (id in once && InScope(id, brand, marketplace) && rows != [] ==> twice[id] == Trimmed(once[id]))
  {
    var once := Report(table, brand, marketplace, rows);
    if rows != [] {
      ReportIds(table, brand, marketplace, rows, id);
      ReportIds(once, brand, marketplace, rows, id);
      if InScope(id, brand, marketplace) && id in once {
        var key := Key(id.asin, id.sku);
        ReportListing(table, brand, marketplace, rows, key);
        ReportListing(once, brand, marketplace, rows, key);
        LatestTwice(Find(table, id), once[id], RowsOf(rows, key));
      }
    }
  }

  lemma LatestTwice(existing: Option<Listing>, once: Listing, rows: seq<Row>)
    requires Trimmed(once) == Latest(existing, rows)
    ensures Latest(Some(once), rows) == Latest(existing, rows)
  {
    LastTextTwice(Names(rows), once.name);
    LastTextTwice(Names(rows), Was(existing).name);
    LastOptionalTwice(Descriptions(rows), once.description);
    LastOptionalTwice(Descriptions(rows), Was(existing).description);
    LastOptionalTwice(Channels(rows), once.channel);
    LastOptionalTwice(Channels(rows), Was(existing).channel);
  }

  /** A third time it changes nothing at all. */
  lemma ReportThrice(table: Table, brand: int, marketplace: string, rows: seq<Row>)
    ensures var twice := Report(Report(table, brand, marketplace, rows), brand, marketplace, rows);
            Report(twice, brand, marketplace, rows) == twice
  {
    var once := Report(table, brand, marketplace, rows);
    var twice := Report(once, brand, marketplace, rows);
    var thrice := Report(twice, brand, marketplace, rows);
    forall id
      ensures Find(thrice, id) == Find(twice, id)
    {
      ReportTwice(table, brand, marketplace, rows, id);
      ReportTwice(once, brand, marketplace, rows, id);
      if id in once {
        TrimmedTwice(once[id]);
      }
    }
    SameTable(thrice, twice);
  }

  lemma SameTable(a: Table, b: Table)
    requires forall id :: Find(a, id) == Find(b, id)
    ensures a == b
  {
    assert forall id :: id in a <==> Find(a, id).Some?;
    assert forall id :: id in b <==> Find(b, id).Some?;
    assert forall id | id in a :: Find(a, id) == Some(a[id]) && Find(b, id) == Some(b[id]);
  }
}
