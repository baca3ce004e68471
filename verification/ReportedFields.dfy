/** What a report leaves of each listing, in terms of the report's own rows. */
module ReportedFields {
  import opened Text
  import opened Wrappers
  import opened Catalogue

  type Field = Row -> Option<string>

  ghost predicate About(row: Row, key: Key) {
    row.asin == key.asin && row.sku == key.sku
  }

  /** The row gives the field a value that is not blank. */
  ghost predicate Gives(row: Row, key: Key, field: Field) {
    About(row, key) && field(row).Some? && !IsBlank(field(row).value)
  }

  /** No later row of the key gives the field a value. */
  ghost predicate LastGiven(rows: seq<Row>, key: Key, field: Field, i: nat) {
    i < |rows| && Gives(rows[i], key, field) && forall j :: i < j < |rows| ==> !Gives(rows[j], key, field)
  }

  ghost predicate NeverGiven(rows: seq<Row>, key: Key, field: Field) {
    forall j :: 0 <= j < |rows| ==> !Gives(rows[j], key, field)
  }

  function Values(rows: seq<Row>, field: Field): seq<Option<string>> {
    seq(|rows|, i requires 0 <= i < |rows| => field(rows[i]))
  }

  /** The rows of a key without the last row of the report, and that row. */
  lemma LastValue(rows: seq<Row>, key: Key, field: Field)
    requires rows != []
    ensures var n := |rows| - 1;
            Values(RowsOf(rows, key), field)
              == Values(RowsOf(rows[..n], key), field) + if About(rows[n], key) then [field(rows[n])] else []
  {
  }

  lemma LastTextAppend(values: seq<Option<string>>, value: Option<string>, default: string)
    ensures LastText(values + [value], default)
         == if value.Some? && !IsBlank(value.value) then Strip(value.value) else LastText(values, default)
  {
    assert (values + [value])[..|values|] == values;
  }

  lemma LastOptionalAppend(values: seq<Option<string>>, value: Option<string>, default: Option<string>)
    ensures LastOptional(values + [value], default)
         == if value.Some? && !IsBlank(value.value) then Some(Strip(value.value)) else LastOptional(values, default)
  {
    assert (values + [value])[..|values|] == values;
  }

  lemma {:induction false} LastTextGiven(rows: seq<Row>, key: Key, field: Field, default: string, i: nat)
    ensures var last := LastText(Values(RowsOf(rows, key), field), default);
            && (NeverGiven(rows, key, field) ==> last == Strip(default))
            && (LastGiven(rows, key, field, i) ==> last == Strip(field(rows[i]).value))
  {
    if rows != [] {
      var n := |rows| - 1;
      LastTextGiven(rows[..n], key, field, default, i);
      LastValue(rows, key, field);
      LastTextAppend(Values(RowsOf(rows[..n], key), field), field(rows[n]), default);
      assert Values(RowsOf(rows[..n], key), field) + [] == Values(RowsOf(rows[..n], key), field);
    }
  }

  lemma {:induction false} LastOptionalGiven(rows: seq<Row>, key: Key, field: Field, default: Option<string>, i: nat)
    ensures var last := LastOptional(Values(RowsOf(rows, key), field), default);
            && (NeverGiven(rows, key, field) ==> last == StripOptional(default))
            && (LastGiven(rows, key, field, i) ==> last == Some(Strip(field(rows[i]).value)))
  {
    if rows != [] {
      var n := |rows| - 1;
      LastOptionalGiven(rows[..n], key, field, default, i);
      LastValue(rows, key, field);
      LastOptionalAppend(Values(RowsOf(rows[..n], key), field), field(rows[n]), default);
      assert Values(RowsOf(rows[..n], key), field) + [] == Values(RowsOf(rows[..n], key), field);
    }
  }

  const NAME: Field := (row: Row) => row.name
  const DESCRIPTION: Field := (row: Row) => row.description
  const CHANNEL: Field := (row: Row) => row.channel

  lemma LatestOf(existing: Option<Listing>, rows: seq<Row>)
    ensures Latest(existing, rows)
         == Listing(LastText(Values(rows, NAME), Was(existing).name),
                    LastOptional(Values(rows, DESCRIPTION), Was(existing).description),
                    LastOptional(Values(rows, CHANNEL), Was(existing).channel))
  {
    assert Names(rows) == Values(rows, NAME);
    assert Descriptions(rows) == Values(rows, DESCRIPTION);
    assert Channels(rows) == Values(rows, CHANNEL);
  }

  /**
    The name under a reported key, up to white space: that of the last row of its asin and sku that names it, else the
    old one, or none for a new listing.
   */
  lemma ReportedName(table: Table, brand: int, marketplace: string, rows: seq<Row>, key: Key, i: nat)
    requires exists k :: 0 <= k < |rows| && About(rows[k], key)
    ensures var id := Id(brand, marketplace, key.asin, key.sku);
            var after := Report(table, brand, marketplace, rows);
            && id in after
            && (LastGiven(rows, key, NAME, i) ==> Strip(after[id].name) == Strip(rows[i].name.value))
            && (NeverGiven(rows, key, NAME) ==>
                  Strip(after[id].name) == if id in table then Strip(table[id].name) else "")
  {
    KeysAre(rows, key);
    ReportListing(table, brand, marketplace, rows, key);
    LatestOf(Find(table, Id(brand, marketplace, key.asin, key.sku)), RowsOf(rows, key));
    LastTextGiven(rows, key, NAME, Was(Find(table, Id(brand, marketplace, key.asin, key.sku))).name, i);
  }

  /** An optional field without the white space around it; blank means none. */
  function Bare(value: Option<string>): Option<string> {
    if value.None? || IsBlank(value.value) then None else Some(Strip(value.value))
  }

  lemma BareIs(value: Option<string>)
    ensures StripOptional(value) == Bare(value)
  {
    StripBlank(if value.None? then "" else value.value);
  }

  /** The same for the description and the channel. */
  lemma ReportedOptional(table: Table, brand: int, marketplace: string, rows: seq<Row>, key: Key, i: nat)
    requires exists k :: 0 <= k < |rows| && About(rows[k], key)
    ensures var id := Id(brand, marketplace, key.asin, key.sku);
            var after := Report(table, brand, marketplace, rows);
            && id in after
            && (LastGiven(rows, key, DESCRIPTION, i) ==>
                  Bare(after[id].description) == Some(Strip(rows[i].description.value)))
            && (NeverGiven(rows, key, DESCRIPTION) ==>
                  Bare(after[id].description) == if id in table then Bare(table[id].description) else None)
            && (LastGiven(rows, key, CHANNEL, i) ==> Bare(after[id].channel) == Some(Strip(rows[i].channel.value)))
            && (NeverGiven(rows, key, CHANNEL) ==>
                  Bare(after[id].channel) == if id in table then Bare(table[id].channel) else None)
  {
    var id := Id(brand, marketplace, key.asin, key.sku);
    var existing, after := Find(table, id), Report(table, brand, marketplace, rows);
    KeysAre(rows, key);
    ReportListing(table, brand, marketplace, rows, key);
    LatestOf(existing, RowsOf(rows, key));
    LastOptionalGiven(rows, key, DESCRIPTION, Was(existing).description, i);
    LastOptionalGiven(rows, key, CHANNEL, Was(existing).channel, i);
    BareIs(after[id].description);
    BareIs(after[id].channel);
    BareIs(Was(existing).description);
    BareIs(Was(existing).channel);
  }

  lemma {:induction false} OnlyRow(rows: seq<Row>, key: Key, i: nat)
    requires i < |rows| && About(rows[i], key)
    requires forall j :: 0 <= j < |rows| && j != i ==> !About(rows[j], key)
    ensures RowsOf(rows, key) == [rows[i]]
  {
    var n := |rows| - 1;
    if i == n {
      NoRow(rows[..n], key);
    } else {
      OnlyRow(rows[..n], key, i);
    }
  }

  lemma {:induction false} NoRow(rows: seq<Row>, key: Key)
    requires forall j :: 0 <= j < |rows| ==> !About(rows[j], key)
    ensures RowsOf(rows, key) == []
  {
    if rows != [] {
      NoRow(rows[..|rows| - 1], key);
    }
  }

  /** A new listing that is reported once is stored as it was reported, white space and blanks included. */
  lemma ReportedOnce(table: Table, brand: int, marketplace: string, rows: seq<Row>, i: nat)
    requires i < |rows| && Id(brand, marketplace, rows[i].asin, rows[i].sku) !in table
    requires forall j :: 0 <= j < |rows| && j != i ==> rows[j].asin != rows[i].asin || rows[j].sku != rows[i].sku
    ensures var after, id := Report(table, brand, marketplace, rows), Id(brand, marketplace, rows[i].asin, rows[i].sku);
            && id in after
            && after[id]
                 == Listing(if rows[i].name.None? then "" else rows[i].name.value, rows[i].description, rows[i].channel)
  {
    var key := Key(rows[i].asin, rows[i].sku);
    OnlyRow(rows, key, i);
    ReportedRows(table, brand, marketplace, rows, key);
  }

  lemma ReportedRows(table: Table, brand: int, marketplace: string, rows: seq<Row>, key: Key)
    requires RowsOf(rows, key) != []
    ensures var after, id := Report(table, brand, marketplace, rows), Id(brand, marketplace, key.asin, key.sku);
            id in after && after[id] == Fold(Find(table, id), RowsOf(rows, key)).value
  {
    RowsOfKnown(rows, key);
    ScanKeys(Loaded(table, brand, marketplace), rows);
    ScanIsFold(Loaded(table, brand, marketplace), rows, key);
    LoadedFinds(table, brand, marketplace, key);
  }
}
