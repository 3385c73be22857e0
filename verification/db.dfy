/** The authoritative product table (src/services/db.js). The SQLite table is a
    map from id to row; the SQL driver, its Promise wrappers and the schema
    creation are not part of this model. */
module Db {
  import opened Wrappers
  import opened Models
  import Config

  /** URL prefixes `getDbPath` strips, longest first. */
  const AbsolutePrefix: string := "sqlite:////"
  const RelativePrefix: string := "sqlite:///"
  const BarePrefix: string := "sqlite://"

  /** Path used when the URL is empty. */
  const DefaultDbPath: string := "./data/products.db"

  /** `getDbPath`: the file path named by a `sqlite://` URL. Each branch removes the
      first occurrence of the prefix, which is the one at the start. */
  function GetDbPath(url: string): string {
    if AbsolutePrefix <= url then "/" + url[|AbsolutePrefix|..]
    else if RelativePrefix <= url then url[|RelativePrefix|..]
    else if BarePrefix <= url then url[|BarePrefix|..]
    else if url == "" then DefaultDbPath
    else url
  }

  /** Four slashes: an absolute path. */
  lemma GetDbPathAbsolute(p: string)
    ensures GetDbPath(AbsolutePrefix + p) == "/" + p
  {
  }

  /** Three slashes: the rest of the URL, whether or not it starts with a slash
      itself (then the four-slash branch yields the same path). */
  lemma GetDbPathRelative(p: string)
    ensures GetDbPath(RelativePrefix + p) == p
  {
    var url := RelativePrefix + p;
    assert url[..|RelativePrefix|] == RelativePrefix;
    if AbsolutePrefix <= url {
      assert url[|RelativePrefix|] == '/';
      assert p == "/" + url[|AbsolutePrefix|..];
    } else {
      assert url[|RelativePrefix|..] == p;
    }
  }

  /** Two slashes: the rest of the URL, except that a leading slash of the rest
      is taken by one of the longer prefixes and dropped. */
  lemma GetDbPathBare(p: string)
    ensures GetDbPath(BarePrefix + p) == if |p| > 0 && p[0] == '/' then p[1..] else p
  {
    var url := BarePrefix + p;
    assert url[..|BarePrefix|] == BarePrefix;
    if |p| > 0 && p[0] == '/' {
      assert url == RelativePrefix + p[1..];
      GetDbPathRelative(p[1..]);
    } else {
      if |p| > 0 {
        assert !(RelativePrefix <= url) by { assert url[|BarePrefix|] == p[0]; }
      }
      assert url[|BarePrefix|..] == p;
    }
  }

  /** A URL without any sqlite prefix is the path itself; an empty one falls back. */
  lemma GetDbPathPlain(url: string)
    requires !(BarePrefix <= url)
    ensures GetDbPath(url) == if url == "" then DefaultDbPath else url
  {
  }

  /** The default DATABASE_URL names ./data/products.db. */
  lemma DefaultDatabasePath()
    ensures GetDbPath(Config.DatabaseUrl(None)) == "./data/products.db"
  {
    assert Config.DatabaseUrl(None) == RelativePrefix + "./data/products.db";
    GetDbPathRelative("./data/products.db");
  }

  /** Every row is stored under its own id. */
  predicate KeyedById(rows: map<string, Product>) {
    forall k :: k in rows ==> rows[k].id == k
  }

  /** `{ id, ...payload }`: the record `createProduct` inserts and returns. */
  function WithId(id: string, payload: Payload): Product {
    Product(id, payload.name, payload.description, payload.price, payload.stockQuantity)
  }

  /** The reference meaning of a partial update: each supplied field replaces the
      stored one, every other field and the id stay. */
  function Patched(row: Product, patch: Body): Product {
    Product(row.id,
            patch.name.GetOr(row.name),
            patch.description.GetOr(row.description),
            patch.price.GetOr(row.price),
            patch.stockQuantity.GetOr(row.stockQuantity))
  }

  /** Columns an update may set, and the order `updateProduct` visits them. */
  datatype Column = Name | Description | Price | StockQuantity
  const Allowed: seq<Column> := [Name, Description, Price, StockQuantity]

  /** Position of a column in Allowed. */
  function Rank(c: Column): nat {
    match c
    case Name => 0
    case Description => 1
    case Price => 2
    case StockQuantity => 3
  }

  /** A value bound to a `?` placeholder. */
  datatype Value = Text(text: string) | Number(number: int)

  /** The value the update supplies for a column (`updates[key] !== undefined`). */
  function Supplied(patch: Body, c: Column): Option<Value> {
    match c
    case Name => if patch.name.Some? then Some(Text(patch.name.value)) else None
    case Description => if patch.description.Some? then Some(Text(patch.description.value)) else None
    case Price => if patch.price.Some? then Some(Number(patch.price.value)) else None
    case StockQuantity => if patch.stockQuantity.Some? then Some(Number(patch.stockQuantity.value)) else None
  }

  /** The loop of `updateProduct` that builds the SET clause: `fields` lists the
      supplied columns in Allowed order, `values` their values position by position. */
  method SetClause(patch: Body) returns (fields: seq<Column>, values: seq<Value>)
    ensures |fields| == |values|
    ensures forall c :: c in fields <==> Supplied(patch, c).Some?
    ensures forall j, k :: 0 <= j < k < |fields| ==> Rank(fields[j]) < Rank(fields[k])
    ensures forall j :: 0 <= j < |fields| ==> Supplied(patch, fields[j]) == Some(values[j])
  {
    fields, values := [], [];
    var i := 0;
    while i < |Allowed|
      invariant 0 <= i <= |Allowed|
      decreases |Allowed| - i
      invariant |fields| == |values|
      invariant forall c :: c in fields <==> Rank(c) < i && Supplied(patch, c).Some?
      invariant forall j, k :: 0 <= j < k < |fields| ==> Rank(fields[j]) < Rank(fields[k])
      invariant forall j :: 0 <= j < |fields| ==> Rank(fields[j]) < i
      invariant forall j :: 0 <= j < |fields| ==> Supplied(patch, fields[j]) == Some(values[j])
    {
      var key := Allowed[i];
      assert Rank(key) == i;
      match Supplied(patch, key) {
        case Some(v) =>
          fields := fields + [key];
          values := values + [v];
        case None =>
      }
      i := i + 1;
    }
  }

  /** The stored value of a column. */
  function ColumnValue(p: Product, c: Column): Value {
    match c
    case Name => Text(p.name)
    case Description => Text(p.description)
    case Price => Number(p.price)
    case StockQuantity => Number(p.stockQuantity)
  }

  /** One `column = ?` assignment of an UPDATE. A value of the wrong kind is
      never produced by SetClause. */
  function SetColumn(row: Product, c: Column, v: Value): Product {
    match c
    case Name => if v.Text? then row.(name := v.text) else row
    case Description => if v.Text? then row.(description := v.text) else row
    case Price => if v.Number? then row.(price := v.number) else row
    case StockQuantity => if v.Number? then row.(stockQuantity := v.number) else row
  }

  /** `UPDATE products SET f1 = ?, f2 = ?, ... WHERE id = ?` on the matched row. */
  function Assign(row: Product, fields: seq<Column>, values: seq<Value>): Product
    requires |fields| == |values|
    decreases |fields|
  {
    if fields == [] then row
    else Assign(SetColumn(row, fields[0], values[0]), fields[1..], values[1..])
  }

  /** Column by column, the UPDATE writes the supplied value of each listed column
      and keeps the rest and the id. */
  lemma {:induction false} AssignAt(row: Product, patch: Body, fields: seq<Column>, values: seq<Value>, c: Column)
    requires |fields| == |values|
    requires forall j :: 0 <= j < |fields| ==> Supplied(patch, fields[j]) == Some(values[j])
    ensures Assign(row, fields, values).id == row.id
    ensures c in fields ==> Supplied(patch, c) == Some(ColumnValue(Assign(row, fields, values), c))
    ensures c !in fields ==> ColumnValue(Assign(row, fields, values), c) == ColumnValue(row, c)
    decreases |fields|
  {
    if fields != [] {
      var next := SetColumn(row, fields[0], values[0]);
      assert forall j :: 0 <= j < |fields| - 1 ==> fields[1..][j] == fields[j + 1];
      AssignAt(next, patch, fields[1..], values[1..], c);
      if c !in fields[1..] {
        assert Assign(row, fields, values) == Assign(next, fields[1..], values[1..]);
        if c == fields[0] {
          assert Supplied(patch, c) == Some(values[0]);
          assert ColumnValue(next, c) == values[0];
        }
      }
    }
  }

  /** The UPDATE built from SetClause's output is exactly the reference partial update. */
  lemma AssignIsPatch(row: Product, patch: Body, fields: seq<Column>, values: seq<Value>)
    requires |fields| == |values|
    requires forall c :: c in fields <==> Supplied(patch, c).Some?
    requires forall j :: 0 <= j < |fields| ==> Supplied(patch, fields[j]) == Some(values[j])
    ensures Assign(row, fields, values) == Patched(row, patch)
  {
    var r := Assign(row, fields, values);
    AssignAt(row, patch, fields, values, Name);
    AssignAt(row, patch, fields, values, Description);
    AssignAt(row, patch, fields, values, Price);
    AssignAt(row, patch, fields, values, StockQuantity);
    assert ColumnValue(r, Name) == Text(r.name);
    assert ColumnValue(r, Description) == Text(r.description);
    assert ColumnValue(r, Price) == Number(r.price);
    assert ColumnValue(r, StockQuantity) == Number(r.stockQuantity);
  }

  /** Any patch the update schema accepts keeps every constraint the row and the patch satisfy. */
  lemma PatchedKeepsValidity(row: Product, patch: Body)
    requires ValidRecord(row) && ValidUpdate(patch)
    ensures ValidRecord(Patched(row, patch)) && Patched(row, patch).id == row.id
  {
  }

  /** Errors the table reports to its callers. */
  datatype StoreError = DuplicateId

  /** The three sample products `seedProductsIfEmpty` inserts, under the given ids. */
  function Samples(ids: seq<string>): (s: seq<Product>)
    requires |ids| == 3
    ensures |s| == 3 && forall i :: 0 <= i < 3 ==> s[i].id == ids[i] && ValidRecord(s[i])
  {
    [ Product(ids[0], "Wireless Mouse", "Ergonomic mouse with adjustable DPI.", 2499, 120),
      Product(ids[1], "Mechanical Keyboard", "RGB keyboard with blue switches.", 8999, 75),
      Product(ids[2], "USB-C Hub", "7-in-1 hub with HDMI and Ethernet.", 3999, 60) ]
  }

  /** The table after inserting the first n samples into an empty one. */
  function SampleTable(ids: seq<string>, n: nat): (t: map<string, Product>)
    requires |ids| == 3 && n <= 3
    ensures KeyedById(t)
    ensures forall k :: k in t <==> exists j :: 0 <= j < n && ids[j] == k
    ensures forall j :: 0 <= j < n && (forall i :: j < i < n ==> ids[i] != ids[j]) ==> t[ids[j]] == Samples(ids)[j]
  {
    if n == 0 then map[] else SampleTable(ids, n - 1)[ids[n - 1] := Samples(ids)[n - 1]]
  }

  /** No id occurs twice. */
  predicate Distinct(ids: seq<string>) {
    forall j, k :: 0 <= j < k < |ids| ==> ids[j] != ids[k]
  }

  /** The `products` table. */
  class Store {
    var rows: map<string, Product>

    ghost predicate Valid()
      reads this
    {
      KeyedById(rows)
    }

    /** An empty table. */
    constructor ()
      ensures Valid() && rows == map[]
    {
      rows := map[];
    }

    /** One INSERT: the primary key rejects an id already present. */
    method Insert(p: Product) returns (r: Result<Product, StoreError>)
      requires Valid()
      modifies this
      ensures Valid()
      ensures p.id in old(rows) ==> r == Failure(DuplicateId) && rows == old(rows)
      ensures p.id !in old(rows) ==> r == Success(p) && rows == old(rows)[p.id := p]
    {
      if p.id in rows {
        return Failure(DuplicateId);
      }
      rows := rows[p.id := p];
      return Success(p);
    }

    /** `createProduct`: insert the payload under the new id (a fresh uuid in
        the source) and return `{ id, ...payload }`. */
    method Create(id: string, payload: Payload) returns (r: Result<Product, StoreError>)
      requires Valid()
      modifies this
      ensures Valid()
      ensures id in old(rows) ==> r == Failure(DuplicateId) && rows == old(rows)
      ensures id !in old(rows) ==> r == Success(WithId(id, payload)) && rows == old(rows)[id := WithId(id, payload)]
    {
      var inserted := Insert(WithId(id, payload));
      if inserted.Failure? {
        return Failure(inserted.error);
      }
      return Success(WithId(id, payload));
    }

    /** `getProduct`: the stored row, or null for an unknown id. */
    method Get(id: string) returns (r: Option<Product>)
      ensures id in rows ==> r == Some(rows[id])
      ensures id !in rows ==> r == None
    {
      if id in rows {
        return Some(rows[id]);
      }
      return None;
    }

    /** `updateProduct`: null when the patch names no field or no row has the id;
        otherwise the supplied fields are written and the updated row returned. */
    method Update(id: string, patch: Body) returns (r: Option<Product>)
      requires Valid()
      modifies this
      ensures Valid()
      ensures NoFields(patch) || id !in old(rows) ==> r == None && rows == old(rows)
      ensures !NoFields(patch) && id in old(rows) ==>
                rows == old(rows)[id := Patched(old(rows)[id], patch)] && r == Some(rows[id])
    {
      var fields, values := SetClause(patch);
      if |fields| == 0 {
        assert forall c :: Supplied(patch, c).None?;
        assert Supplied(patch, Name).None? && Supplied(patch, Description).None?;
        assert Supplied(patch, Price).None? && Supplied(patch, StockQuantity).None?;
        return None;
      }
      assert !NoFields(patch) by {
        assert Supplied(patch, fields[0]).Some?;
      }
      var changes := 0;
      if id in rows {
        AssignIsPatch(rows[id], patch, fields, values);
        rows := rows[id := Assign(rows[id], fields, values)];
        changes := 1;
      }
      if changes == 0 {
        return None;
      }
      r := Get(id);
    }

    /** `deleteProduct`: remove the row; report whether one was removed. */
    method Delete(id: string) returns (deleted: bool)
      requires Valid()
      modifies this
      ensures Valid()
      ensures deleted <==> id in old(rows)
      ensures rows == old(rows) - {id}
    {
      deleted := id in rows;
      rows := rows - {id};
    }

    /** `seedProductsIfEmpty`: with seeding on and an empty table, insert the three
        samples one by one, outside any transaction; a failing insert aborts the
        remaining ones and keeps the samples inserted before it. */
    method SeedIfEmpty(seedData: bool, ids: seq<string>) returns (r: Result<(), StoreError>)
      requires Valid() && |ids| == 3
      modifies this
      ensures Valid()
      ensures !seedData || |old(rows)| > 0 ==> r.Success? && rows == old(rows)
      ensures seedData && |old(rows)| == 0 ==> (r.Success? <==> Distinct(ids))
      ensures seedData && |old(rows)| == 0 && Distinct(ids) ==> rows == SampleTable(ids, 3)
      ensures seedData && |old(rows)| == 0 && ids[0] == ids[1] ==> rows == SampleTable(ids, 1)
      ensures seedData && |old(rows)| == 0 && ids[0] != ids[1] && !Distinct(ids) ==> rows == SampleTable(ids, 2)
    {
      if !seedData {
        return Success(());
      }
      if |rows| > 0 {
        return Success(());
      }
      var samples := Samples(ids);
      var i := 0;
      while i < |samples|
        invariant 0 <= i <= 3
        invariant Valid()
        invariant rows == SampleTable(ids, i)
        invariant forall j, k :: 0 <= j < k < i ==> ids[j] != ids[k]
      {
        var inserted := Insert(samples[i]);
        if inserted.Failure? {
          assert !Distinct(ids) by {
            var j :| 0 <= j < i && ids[j] == ids[i];
          }
          return Failure(inserted.error);
        }
        i := i + 1;
      }
      return Success(());
    }
  }
}
