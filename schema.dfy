/**
 * The column lists the two traits give the Blueprint when they create the
 * model's table, and the classification of the table-creation error that is
 * swallowed as a benign race.
 */
module Schema {
  import opened Wrappers
  import opened Data
  import opened Strings
  import opened ColumnTypes

  /** `$table->id()`, a column method named by type, or one of `$table->timestamps()`. */
  datatype ColumnKind = Identity | Typed(typeName: string) | Timestamp

  datatype Column = Column(name: string, kind: ColumnKind, nullable: bool)

  const IdColumn: Column := Column("id", Identity, false)

  const TimestampColumns: seq<Column> :=
    [Column("created_at", Timestamp, true), Column("updated_at", Timestamp, true)]

  function Names(cols: seq<Column>): seq<string> {
    seq(|cols|, i requires 0 <= i < |cols| => cols[i].name)
  }

  lemma NamesAppend(a: seq<Column>, b: seq<Column>)
    ensures Names(a + b) == Names(a) + Names(b)
  {
    var whole := Names(a + b);
    var parts := Names(a) + Names(b);
    forall i | 0 <= i < |whole|
      ensures whole[i] == parts[i]
    {
      if i < |a| {
        assert (a + b)[i] == a[i];
      } else {
        assert (a + b)[i] == b[i - |a|];
      }
    }
  }

  /** PHP 8's loose `in_array($v, ['id', 'created_at', 'updated_at'])`: a reserved name, or `true`. */
  predicate LooselyReserved(v: Value) {
    (v.JString? && v.s in Reserved) || v == JBool(true)
  }

  /** The two filters of createRemoteModelTable: neither the key nor the value is a reserved name. */
  predicate KeepEntry(e: Entry) {
    e.key !in Reserved && !LooselyReserved(e.value)
  }

  /** The schema entries that become columns of their own, in order. */
  function Kept(schema: Record): (r: Record)
    ensures forall i :: 0 <= i < |r| ==> KeepEntry(r[i])
    ensures forall e :: e in r ==> e in schema
    ensures forall e :: e in schema && KeepEntry(e) ==> e in r
  {
    if schema == [] then []
    else (if KeepEntry(schema[0]) then [schema[0]] else []) + Kept(schema[1..])
  }

  /** The filters keep the schema's order: filtering a concatenation concatenates the filtered parts. */
  lemma {:induction false} KeptAppend(a: Record, b: Record)
    ensures Kept(a + b) == Kept(a) + Kept(b)
  {
    if a == [] {
      assert a + b == b;
    } else {
      assert (a + b)[0] == a[0] && (a + b)[1..] == a[1..] + b;
      KeptAppend(a[1..], b);
    }
  }

  /**
   * The nullable column one kept entry becomes: its type inferred from the
   * sample value when the model declares no schema, else the declared type
   * name (a declared type that is not a string names no Blueprint method).
   */
  function ManagedColumn(e: Entry, inferTypes: bool, p: Parsers): Result<Column, Error> {
    if inferTypes then Ok(Column(e.key, Typed(TypeName(ResolveColumnType(e.value, p))), true))
    else if e.value.JString? then Ok(Column(e.key, Typed(e.value.s), true))
    else Err(UnknownColumnType(e.value))
  }

  /** The foreach of createRemoteModelTable over the kept entries; the first failing entry aborts it. */
  function ManagedBodyColumns(entries: Record, inferTypes: bool, p: Parsers): (r: Result<seq<Column>, Error>)
    ensures r.Ok? <==> forall i :: 0 <= i < |entries| ==> ManagedColumn(entries[i], inferTypes, p).Ok?
    ensures r.Err? ==> r.error.UnknownColumnType?
    ensures r.Ok? ==> |r.value| == |entries|
    ensures r.Ok? ==> forall i :: 0 <= i < |entries| ==> ManagedColumn(entries[i], inferTypes, p) == Ok(r.value[i])
  {
    if entries == [] then Ok([])
    else match ManagedColumn(entries[0], inferTypes, p)
      case Err(e) => Err(e)
      case Ok(c) =>
        match ManagedBodyColumns(entries[1..], inferTypes, p)
        case Err(e) => Err(e)
        case Ok(cs) => Ok([c] + cs)
  }

  /** The foreach stops at the first entry whose column cannot be made, with that entry's exception. */
  lemma {:induction false} ManagedBodyColumnsFirstError(entries: Record, inferTypes: bool, p: Parsers, i: nat)
    requires i < |entries| && ManagedColumn(entries[i], inferTypes, p).Err?
    requires forall j :: 0 <= j < i ==> ManagedColumn(entries[j], inferTypes, p).Ok?
    ensures ManagedBodyColumns(entries, inferTypes, p) == Err(ManagedColumn(entries[i], inferTypes, p).error)
  {
    if i > 0 {
      ManagedBodyColumnsFirstError(entries[1..], inferTypes, p, i - 1);
    }
  }

  /**
   * The columns createRemoteModelTable creates from `schema` (the declared
   * schema, or what the schema callback made of it): none when it is empty,
   * else `id`, one nullable column per kept entry, then the timestamps.
   * Types are inferred only when the declared schema is empty.
   */
  function ManagedTableColumns(schema: Record, declared: Record, p: Parsers): Result<seq<Column>, Error> {
    if |schema| == 0 then Err(NoData(ManagedNoDataMessage))
    else match ManagedBodyColumns(Kept(schema), |declared| == 0, p)
      case Err(e) => Err(e)
      case Ok(body) => Ok([IdColumn] + body + TimestampColumns)
  }

  /** An empty schema, and nothing else, raises the "No data returned" exception; without a declared schema nothing else can fail. */
  lemma ManagedNoDataIffEmpty(schema: Record, declared: Record, p: Parsers)
    ensures (ManagedTableColumns(schema, declared, p) == Err(NoData(ManagedNoDataMessage))) <==> |schema| == 0
    ensures |schema| > 0 && |declared| == 0 ==> ManagedTableColumns(schema, declared, p).Ok?
  {
    var kept := Kept(schema);
    if |schema| > 0 && |declared| == 0 {
      forall i | 0 <= i < |kept| ensures ManagedColumn(kept[i], true, p).Ok? { }
    }
  }

  /** A table that can be made is `id`, the body columns of the kept entries, then the timestamps. */
  lemma ManagedColumnsUnfold(schema: Record, declared: Record, p: Parsers)
    requires ManagedTableColumns(schema, declared, p).Ok?
    ensures ManagedBodyColumns(Kept(schema), |declared| == 0, p).Ok?
    ensures ManagedTableColumns(schema, declared, p).value
      == [IdColumn] + ManagedBodyColumns(Kept(schema), |declared| == 0, p).value + TimestampColumns
  {
  }

  /** Each body column is named after its entry and nullable. */
  lemma BodyColumnsNamed(entries: Record, inferTypes: bool, p: Parsers)
    requires ManagedBodyColumns(entries, inferTypes, p).Ok?
    ensures var body := ManagedBodyColumns(entries, inferTypes, p).value;
      && Names(body) == Keys(entries)
      && forall i :: 0 <= i < |body| ==> body[i].nullable && body[i].name == entries[i].key
  {
    var body := ManagedBodyColumns(entries, inferTypes, p).value;
    forall i | 0 <= i < |body|
      ensures body[i].nullable && body[i].name == entries[i].key
    {
      assert ManagedColumn(entries[i], inferTypes, p) == Ok(body[i]);
    }
  }

  /** Shape of the managed table: reserved columns only at the ends, every other one nullable and from the schema. */
  lemma ManagedTableColumnsShape(schema: Record, declared: Record, p: Parsers)
    requires ManagedTableColumns(schema, declared, p).Ok?
    ensures var cols := ManagedTableColumns(schema, declared, p).value;
      && Names(cols) == ["id"] + Keys(Kept(schema)) + ["created_at", "updated_at"]
      && cols[0] == IdColumn && cols[|cols| - 2..] == TimestampColumns
      && forall i :: 0 < i < |cols| - 2 ==> cols[i].nullable && cols[i].name !in Reserved
  {
    var kept := Kept(schema);
    ManagedColumnsUnfold(schema, declared, p);
    BodyColumnsNamed(kept, |declared| == 0, p);
    var body := ManagedBodyColumns(kept, |declared| == 0, p).value;
    var cols := [IdColumn] + body + TimestampColumns;
    forall i | 0 < i < |cols| - 2
      ensures cols[i].nullable && cols[i].name !in Reserved
    {
      assert cols[i] == body[i - 1];
      assert KeepEntry(kept[i - 1]);
    }
    NamesAppend([IdColumn], body);
    NamesAppend([IdColumn] + body, TimestampColumns);
    assert Names([IdColumn]) == ["id"];
    assert Names(TimestampColumns) == ["created_at", "updated_at"];
  }

  /** Column types: inferred from the sample value without a declared schema, the declared name with one. */
  lemma ManagedColumnTypes(schema: Record, declared: Record, p: Parsers, i: nat)
    requires ManagedTableColumns(schema, declared, p).Ok? && i < |Kept(schema)|
    ensures |ManagedTableColumns(schema, declared, p).value| == |Kept(schema)| + 3
    ensures |declared| == 0 ==>
      ManagedTableColumns(schema, declared, p).value[i + 1].kind == Typed(TypeName(ResolveColumnType(Kept(schema)[i].value, p)))
    ensures |declared| > 0 ==>
      Kept(schema)[i].value == JString(ManagedTableColumns(schema, declared, p).value[i + 1].kind.typeName)
  {
    var kept := Kept(schema);
    ManagedColumnsUnfold(schema, declared, p);
    var body := ManagedBodyColumns(kept, |declared| == 0, p).value;
    assert ManagedTableColumns(schema, declared, p).value[i + 1] == body[i];
    assert ManagedColumn(kept[i], |declared| == 0, p) == Ok(body[i]);
  }

  /** A declared schema with a type for the non-reserved key "name" yields exactly id, name, timestamps. */
  lemma DeclaredSchemaColumns(p: Parsers)
    ensures ManagedTableColumns([Entry("name", JString("string"))], [Entry("name", JString("string"))], p)
      == Ok([IdColumn, Column("name", Typed("string"), true)] + TimestampColumns)
  {
    var schema := [Entry("name", JString("string"))];
    assert "name" !in Reserved by {
      assert "name"[0] != "id"[0] && "name"[0] != "created_at"[0] && "name"[0] != "updated_at"[0];
    }
    assert "string" !in Reserved by {
      assert "string"[0] != "id"[0] && "string"[0] != "created_at"[0] && "string"[0] != "updated_at"[0];
    }
    assert KeepEntry(schema[0]);
    assert schema[1..] == [];
    assert Kept(schema) == schema by {
      assert Kept(schema[1..]) == [];
    }
    var c := Column("name", Typed("string"), true);
    assert ManagedBodyColumns(schema[1..], false, p) == Ok([]);
    assert ManagedColumn(schema[0], false, p) == Ok(c);
    assert [c] + [] == [c];
    assert ManagedBodyColumns(schema, false, p) == Ok([c]);
    assert [IdColumn] + [c] + TimestampColumns == [IdColumn, c] + TimestampColumns;
    assert ManagedTableColumns(schema, schema, p) == Ok([IdColumn] + [c] + TimestampColumns);
  }

  /** array_keys of the sample record: `data[0]` of an envelope, else the first element of a bare list. */
  function SampleKeys(response: Response): seq<string> {
    match response
    case Paginated(data, _, _, _) => if |data| > 0 then Keys(data[0]) else []
    case Bare(rows) => if |rows| > 0 then Keys(rows[0]) else []
    case Failed => []
  }

  function WithoutReserved(keys: seq<string>): (r: seq<string>)
    ensures forall i :: 0 <= i < |r| ==> r[i] !in Reserved
    ensures forall k :: k in r <==> k in keys && k !in Reserved
  {
    if keys == [] then []
    else (if keys[0] in Reserved then [] else [keys[0]]) + WithoutReserved(keys[1..])
  }

  /** The filter keeps the sampled keys' order: filtering a concatenation concatenates the filtered parts. */
  lemma {:induction false} WithoutReservedAppend(a: seq<string>, b: seq<string>)
    ensures WithoutReserved(a + b) == WithoutReserved(a) + WithoutReserved(b)
  {
    if a == [] {
      assert a + b == b;
    } else {
      assert (a + b)[0] == a[0] && (a + b)[1..] == a[1..] + b;
      WithoutReservedAppend(a[1..], b);
    }
  }

  /**
   * The columns migrate creates in the older trait. array_keys yields integer
   * indices, so the `gettype($type) === 'integer'` branch is always taken and
   * every sampled column is a nullable string.
   */
  function LegacyTableColumns(keys: seq<string>): Result<seq<Column>, Error> {
    if |keys| == 0 then Err(NoData(LegacyNoDataMessage))
    else
      var kept := WithoutReserved(keys);
      Ok([IdColumn] + seq(|kept|, i requires 0 <= i < |kept| => Column(kept[i], Typed("string"), true)) + TimestampColumns)
  }

  /** The older trait's table: `id`, every non-reserved sample key as a nullable string, the timestamps. */
  lemma LegacyColumnsAreStrings(keys: seq<string>)
    ensures LegacyTableColumns(keys).Err? <==> |keys| == 0
    ensures LegacyTableColumns(keys).Ok? ==>
      var cols := LegacyTableColumns(keys).value;
      && Names(cols) == ["id"] + WithoutReserved(keys) + ["created_at", "updated_at"]
      && cols[0] == IdColumn && cols[|cols| - 2..] == TimestampColumns
      && forall i :: 0 < i < |cols| - 2 ==> cols[i].kind == Typed("string") && cols[i].nullable
  {
  }

  const AlreadyExistsText: string := "already exists"

  /** The text of the first needle, "already exists (SQL: create table". */
  const RaceNeedle: string := AlreadyExistsText + " (SQL: create table"

  /** The text of the second needle, `table "<table>" already exists`. */
  function ExistingTableNeedle(table: string): string {
    "table \"" + table + "\" " + AlreadyExistsText
  }

  /** The QueryException messages createRemoteModelTable and migrate swallow as a benign race. */
  predicate AlreadyExists(message: string, table: string) {
    Contains(message, RaceNeedle) || Contains(message, ExistingTableNeedle(table))
  }

  lemma {:induction false} OccursInSuffix(s: string, k: nat, needle: string)
    requires k <= |s| && Occurs(s[k..], needle)
    ensures Occurs(s, needle)
  {
    if k > 0 {
      assert s[1..][k - 1..] == s[k..];
      OccursInSuffix(s[1..], k - 1, needle);
    }
  }

  lemma {:induction false} OccursInfix(s: string, a: string, b: string, c: string)
    requires Occurs(s, a + b + c)
    ensures Occurs(s, b)
  {
    if a + b + c <= s {
      assert b <= s[|a|..];
      OccursInSuffix(s, |a|, b);
    } else {
      OccursInfix(s[1..], a, b, c);
      OccursInSuffix(s, 1, b);
    }
  }

  lemma {:induction false} OccursAfterPrefix(prefix: string, needle: string, suffix: string)
    ensures Occurs(prefix + needle + suffix, needle)
  {
    if prefix != [] {
      assert (prefix + needle + suffix)[1..] == prefix[1..] + needle + suffix;
      OccursAfterPrefix(prefix[1..], needle, suffix);
    }
  }

  /** Only a message that says "already exists" is swallowed; every other QueryException is rethrown. */
  lemma SwallowedOnlyIfAlreadyExists(message: string, table: string)
    requires AlreadyExists(message, table)
    ensures Occurs(message, AlreadyExistsText)
  {
    if Contains(message, RaceNeedle) {
      assert RaceNeedle == [] + AlreadyExistsText + " (SQL: create table";
      OccursInfix(message, [], AlreadyExistsText, " (SQL: create table");
    } else {
      assert ExistingTableNeedle(table) == "table \"" + table + "\" " + AlreadyExistsText + [];
      OccursInfix(message, "table \"" + table + "\" ", AlreadyExistsText, []);
    }
  }

  /** SQLite's error for an existing table, wherever it stands in the message, is swallowed. */
  lemma ExistingTableMessageSwallowed(prefix: string, table: string, suffix: string)
    ensures AlreadyExists(prefix + ExistingTableNeedle(table) + suffix, table)
  {
    OccursAfterPrefix(prefix, ExistingTableNeedle(table), suffix);
  }
}
