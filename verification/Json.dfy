/** JSON documents as cJSON builds and prints them without white space: an ordered tree and the
    length of its printed form.  Strings are held as they print; escaping is not modelled. */
module Json {
  import opened Options
  import opened Text

  datatype Json =
    | Null
    | Bool(b: bool)
    | Number(n: int)
    | Decimals(text: string, whole: int)   // a fraction: the text it prints as, and its integer part
    | Str(s: string)
    | Array(items: seq<Json>)
    | Object(fields: seq<Field>)

  datatype Field = Field(name: string, value: Json)

  function NumberWidth(n: int): nat {
    if n < 0 then 1 + |Decimal(-n)| else |Decimal(n)|
  }

  function Width(j: Json): nat
    decreases j
  {
    match j
    case Null => 4
    case Bool(b) => if b then 4 else 5
    case Number(n) => NumberWidth(n)
    case Decimals(text, _) => |text|
    case Str(s) => |s| + 2
    case Array(items) => 2 + ItemsWidth(items) + Commas(|items|)
    case Object(fields) => 2 + FieldsWidth(fields) + Commas(|fields|)
  }

  /** The width of the items alone, without the commas between them. */
  function ItemsWidth(items: seq<Json>): nat
    decreases items
  {
    if items == [] then 0 else Width(items[0]) + ItemsWidth(items[1..])
  }

  function FieldsWidth(fields: seq<Field>): nat
    decreases fields
  {
    if fields == [] then 0 else FieldWidth(fields[0]) + FieldsWidth(fields[1..])
  }

  /** The name, its quotes, the colon and the value. */
  function FieldWidth(f: Field): nat
    decreases f
  {
    |f.name| + 3 + Width(f.value)
  }

  /** The commas between `n` entries. */
  function Commas(n: nat): nat {
    if n == 0 then 0 else n - 1
  }

  lemma {:induction false} ItemsWidthConcat(a: seq<Json>, b: seq<Json>)
    ensures ItemsWidth(a + b) == ItemsWidth(a) + ItemsWidth(b)
    decreases |a|
  {
    hide Width;
    if a == [] {
      assert a + b == b;
    } else {
      assert (a + b)[1..] == a[1..] + b;
      ItemsWidthConcat(a[1..], b);
    }
  }

  lemma {:induction false} FieldsWidthConcat(a: seq<Field>, b: seq<Field>)
    ensures FieldsWidth(a + b) == FieldsWidth(a) + FieldsWidth(b)
    decreases |a|
  {
    hide FieldWidth;
    if a == [] {
      assert a + b == b;
    } else {
      assert (a + b)[1..] == a[1..] + b;
      FieldsWidthConcat(a[1..], b);
    }
  }

  lemma FieldsWidthOne(f: Field)
    ensures FieldsWidth([f]) == FieldWidth(f)
  {
    hide FieldWidth;
    assert [f][1..] == [];
  }

  /** Adding a field to an object that has fields prints a comma, the name and the value. */
  lemma ObjectGrows(fields: seq<Field>, f: Field)
    requires fields != []
    ensures Width(Object(fields + [f])) == Width(Object(fields)) + 1 + FieldWidth(f)
  {
    FieldsWidthConcat(fields, [f]);
    FieldsWidthOne(f);
    hide FieldWidth, FieldsWidth;
  }

  // ----- Printing -----

  function PrintNumber(n: int): string {
    if n < 0 then "-" + Decimal(-n) else Decimal(n)
  }

  /** cJSON_PrintPreallocated without format. */
  function Print(j: Json): string
    decreases j
  {
    match j
    case Null => "null"
    case Bool(b) => if b then "true" else "false"
    case Number(n) => PrintNumber(n)
    case Decimals(text, _) => text
    case Str(s) => "\"" + s + "\""
    case Array(items) => "[" + PrintItems(items) + "]"
    case Object(fields) => "{" + PrintFields(fields) + "}"
  }

  function PrintItems(items: seq<Json>): string
    decreases items
  {
    if items == [] then ""
    else Print(items[0]) + if |items| == 1 then "" else "," + PrintItems(items[1..])
  }

  function PrintFields(fields: seq<Field>): string
    decreases fields
  {
    if fields == [] then ""
    else "\"" + fields[0].name + "\":" + Print(fields[0].value)
         + if |fields| == 1 then "" else "," + PrintFields(fields[1..])
  }

  /** The widths charged to a budget are the lengths printed. */
  lemma {:induction false} PrintedLength(j: Json)
    ensures |Print(j)| == Width(j)
    decreases j, 0
  {
    hide Decimal;
    match j {
      case Array(items) => PrintedItems(items);
      case Object(fields) => PrintedFields(fields);
      case _ =>
    }
  }

  lemma {:induction false} PrintedItems(items: seq<Json>)
    ensures |PrintItems(items)| == ItemsWidth(items) + Commas(|items|)
    decreases items, 1
  {
    hide Print, Width;
    if items != [] {
      PrintedLength(items[0]);
      PrintedItems(items[1..]);
    }
  }

  lemma {:induction false} PrintedFields(fields: seq<Field>)
    ensures |PrintFields(fields)| == FieldsWidth(fields) + Commas(|fields|)
    decreases fields, 1
  {
    hide Print, Width;
    if fields != [] {
      PrintedLength(fields[0].value);
      PrintedFields(fields[1..]);
    }
  }

  // ----- Looking up -----

  /** The value of the first field with just this name. */
  function LookUp(fields: seq<Field>, name: string): Option<Json> {
    if fields == [] then None
    else if fields[0].name == name then Some(fields[0].value)
    else LookUp(fields[1..], name)
  }

  /** The member of an object that may be absent. */
  function Under(j: Option<Json>, name: string): Option<Json> {
    if j.Some? && j.value.Object? then LookUp(j.value.fields, name) else None
  }

  lemma {:induction false} LookUpConcat(a: seq<Field>, b: seq<Field>, name: string)
    ensures LookUp(a + b, name) == if LookUp(a, name).Some? then LookUp(a, name) else LookUp(b, name)
    decreases |a|
  {
    if a == [] {
      assert a + b == b;
    } else {
      assert (a + b)[1..] == a[1..] + b;
      LookUpConcat(a[1..], b, name);
    }
  }

  lemma {:induction false} LookUpAt(fields: seq<Field>, name: string, k: nat)
    requires k < |fields| && fields[k].name == name && forall i :: 0 <= i < k ==> fields[i].name != name
    ensures LookUp(fields, name) == Some(fields[k].value)
    decreases k
  {
    if k > 0 {
      LookUpAt(fields[1..], name, k - 1);
    }
  }

  lemma {:induction false} NotThere(fields: seq<Field>, name: string)
    requires forall i :: 0 <= i < |fields| ==> fields[i].name != name
    ensures LookUp(fields, name) == None
    decreases |fields|
  {
    if fields != [] {
      NotThere(fields[1..], name);
    }
  }

  lemma LookUpOne(f: Field, name: string)
    ensures LookUp([f], name) == if f.name == name then Some(f.value) else None
    ensures LookUp([], name) == None
  {
    assert [f][1..] == [];
  }

  /** cJSON_AddXToObject and friends on one object under construction. */
  class Node {
    var fields: seq<Field>

    constructor (fields: seq<Field>)
      ensures this.fields == fields
    {
      this.fields := fields;
    }

    method Add(name: string, value: Json)
      modifies this
      ensures fields == old(fields) + [Field(name, value)]
    {
      fields := fields + [Field(name, value)];
    }

    /** Appends to the array that was added last. */
    method AddItem(item: Json, ghost before: seq<Field>, ghost name: string, ghost items: seq<Json>)
      requires fields == before + [Field(name, Array(items))]
      modifies this
      ensures fields == before + [Field(name, Array(items + [item]))]
    {
      var last := fields[|fields| - 1];
      fields := fields[..|fields| - 1] + [Field(last.name, Array(last.value.items + [item]))];
    }
  }
}
