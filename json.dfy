/** The structured document the chart is built from, with the accessors the
    `json` crate offers over it. Text parsing is not modelled: a document is
    already a tree of values. */
module Json {
  import opened Wrappers

  /** A document value. An object is an association list of its entries in
      document order; numbers carry an integer because the core never reads
      their value. */
  datatype JsonValue =
    | Null
    | Boolean(b: bool)
    | Number(n: int)
    | Str(s: string)
    | Array(items: seq<JsonValue>)
    | Object(entries: seq<Entry>)

  /** One `key: value` entry of an object. */
  datatype Entry = Entry(key: string, value: JsonValue)

  /** Number of values in a document: the measure that recursion over a
      document decreases. */
  function Size(v: JsonValue): (n: nat)
    ensures n >= 1
  {
    match v
    case Array(items) => 1 + SizeOfItems(items)
    case Object(entries) => 1 + SizeOfEntries(entries)
    case _ => 1
  }

  function SizeOfItems(items: seq<JsonValue>): nat
  {
    if |items| == 0 then 0
    else SizeOfItems(items[..|items| - 1]) + Size(items[|items| - 1])
  }

  function SizeOfEntries(entries: seq<Entry>): nat
  {
    if |entries| == 0 then 0
    else Size(entries[0].value) + SizeOfEntries(entries[1..])
  }

  /** An element of a list is no larger than the whole list. */
  lemma {:induction false} ItemSize(items: seq<JsonValue>, i: nat)
    requires i < |items|
    ensures Size(items[i]) <= SizeOfItems(items)
  {
    if i < |items| - 1 {
      ItemSize(items[..|items| - 1], i);
    }
  }

  /** `value[key]`: the value stored under `key` when `v` is an object that
      has that key, and `Null` otherwise (a missing key and a non-object both
      give `Null`, never a failure). */
  function Get(v: JsonValue, key: string): JsonValue
  {
    match v
    case Object(entries) => Lookup(entries, key)
    case _ => Null
  }

  /** The value of the first entry named `key`, or `Null`. */
  function Lookup(entries: seq<Entry>, key: string): JsonValue
  {
    if |entries| == 0 then Null
    else if entries[0].key == key then entries[0].value
    else Lookup(entries[1..], key)
  }

  /** The first entry named `key` decides the lookup. */
  lemma {:induction false} LookupFirst(entries: seq<Entry>, key: string, i: nat)
    requires i < |entries| && entries[i].key == key
    requires forall j :: 0 <= j < i ==> entries[j].key != key
    ensures Lookup(entries, key) == entries[i].value
    decreases i
  {
    if i > 0 {
      LookupFirst(entries[1..], key, i - 1);
    }
  }

  /** `as_str()`: the text of a string value. */
  function AsStr(v: JsonValue): (r: Option<string>)
    ensures r.Some? <==> v.Str?
  {
    if v.Str? then Some(v.s) else None
  }

  /** `as_bool()`: the truth value of a boolean value. */
  function AsBool(v: JsonValue): (r: Option<bool>)
    ensures r.Some? <==> v.Boolean?
  {
    if v.Boolean? then Some(v.b) else None
  }

  /** `members()`: the elements of an array in order; any other value has
      none. */
  function Members(v: JsonValue): seq<JsonValue>
  {
    if v.Array? then v.items else []
  }

  /** A value found by lookup is smaller than the entries it was found in. */
  lemma {:induction false} LookupSmaller(entries: seq<Entry>, key: string)
    ensures Lookup(entries, key) == Null || Size(Lookup(entries, key)) <= SizeOfEntries(entries)
  {
    if |entries| > 0 && entries[0].key != key {
      LookupSmaller(entries[1..], key);
    }
  }

  /** The members of a value are, together, smaller than the value. */
  lemma MembersSmaller(v: JsonValue)
    ensures SizeOfItems(Members(v)) < Size(v)
  {
  }

  /** A field of a value is smaller than the value. */
  lemma GetSmaller(v: JsonValue, key: string)
    ensures Get(v, key) == Null || Size(Get(v, key)) < Size(v)
  {
    if v.Object? {
      LookupSmaller(v.entries, key);
    }
  }

  /** The members of a field of a value are, together, smaller than the
      value: the measure by which recursion into sub-documents ends. */
  lemma FieldMembersSmaller(v: JsonValue, key: string)
    ensures SizeOfItems(Members(Get(v, key))) < Size(v)
  {
    GetSmaller(v, key);
    MembersSmaller(Get(v, key));
  }

  /** The `accounts` members of a chart document, in order: the top-level
      account documents that both charts read. */
  function RootDocuments(doc: JsonValue): seq<JsonValue>
  {
    Members(Get(doc, "accounts"))
  }

  /** The `subaccounts` members of an account document, in order: the child
      documents that both charts descend into. */
  function SubDocuments(v: JsonValue): seq<JsonValue>
  {
    Members(Get(v, "subaccounts"))
  }

  lemma SubDocumentsSmaller(v: JsonValue)
    ensures SizeOfItems(SubDocuments(v)) < Size(v)
  {
    FieldMembersSmaller(v, "subaccounts");
  }
}
