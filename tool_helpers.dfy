/** The schema of an MCP tool's inputs (src/tool_helpers.py): a property is
    a name, a type and a description; a property list serialises to a JSON
    array of one object per property. Both are values: nothing changes them
    after construction. */
module ToolHelpers {
  import opened Wrappers
  import opened Json

  datatype ToolProperty = ToolProperty(propertyName: string, propertyType: string, description: string)

  /** `ToolPropertyList(*properties)` keeps the properties as given. */
  datatype ToolPropertyList = ToolPropertyList(properties: seq<ToolProperty>)

  /** `ToolProperty.to_dict`: exactly the three keys, in this order, holding
      the constructor's arguments. */
  function ToDict(p: ToolProperty): (d: Json)
    ensures d.JObj? && Keys(d.fields) == ["propertyName", "propertyType", "description"]
    ensures Lookup(d.fields, "propertyName") == Some(JStr(p.propertyName))
    ensures Lookup(d.fields, "propertyType") == Some(JStr(p.propertyType))
    ensures Lookup(d.fields, "description") == Some(JStr(p.description))
  {
    var fields := [("propertyName", JStr(p.propertyName)),
                   ("propertyType", JStr(p.propertyType)),
                   ("description", JStr(p.description))];
    assert Keys(fields) == ["propertyName", "propertyType", "description"];
    JObj(fields)
  }

  /** Reads a schema entry back as a property. */
  function FromDict(d: Json): Option<ToolProperty> {
    if !d.JObj? then None
    else match (Lookup(d.fields, "propertyName"), Lookup(d.fields, "propertyType"), Lookup(d.fields, "description"))
      case (Some(JStr(name)), Some(JStr(kind)), Some(JStr(text))) => Some(ToolProperty(name, kind, text))
      case _ => None
  }

  /** The list comprehension inside `to_json`: one entry per property, in
      list order; an empty list gives an empty array. */
  function Entries(l: ToolPropertyList): (j: Json)
    ensures j.JArr? && |j.items| == |l.properties|
    ensures forall i :: 0 <= i < |l.properties| ==> FromDict(j.items[i]) == Some(l.properties[i])
    ensures l.properties == [] <==> j == JArr([])
  {
    JArr(seq(|l.properties|, i requires 0 <= i < |l.properties| => ToDict(l.properties[i])))
  }

  /** `ToolPropertyList.to_json`. */
  function ToJson(l: ToolPropertyList): seq<Token> {
    Encode(Entries(l))
  }

  function FromDicts(items: seq<Json>): Option<seq<ToolProperty>> {
    if items == [] then Some([])
    else match (FromDict(items[0]), FromDicts(items[1..]))
      case (Some(p), Some(ps)) => Some([p] + ps)
      case _ => None
  }

  /** Reads a serialised schema back as its list of properties. */
  function DecodeSchema(ts: seq<Token>): Option<seq<ToolProperty>> {
    match Decode(ts)
    case Some(JArr(items)) => FromDicts(items)
    case _ => None
  }

  lemma {:induction false} FromDictsOfEntries(ps: seq<ToolProperty>)
    ensures FromDicts(Entries(ToolPropertyList(ps)).items) == Some(ps)
  {
    if ps != [] {
      var items := Entries(ToolPropertyList(ps)).items;
      assert items[1..] == Entries(ToolPropertyList(ps[1..])).items;
      FromDictsOfEntries(ps[1..]);
      assert [ps[0]] + ps[1..] == ps;
    }
  }

  /** Decoding the JSON text of a schema gives back exactly the `to_dict`
      entries, and through them the properties in their original order. */
  lemma SchemaRoundTrip(l: ToolPropertyList)
    ensures Decode(ToJson(l)) == Some(Entries(l))
    ensures DecodeSchema(ToJson(l)) == Some(l.properties)
  {
    DecodeEncode(Entries(l));
    FromDictsOfEntries(l.properties);
  }

  /** Serialisation preserves order: the entries of two lists joined are the
      entries of the first followed by those of the second. */
  lemma EntriesConcat(a: seq<ToolProperty>, b: seq<ToolProperty>)
    ensures Entries(ToolPropertyList(a + b)).items == Entries(ToolPropertyList(a)).items + Entries(ToolPropertyList(b)).items
  {
  }
}
