/** JSON values as Python's `json` module hands them to the handlers, and a
    token-level model of `json.dumps` (Encode) and `json.loads` (Decode).
    Spacing and string escaping are below the level of tokens. */
module Json {
  import opened Wrappers

  /** A decoded JSON value. An object is a Python dict: its keys are kept in
      insertion order, which is the order `json.dumps` writes them in. */
  datatype Json =
    | JNull
    | JBool(b: bool)
    | JNum(n: int)
    | JStr(s: string)
    | JArr(items: seq<Json>)
    | JObj(fields: seq<(string, Json)>)

  /** Python truthiness of a decoded value (`if value:`). */
  predicate Truthy(j: Json) {
    match j
    case JNull => false
    case JBool(b) => b
    case JNum(n) => n != 0
    case JStr(s) => s != ""
    case JArr(items) => items != []
    case JObj(fields) => fields != []
  }

  function Keys(fields: seq<(string, Json)>): seq<string> {
    seq(|fields|, i requires 0 <= i < |fields| => fields[i].0)
  }

  /** `d[key]` when present: the value stored under `key`. */
  function Lookup(fields: seq<(string, Json)>, key: string): (r: Option<Json>)
    ensures r.Some? <==> key in Keys(fields)
    ensures r.Some? ==> (key, r.value) in fields
  {
    if fields == [] then None
    else if fields[0].0 == key then
      assert Keys(fields)[0] == key;
      Some(fields[0].1)
    else
      assert Keys(fields) == [fields[0].0] + Keys(fields[1..]);
      Lookup(fields[1..], key)
  }

  /** Adding a key at the end of a dict (`d[k] = v` for a new key) leaves
      every other lookup as it was. */
  lemma {:induction false} LookupAppend(fields: seq<(string, Json)>, k: string, v: Json, key: string)
    requires k !in Keys(fields)
    ensures Keys(fields + [(k, v)]) == Keys(fields) + [k]
    ensures Lookup(fields + [(k, v)], key) == if key == k then Some(v) else Lookup(fields, key)
  {
    var extended := fields + [(k, v)];
    assert Keys(extended) == Keys(fields) + [k];
    if fields != [] {
      assert extended[1..] == fields[1..] + [(k, v)];
      assert Keys(fields) == [fields[0].0] + Keys(fields[1..]);
      LookupAppend(fields[1..], k, v, key);
    }
  }

  /** A lookup finds the first entry under its key, whatever follows it. */
  lemma {:induction false} LookupFirstEntry(before: seq<(string, Json)>, k: string, v: Json, after: seq<(string, Json)>)
    requires k !in Keys(before)
    ensures Lookup(before + [(k, v)] + after, k) == Some(v)
  {
    if before != [] {
      assert (before + [(k, v)] + after)[1..] == before[1..] + [(k, v)] + after;
      assert Keys(before) == [before[0].0] + Keys(before[1..]);
      LookupFirstEntry(before[1..], k, v, after);
    }
  }

  /** `d.get(key, default)`. */
  function GetOr(fields: seq<(string, Json)>, key: string, default: Json): Json {
    match Lookup(fields, key)
    case Some(v) => v
    case None => default
  }

  /** `{"error": message}`, the error body every handler writes. */
  function ErrorObject(message: string): Json {
    JObj([("error", JStr(message))])
  }

  /** The lexical tokens of a JSON text. */
  datatype Token =
    | LBracket | RBracket | LBrace | RBrace | Colon | Comma
    | NullTok | BoolTok(b: bool) | NumTok(n: int) | StrTok(s: string)

  /** `json.dumps`: the tokens of a value, elements and members in order. */
  function Encode(j: Json): seq<Token>
    decreases j, 1
  {
    match j
    case JNull => [NullTok]
    case JBool(b) => [BoolTok(b)]
    case JNum(n) => [NumTok(n)]
    case JStr(s) => [StrTok(s)]
    case JArr(items) => [LBracket] + EncodeItems(items) + [RBracket]
    case JObj(fields) => [LBrace] + EncodeFields(fields) + [RBrace]
  }

  function EncodeItems(items: seq<Json>): seq<Token>
    decreases items, 0
  {
    if items == [] then []
    else if |items| == 1 then Encode(items[0])
    else Encode(items[0]) + [Comma] + EncodeItems(items[1..])
  }

  function EncodeFields(fields: seq<(string, Json)>): seq<Token>
    decreases fields, 0
  {
    if fields == [] then []
    else
      assert fields[0].1 < fields[0];
      var member := [StrTok(fields[0].0), Colon] + Encode(fields[0].1);
      if |fields| == 1 then member
      else member + [Comma] + EncodeFields(fields[1..])
  }

  /** Reads one value off the front of `ts`, returning it with the tokens
      that follow it. */
  function ParseValue(ts: seq<Token>): (r: Option<(Json, seq<Token>)>)
    ensures r.Some? ==> |r.value.1| < |ts|
    decreases |ts|, 0
  {
    if ts == [] then None
    else match ts[0]
      case NullTok => Some((JNull, ts[1..]))
      case BoolTok(b) => Some((JBool(b), ts[1..]))
      case NumTok(n) => Some((JNum(n), ts[1..]))
      case StrTok(s) => Some((JStr(s), ts[1..]))
      case LBracket =>
        if |ts| > 1 && ts[1] == RBracket then Some((JArr([]), ts[2..]))
        else
          (match ParseItems(ts[1..])
           case None => None
           case Some((items, rest)) => Some((JArr(items), rest)))
      case LBrace =>
        if |ts| > 1 && ts[1] == RBrace then Some((JObj([]), ts[2..]))
        else
          (match ParseFields(ts[1..])
           case None => None
           case Some((fields, rest)) => Some((JObj(fields), rest)))
      case _ => None
  }

  /** Reads `value (, value)* ]`. */
  function ParseItems(ts: seq<Token>): (r: Option<(seq<Json>, seq<Token>)>)
    ensures r.Some? ==> |r.value.1| < |ts|
    decreases |ts|, 1
  {
    match ParseValue(ts)
    case None => None
    case Some((v, rest)) =>
      if rest == [] then None
      else if rest[0] == RBracket then Some(([v], rest[1..]))
      else if rest[0] == Comma then
        (match ParseItems(rest[1..])
         case None => None
         case Some((vs, rest')) => Some(([v] + vs, rest')))
      else None
  }

  /** Reads `"key" : value (, "key" : value)* }`. */
  function ParseFields(ts: seq<Token>): (r: Option<(seq<(string, Json)>, seq<Token>)>)
    ensures r.Some? ==> |r.value.1| < |ts|
    decreases |ts|, 1
  {
    if |ts| < 2 || !ts[0].StrTok? || ts[1] != Colon then None
    else match ParseValue(ts[2..])
      case None => None
      case Some((v, rest)) =>
        if rest == [] then None
        else if rest[0] == RBrace then Some(([(ts[0].s, v)], rest[1..]))
        else if rest[0] == Comma then
          (match ParseFields(rest[1..])
           case None => None
           case Some((fs, rest')) => Some(([(ts[0].s, v)] + fs, rest')))
        else None
  }

  /** `json.loads`: a whole text that is exactly one value. */
  function Decode(ts: seq<Token>): Option<Json> {
    match ParseValue(ts)
    case Some((v, rest)) => if rest == [] then Some(v) else None
    case None => None
  }

  /** Reading back the tokens of a value gives the value and leaves what
      followed it untouched. */
  lemma {:induction false} ParseEncode(j: Json, rest: seq<Token>)
    ensures ParseValue(Encode(j) + rest) == Some((j, rest))
    decreases j, 1
  {
    var ts := Encode(j) + rest;
    match j
    case JArr(items) =>
      if items != [] {
        assert ts == [LBracket] + (EncodeItems(items) + [RBracket] + rest);
        assert ts[1..] == EncodeItems(items) + [RBracket] + rest;
        ParseEncodeItems(items, rest);
        EncodeItemsStart(items);
        ParseArrayStep(ts, items, rest);
      }
    case JObj(fields) =>
      if fields != [] {
        assert ts == [LBrace] + (EncodeFields(fields) + [RBrace] + rest);
        assert ts[1..] == EncodeFields(fields) + [RBrace] + rest;
        ParseEncodeFields(fields, rest);
        ParseObjectStep(ts, fields, rest);
      }
    case _ =>
  }

  lemma EncodeNonEmpty(j: Json)
    ensures Encode(j) != [] && Encode(j)[0] != RBracket && Encode(j)[0] != RBrace
  {
  }

  /** The tokens of a non-empty array's elements do not start with `]`. */
  lemma EncodeItemsStart(items: seq<Json>)
    requires items != []
    ensures EncodeItems(items) != [] && EncodeItems(items)[0] != RBracket
  {
    EncodeNonEmpty(items[0]);
    assert EncodeItems(items)[0] == Encode(items[0])[0];
  }

  /** `[` followed by elements: ParseValue hands over to ParseItems. */
  lemma ParseArrayStep(ts: seq<Token>, items: seq<Json>, rest: seq<Token>)
    requires |ts| > 1 && ts[0] == LBracket && ts[1] != RBracket
    requires ParseItems(ts[1..]) == Some((items, rest))
    ensures ParseValue(ts) == Some((JArr(items), rest))
  {
  }

  /** `{` followed by members: ParseValue hands over to ParseFields. */
  lemma ParseObjectStep(ts: seq<Token>, fields: seq<(string, Json)>, rest: seq<Token>)
    requires |ts| > 1 && ts[0] == LBrace && ParseFields(ts[1..]) == Some((fields, rest))
    ensures ParseValue(ts) == Some((JObj(fields), rest))
  {
    assert ts[1].StrTok?;
  }

  /** One step of ParseItems: an element followed by `]` or by `,` and more
      elements. */
  lemma ParseItemsStep(ts: seq<Token>, v: Json, after: seq<Token>, more: seq<Json>, rest: seq<Token>)
    requires ParseValue(ts) == Some((v, after))
    requires more == [] ==> after == [RBracket] + rest
    requires more != [] ==> after != [] && after[0] == Comma && ParseItems(after[1..]) == Some((more, rest))
    ensures ParseItems(ts) == Some(([v] + more, rest))
  {
    if more == [] {
      assert after[1..] == rest;
      assert [v] + more == [v];
    }
  }

  lemma {:induction false} ParseEncodeItems(items: seq<Json>, rest: seq<Token>)
    requires items != []
    ensures ParseItems(EncodeItems(items) + [RBracket] + rest) == Some((items, rest))
    decreases items, 0
  {
    var ts := EncodeItems(items) + [RBracket] + rest;
    var more := items[1..];
    var after := if more == [] then [RBracket] + rest else [Comma] + (EncodeItems(more) + [RBracket] + rest);
    assert ParseValue(ts) == Some((items[0], after)) by {
      assert ts == Encode(items[0]) + after;
      ParseEncode(items[0], after);
    }
    if more != [] {
      assert ParseItems(after[1..]) == Some((more, rest)) by {
        assert after[1..] == EncodeItems(more) + [RBracket] + rest;
        ParseEncodeItems(more, rest);
      }
    }
    ParseItemsStep(ts, items[0], after, more, rest);
    assert [items[0]] + more == items;
  }

  /** The tokens that follow the first member of an encoded object. */
  function AfterMember(fields: seq<(string, Json)>, rest: seq<Token>): seq<Token>
    requires fields != []
  {
    if |fields| == 1 then [RBrace] + rest else [Comma] + (EncodeFields(fields[1..]) + [RBrace] + rest)
  }

  /** Concatenation regroups freely. */
  lemma AppendAssoc<T>(a: seq<T>, b: seq<T>, c: seq<T>)
    ensures a + b + c == a + (b + c)
  {
  }

  /** An encoded object's members start with the first key, a colon and the
      first value's tokens. */
  lemma EncodeFieldsHead(fields: seq<(string, Json)>, rest: seq<Token>)
    requires fields != []
    ensures EncodeFields(fields) + [RBrace] + rest
         == [StrTok(fields[0].0), Colon] + (Encode(fields[0].1) + AfterMember(fields, rest))
  {
    var p, e := [StrTok(fields[0].0), Colon], Encode(fields[0].1);
    var close := [RBrace] + rest;
    if |fields| == 1 {
      assert EncodeFields(fields) == p + e;
      AppendAssoc(p + e, [RBrace], rest);
      AppendAssoc(p, e, close);
    } else {
      var f := EncodeFields(fields[1..]);
      var q := p + e + [Comma];
      var g := f + [RBrace] + rest;
      assert EncodeFields(fields) == q + f;
      AppendAssoc(q + f, [RBrace], rest);
      AppendAssoc(q, f, close);
      AppendAssoc(f, [RBrace], rest);
      assert EncodeFields(fields) + [RBrace] + rest == q + g;
      AppendAssoc(p + e, [Comma], g);
      AppendAssoc(p, e, [Comma] + g);
    }
  }

  lemma {:induction false} ParseEncodeFields(fields: seq<(string, Json)>, rest: seq<Token>)
    requires fields != []
    ensures ParseFields(EncodeFields(fields) + [RBrace] + rest) == Some((fields, rest))
    decreases fields, 0
  {
    var k, v := fields[0].0, fields[0].1;
    var ts := EncodeFields(fields) + [RBrace] + rest;
    var more := fields[1..];
    var after := AfterMember(fields, rest);
    assert ts == [StrTok(k), Colon] + (Encode(v) + after) by {
      EncodeFieldsHead(fields, rest);
    }
    assert ParseValue(Encode(v) + after) == Some((v, after)) by {
      assert v < fields[0];
      ParseEncode(v, after);
    }
    assert more != [] ==> after != [] && after[0] == Comma && ParseFields(after[1..]) == Some((more, rest)) by {
      if more != [] {
        assert after[1..] == EncodeFields(more) + [RBrace] + rest;
        ParseEncodeFields(more, rest);
      }
    }
    assert more == [] ==> after == [RBrace] + rest;
    assert [(k, v)] + more == fields;
    ParseFieldsMember(ts, k, v, after, more, rest);
  }

  /** One step of ParseFields: a member followed by `}` or by `,` and more
      members. */
  lemma ParseFieldsMember(ts: seq<Token>, k: string, v: Json, after: seq<Token>,
                          more: seq<(string, Json)>, rest: seq<Token>)
    requires ts == [StrTok(k), Colon] + (Encode(v) + after)
    requires ParseValue(Encode(v) + after) == Some((v, after))
    requires more == [] ==> after == [RBrace] + rest
    requires more != [] ==> after != [] && after[0] == Comma && ParseFields(after[1..]) == Some((more, rest))
    ensures ParseFields(ts) == Some(([(k, v)] + more, rest))
  {
    assert ts[2..] == Encode(v) + after;
    if more == [] {
      assert after[1..] == rest;
      assert [(k, v)] + more == [(k, v)];
    }
  }

  /** `json.loads(json.dumps(v)) == v`. */
  lemma DecodeEncode(j: Json)
    ensures Decode(Encode(j)) == Some(j)
  {
    ParseEncode(j, []);
    assert Encode(j) + [] == Encode(j);
  }
}
