/**
 * JSON values as the tool layer sees them, and the shape of a JSON-Schema
 * object that a chat-completions function-calling interface accepts as the
 * argument schema of a tool.
 */
module JsonSchema {

  /** A JSON value. Object members are keyed by name; their order carries no meaning in a schema. */
  datatype Json =
    | Null
    | Boolean(b: bool)
    | Number(n: int)
    | String(str: string)
    | Array(items: seq<Json>)
    | Object(fields: map<string, Json>)

  /** The JSON-Schema type names the tool schemas use. */
  const SchemaTypes: set<string> := {"object", "array", "string", "integer", "boolean"}

  /** `s` is an object whose "type" member is the string `t`. */
  predicate HasType(s: Json, t: string) {
    s.Object? && "type" in s.fields && s.fields["type"] == String(t)
  }

  /** `j` is an array of strings. */
  predicate IsNameList(j: Json) {
    j.Array? && forall x | x in j.items :: x.String?
  }

  /** The names in a list of strings. */
  function Names(j: Json): (r: set<string>)
    requires IsNameList(j)
    ensures forall x | x in j.items :: x.str in r
    ensures forall n | n in r :: String(n) in j.items
  {
    set x | x in j.items :: x.str
  }

  /**
   * A schema every level of which declares a known "type"; an object level
   * has an object of "properties", each itself well-formed, and any
   * "required" names are keys of "properties"; an array level has a
   * well-formed "items" schema.
   */
  predicate WellFormed(s: Json)
    decreases s
  {
    match s
    case Object(f) =>
      && "type" in f && f["type"].String? && f["type"].str in SchemaTypes
      && ("description" in f ==> f["description"].String?)
      && ("enum" in f ==> IsNameList(f["enum"]))
      && (f["type"].str == "object" ==>
            && "properties" in f && f["properties"].Object?
            && (forall k | k in f["properties"].fields :: WellFormed(f["properties"].fields[k]))
            && ("required" in f ==>
                  IsNameList(f["required"]) && Names(f["required"]) <= f["properties"].fields.Keys))
      && (f["type"].str == "array" ==> "items" in f && WellFormed(f["items"]))
    case _ => false
  }

  /**
   * What a function-calling interface accepts as a tool's argument schema:
   * a well-formed schema of type "object" that has "properties" and "required".
   */
  predicate IsToolSchema(s: Json) {
    && WellFormed(s)
    && HasType(s, "object")
    && "required" in s.fields
  }

  /** The argument names of a tool schema. */
  function Properties(s: Json): (r: map<string, Json>)
    requires IsToolSchema(s)
  {
    s.fields["properties"].fields
  }

  /** The required argument names of a tool schema. */
  function Required(s: Json): (r: set<string>)
    requires IsToolSchema(s)
  {
    Names(s.fields["required"])
  }

  /**
   * A tool schema has type "object", and its required names are all among
   * its properties; so it has properties whenever it requires anything.
   */
  lemma ToolSchemaShape(s: Json)
    requires IsToolSchema(s)
    ensures s.fields["type"] == String("object")
    ensures Required(s) <= Properties(s).Keys
    ensures Required(s) != {} ==> |Properties(s)| > 0
  {
    if Required(s) != {} {
      var n :| n in Required(s);
      assert n in Properties(s).Keys;
    }
  }

  /** The schema of one argument: its type and a description. */
  function Arg(t: string, description: string): (r: Json)
  {
    Object(map["type" := String(t), "description" := String(description)])
  }

  /** A list of names as a JSON array of strings. */
  function NameArray(names: seq<string>): Json
  {
    Array(seq(|names|, i requires 0 <= i < |names| => String(names[i])))
  }

  /** The array built from a list of names lists exactly those names. */
  lemma NameArrayNames(names: seq<string>)
    ensures IsNameList(NameArray(names)) && Names(NameArray(names)) == set n | n in names
  {
    var r := NameArray(names);
    forall n | n in names ensures String(n) in r.items {
      var i :| 0 <= i < |names| && names[i] == n;
      assert r.items[i] == String(n);
    }
  }

  /** An object schema with the given properties and required names. */
  function ObjectSchema(properties: map<string, Json>, required: seq<string>): (r: Json)
  {
    Object(map["type" := String("object"), "properties" := Object(properties), "required" := NameArray(required)])
  }

  /**
   * An object schema built from well-formed properties, requiring only names
   * among them, is a tool schema.
   */
  lemma ObjectSchemaIsToolSchema(properties: map<string, Json>, required: seq<string>)
    requires forall k | k in properties :: WellFormed(properties[k])
    requires forall n | n in required :: n in properties
    ensures IsToolSchema(ObjectSchema(properties, required))
  {
    var s := ObjectSchema(properties, required);
    NameArrayNames(required);
    assert s.fields["properties"].fields == properties;
    assert Names(s.fields["required"]) <= properties.Keys;
  }
}
