/** The part of the provider's response-schema language (the `Schema`
    objects of the Gemini SDK) that the recipe request uses, the JSON
    values such a schema describes, and when a value meets a schema.
    The application only declares a schema to the provider; it never
    checks a response against one. */
module Schema {
  import opened Outcomes

  /** `Type.STRING` (optionally with `enum` and `description`),
      `Type.ARRAY` with `items`, `Type.OBJECT` with `properties` and
      `required`. */
  datatype Schema =
    | StringSchema(enumValues: seq<string>, description: Option<string>)
    | ArraySchema(items: Schema)
    | ObjectSchema(properties: seq<Property>, required: seq<string>)

  datatype Property = Property(name: string, schema: Schema)

  /** The JSON values a text response can carry under these schemas. */
  datatype Json =
    | JString(text: string)
    | JArray(elements: seq<Json>)
    | JObject(members: seq<Member>)

  datatype Member = Member(key: string, value: Json)

  /** The schema declared for property `name`, the first declaration winning. */
  function PropertySchema(properties: seq<Property>, name: string): (r: Option<Schema>)
    ensures r.Some? <==> exists i :: 0 <= i < |properties| && properties[i].name == name
  {
    if properties == [] then None
    else if properties[0].name == name then Some(properties[0].schema)
    else PropertySchema(properties[1..], name)
  }

  /** The value of `key` in an object; as JSON.parse does, a later
      duplicate key overrides an earlier one. */
  function Get(members: seq<Member>, key: string): (r: Option<Json>)
    ensures r.Some? <==> exists i :: 0 <= i < |members| && members[i].key == key
    ensures r.Some? ==> Member(key, r.value) in members
  {
    if members == [] then None
    else if members[|members| - 1].key == key then Some(members[|members| - 1].value)
    else Get(members[..|members| - 1], key)
  }

  /** A property declared once is found with its own schema. */
  lemma {:induction false} PropertySchemaAt(properties: seq<Property>, i: nat)
    requires i < |properties|
    requires forall k :: 0 <= k < i ==> properties[k].name != properties[i].name
    ensures PropertySchema(properties, properties[i].name) == Some(properties[i].schema)
  {
    if i > 0 {
      PropertySchemaAt(properties[1..], i - 1);
    }
  }

  /** The value `Get` finds is the one of the last member with that key. */
  lemma {:induction false} GetLast(members: seq<Member>, key: string, i: nat)
    requires i < |members| && members[i].key == key
    requires forall k :: i < k < |members| ==> members[k].key != key
    ensures Get(members, key) == Some(members[i].value)
  {
    if i < |members| - 1 {
      GetLast(members[..|members| - 1], key, i);
    }
  }

  /** `j` meets schema `s`: strings are strings and, when an `enum` is
      declared, one of its values; every element of an array meets the
      item schema; an object has every required key and each member
      whose key is a declared property meets that property's schema. */
  predicate Conforms(j: Json, s: Schema)
    decreases j
  {
    match s
    case StringSchema(enumValues, _) =>
      j.JString? && (enumValues == [] || j.text in enumValues)
    case ArraySchema(items) =>
      j.JArray? && forall e | e in j.elements :: Conforms(e, items)
    case ObjectSchema(properties, required) =>
      && j.JObject?
      && (forall k | k in required :: Get(j.members, k).Some?)
      && (forall m | m in j.members ::
            match PropertySchema(properties, m.key)
            case None => true
            case Some(ps) => Conforms(m.value, ps))
  }

  /** An object meets an object schema when it has every required key and
      each of its members meets the schema of its declared property. */
  lemma ObjectConforms(members: seq<Member>, properties: seq<Property>, required: seq<string>)
    requires forall k | k in required :: Get(members, k).Some?
    requires forall m | m in members ::
               match PropertySchema(properties, m.key)
               case None => true
               case Some(ps) => Conforms(m.value, ps)
    ensures Conforms(JObject(members), ObjectSchema(properties, required))
  {
  }

  /** In an object that meets an object schema, a required property is
      present and its value meets the property's schema. */
  lemma RequiredMemberConforms(j: Json, properties: seq<Property>, required: seq<string>, i: nat)
    requires Conforms(j, ObjectSchema(properties, required))
    requires i < |properties| && properties[i].name in required
    requires forall k :: 0 <= k < i ==> properties[k].name != properties[i].name
    ensures j.JObject? && Get(j.members, properties[i].name).Some?
    ensures Conforms(Get(j.members, properties[i].name).value, properties[i].schema)
  {
    var key := properties[i].name;
    var v := Get(j.members, key).value;
    assert Member(key, v) in j.members;
    PropertySchemaAt(properties, i);
  }
}
