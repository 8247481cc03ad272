/** The static tables of the Zendesk Sell stream: the schema property that each
    custom-field type tag resolves to, the fixed shape of an address, and the
    four CRM resource types whose custom fields can be queried. */
module CustomFieldTypes {

  datatype Option<+T> = None | Some(value: T)

  /** A schema property type, compared structurally (as the stream compares the
      dictionaries it builds for each property). */
  datatype SchemaType =
    | StringType
    | DateTimeType
    | ArrayType(items: SchemaType)
    | ObjectType(properties: seq<Property>)

  /** A named sub-property of an object type, with its optional description. */
  datatype Property = Property(name: string, valueType: SchemaType, description: Option<string>)

  /** The fixed object type of an address custom field: five string sub-properties. */
  const AddressType: SchemaType := ObjectType([
    Property("line1", StringType, Some("Line 1 of the address e.g. number, street, suite, apt #, etc.")),
    Property("city", StringType, Some("City name.")),
    Property("postal_code", StringType, Some("Zip code or equivalent.")),
    Property("state", StringType, Some("State name.")),
    Property("country", StringType, Some("Country name."))
  ])

  /** The twelve custom-field types that are keys of the type table. */
  datatype CustomFieldType =
    | Address | Bool | Date | Datetime | Email | List
    | MultiSelectList | Number | Phone | String | Text | Url
  {
    /** The tags whose table entry is a plain string property. */
    predicate IsPlainString() {
      !(Address? || Datetime? || MultiSelectList?)
    }
  }

  /** The tag by which the CRM names each custom-field type. */
  function TagName(t: CustomFieldType): string {
    match t
    case Address => "address"
    case Bool => "bool"
    case Date => "date"
    case Datetime => "datetime"
    case Email => "email"
    case List => "list"
    case MultiSelectList => "multi_select_list"
    case Number => "number"
    case Phone => "phone"
    case String => "string"
    case Text => "text"
    case Url => "url"
  }

  /** The keys of the type table. */
  const KnownTags: set<string> := {
    "address", "bool", "date", "datetime", "email", "list",
    "multi_select_list", "number", "phone", "string", "text", "url"
  }

  /** The nine keys of the type table whose entry is a plain string. */
  const PlainStringTags: set<string> := {
    "bool", "date", "email", "list", "number", "phone", "string", "text", "url"
  }

  /** The set of resource types whose custom fields may be requested. */
  const ResourceTypes: set<string> := {"deal", "contact", "lead", "prospect_and_customer"}

  /** Reads a type tag sent by the CRM; a tag outside the table has no type. */
  function ParseTag(s: string): (r: Option<CustomFieldType>)
    ensures r.Some? <==> s in KnownTags
    ensures r.Some? ==> TagName(r.value) == s
  {
    if s == "address" then Some(Address)
    else if s == "bool" then Some(Bool)
    else if s == "date" then Some(Date)
    else if s == "datetime" then Some(Datetime)
    else if s == "email" then Some(Email)
    else if s == "list" then Some(List)
    else if s == "multi_select_list" then Some(MultiSelectList)
    else if s == "number" then Some(Number)
    else if s == "phone" then Some(Phone)
    else if s == "string" then Some(String)
    else if s == "text" then Some(Text)
    else if s == "url" then Some(Url)
    else None
  }

  /** Every custom-field type's own tag reads back as that type. */
  lemma ParseTagName(t: CustomFieldType)
    ensures TagName(t) in KnownTags
    ensures ParseTag(TagName(t)) == Some(t)
  {
  }

  /** The type table: the schema property each custom-field type resolves to. */
  function PropertyType(t: CustomFieldType): SchemaType {
    match t
    case Address => AddressType
    case Datetime => DateTimeType
    case MultiSelectList => ArrayType(StringType)
    case _ => StringType
  }

  /** Two custom-field types resolve to the same schema property exactly when
      they are the same type or both are plain-string types; so only those
      pairs may share a field name without a conflict. */
  lemma PropertyTypeCollisions(a: CustomFieldType, b: CustomFieldType)
    ensures PropertyType(a) == PropertyType(b) <==> a == b || (a.IsPlainString() && b.IsPlainString())
  {
  }

  /** The address object has exactly the properties line1, city, postal_code,
      state and country, in that order, each a string. */
  lemma AddressTypeShape()
    ensures AddressType.ObjectType?
    ensures |AddressType.properties| == 5
    ensures AddressType.properties[0].name == "line1"
    ensures AddressType.properties[1].name == "city"
    ensures AddressType.properties[2].name == "postal_code"
    ensures AddressType.properties[3].name == "state"
    ensures AddressType.properties[4].name == "country"
    ensures forall p :: p in AddressType.properties ==> p.valueType == StringType
  {
  }

  /** Resolves the type tag of a fetched custom field through the table; a tag
      that is not a key of the table has no type (there is no fallback). */
  function LookupType(tag: string): (r: Option<SchemaType>)
    ensures r.None? <==> tag !in KnownTags
    ensures forall t :: TagName(t) == tag ==> r == Some(PropertyType(t))
  {
    match ParseTag(tag)
    case Some(t) =>
      assert forall u :: TagName(u) == tag ==> u == t by {
        forall u | TagName(u) == tag ensures u == t { ParseTagName(u); }
      }
      Some(PropertyType(t))
    case None => None
  }

  /** The table, entry by entry, as seen through a lookup by tag. */
  lemma CustomFieldTypeTable()
    ensures LookupType("address") == Some(AddressType)
    ensures LookupType("datetime") == Some(DateTimeType)
    ensures LookupType("multi_select_list") == Some(ArrayType(StringType))
    ensures forall tag :: tag in PlainStringTags ==> LookupType(tag) == Some(StringType)
    ensures KnownTags == PlainStringTags + {"address", "datetime", "multi_select_list"}
  {
    assert TagName(Address) == "address";
    assert TagName(Datetime) == "datetime";
    assert TagName(MultiSelectList) == "multi_select_list";
  }
}
