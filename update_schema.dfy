/** The stream's custom-field schema builder: for each requested resource type
    it fetches that type's custom-field definitions and merges them into one
    mapping from field name to schema property, rejecting a field name that
    resolves to two different properties. */
module ZendeskSellStream {
  import opened CustomFieldTypes

  /** One custom-field definition as the CRM returns it. */
  datatype CustomField = CustomField(name: string, typeTag: string)

  /** Why building the schema failed. */
  datatype SchemaError =
    | InvalidResourceTypeSet(requested: set<string>)   // not a subset of ResourceTypes
    | UnknownFieldType(tag: string)                    // a tag that is not a key of the type table
    | CustomFieldNameConflict                          // one name, two different properties

  datatype Result<T> = Success(value: T) | Failure(error: SchemaError)

  /** The path of the request that fetches a resource type's custom fields. */
  function CustomFieldsPath(resourceType: string): string {
    "/" + resourceType + "/custom_fields"
  }

  ghost function Elements(fields: seq<CustomField>): set<CustomField> {
    set f | f in fields
  }

  /** Taking one more definition of a list adds exactly that definition to
      what was seen before the list. */
  lemma ElementsPrefix(before: set<CustomField>, fields: seq<CustomField>, j: nat)
    requires j < |fields|
    ensures before + Elements(fields[..j + 1]) == before + Elements(fields[..j]) + {fields[j]}
  {
    assert fields[..j + 1] == fields[..j] + [fields[j]];
  }

  /** Different resource types are fetched from different paths. */
  lemma CustomFieldsPathInjective(a: string, b: string)
    requires CustomFieldsPath(a) == CustomFieldsPath(b)
    ensures a == b
  {
    var pa, pb := CustomFieldsPath(a), CustomFieldsPath(b);
    assert |a| == |pa| - 15 && |b| == |pb| - 15;
    assert a == pa[1..|pa| - 14];
    assert b == pb[1..|pb| - 14];
  }

  /** The request paths for the given resource types. */
  ghost function RequestPaths(resourceTypes: set<string>): set<string> {
    set rt | rt in resourceTypes :: CustomFieldsPath(rt)
  }

  /** Every definition the CRM returns for the given resource types, where
      `get` gives the definitions served at a request path. */
  ghost function Fetched(resourceTypes: set<string>, get: string -> seq<CustomField>): set<CustomField> {
    set rt, f | rt in resourceTypes && f in get(CustomFieldsPath(rt)) :: f
  }

  /** Every definition's type tag is a key of the type table. */
  ghost predicate AllKnown(fields: set<CustomField>) {
    forall f :: f in fields ==> LookupType(f.typeTag).Some?
  }

  /** Definitions that share a name resolve to the same schema property. */
  ghost predicate NoConflict(fields: set<CustomField>) {
    forall f, g :: f in fields && g in fields && f.name == g.name ==>
      LookupType(f.typeTag) == LookupType(g.typeTag)
  }

  /** Two definitions share a name, both tags are keys of the type table, and
      they resolve to different schema properties. */
  ghost predicate RealConflict(fields: set<CustomField>) {
    exists f, g :: f in fields && g in fields && f.name == g.name &&
      LookupType(f.typeTag).Some? && LookupType(g.typeTag).Some? &&
      LookupType(f.typeTag) != LookupType(g.typeTag)
  }

  ghost function Names(fields: set<CustomField>): set<string> {
    set f | f in fields :: f.name
  }

  /** The schema has one key per field name, and each name maps to the resolved
      type of every definition carrying that name. */
  ghost predicate Describes(schema: map<string, SchemaType>, fields: set<CustomField>) {
    && schema.Keys == Names(fields)
    && forall f :: f in fields ==> f.name in schema && LookupType(f.typeTag) == Some(schema[f.name])
  }

  /** A schema is determined by the set of definitions it describes, so the
      result does not depend on the order in which resource types or their
      definitions are visited, and two builds over the same definitions agree. */
  lemma DescribedSchemaIsUnique(s1: map<string, SchemaType>, s2: map<string, SchemaType>, fields: set<CustomField>)
    requires Describes(s1, fields) && Describes(s2, fields)
    ensures s1 == s2
  {
    forall k | k in s1.Keys ensures s1[k] == s2[k] {
      var f :| f in fields && f.name == k;
    }
  }

  /** A schema describing more definitions keeps every entry of one describing
      fewer of them. */
  lemma DescribesExtends(fewer: map<string, SchemaType>, more: map<string, SchemaType>,
                         some: set<CustomField>, all: set<CustomField>)
    requires some <= all && Describes(fewer, some) && Describes(more, all)
    ensures forall name :: name in fewer ==> name in more && more[name] == fewer[name]
  {
    forall name | name in fewer ensures name in more && more[name] == fewer[name] {
      var f :| f in some && f.name == name;
    }
  }

  /** Fetching one more resource type adds exactly that type's definitions. */
  lemma FetchedInsert(visited: set<string>, rt: string, get: string -> seq<CustomField>)
    ensures Fetched(visited + {rt}, get) == Fetched(visited, get) + Elements(get(CustomFieldsPath(rt)))
  {
  }

  lemma FetchedMember(resourceTypes: set<string>, rt: string, get: string -> seq<CustomField>, f: CustomField)
    requires rt in resourceTypes && f in get(CustomFieldsPath(rt))
    ensures f in Fetched(resourceTypes, get)
  {
  }

  /** A name seen for the first time may be inserted with its resolved type. */
  lemma InsertNewName(schema: map<string, SchemaType>, seen: set<CustomField>, field: CustomField, t: SchemaType)
    requires AllKnown(seen) && NoConflict(seen) && Describes(schema, seen)
    requires field.name !in schema && LookupType(field.typeTag) == Some(t)
    ensures AllKnown(seen + {field}) && NoConflict(seen + {field})
    ensures Describes(schema[field.name := t], seen + {field})
  {
    var s' := seen + {field};
    assert Names(s') == Names(seen) + {field.name};
  }

  /** A name seen again with the type already stored leaves the schema as it is. */
  lemma RepeatSameType(schema: map<string, SchemaType>, seen: set<CustomField>, field: CustomField)
    requires AllKnown(seen) && NoConflict(seen) && Describes(schema, seen)
    requires field.name in schema && LookupType(field.typeTag) == Some(schema[field.name])
    ensures AllKnown(seen + {field}) && NoConflict(seen + {field})
    ensures Describes(schema, seen + {field})
  {
    var s' := seen + {field};
    assert Names(s') == Names(seen) + {field.name};
  }

  /** A name seen again with a different type is a conflict among all the
      definitions, whichever resource types the two came from. */
  lemma RepeatOtherType(schema: map<string, SchemaType>, seen: set<CustomField>, field: CustomField, all: set<CustomField>)
    requires AllKnown(seen) && Describes(schema, seen) && seen <= all && field in all
    requires field.name in schema && LookupType(field.typeTag).Some?
    requires LookupType(field.typeTag) != Some(schema[field.name])
    ensures RealConflict(all)
  {
    var g :| g in seen && g.name == field.name;
  }

  /** Logging the request for one more, not yet visited, resource type keeps
      the log free of repeats and equal, as a set, to the paths of the
      resource types visited. */
  lemma LogRequest(requests: seq<string>, visited: set<string>, rt: string)
    requires rt !in visited
    requires forall i, j :: 0 <= i < j < |requests| ==> requests[i] != requests[j]
    requires forall p :: p in requests ==> p in RequestPaths(visited)
    requires forall r :: r in visited ==> CustomFieldsPath(r) in requests
    ensures forall i, j :: 0 <= i < j < |requests + [CustomFieldsPath(rt)]| ==>
      (requests + [CustomFieldsPath(rt)])[i] != (requests + [CustomFieldsPath(rt)])[j]
    ensures forall p :: p in requests + [CustomFieldsPath(rt)] ==> p in RequestPaths(visited + {rt})
    ensures forall r :: r in visited + {rt} ==> CustomFieldsPath(r) in requests + [CustomFieldsPath(rt)]
  {
    if CustomFieldsPath(rt) in requests {
      var r :| r in visited && CustomFieldsPath(r) == CustomFieldsPath(rt);
      CustomFieldsPathInjective(r, rt);
    }
  }

  /** Fetching more resource types never loses a definition. */
  lemma FetchedSubset(fewer: set<string>, more: set<string>, get: string -> seq<CustomField>)
    requires fewer <= more
    ensures Fetched(fewer, get) <= Fetched(more, get)
  {
  }

  /** A conflict among some definitions is a conflict among any superset, and
      rules out that the superset is consistent. */
  lemma RealConflictGrows(some: set<CustomField>, all: set<CustomField>)
    requires some <= all && RealConflict(some)
    ensures RealConflict(all) && !NoConflict(all)
  {
    var f, g :| f in some && g in some && f.name == g.name &&
      LookupType(f.typeTag).Some? && LookupType(g.typeTag).Some? &&
      LookupType(f.typeTag) != LookupType(g.typeTag);
  }

  /** Merges the custom-field definitions fetched for one resource type into
      the schema built so far, in the order the CRM lists them. `seen` are the
      definitions already merged into `properties`. */
  method MergeCustomFields(properties: map<string, SchemaType>, data: seq<CustomField>, ghost seen: set<CustomField>)
    returns (result: Result<map<string, SchemaType>>)
    requires AllKnown(seen) && NoConflict(seen) && Describes(properties, seen)
    ensures result.Success? <==> AllKnown(seen + Elements(data)) && NoConflict(seen + Elements(data))
    ensures result.Success? ==> Describes(result.value, seen + Elements(data))
    ensures result.Success? ==>
      forall name :: name in properties ==> name in result.value && result.value[name] == properties[name]
    ensures result.Failure? ==> result.error.UnknownFieldType? || result.error.CustomFieldNameConflict?
    ensures result.Failure? && result.error.UnknownFieldType? ==>
      exists f :: f in data && f.typeTag == result.error.tag && LookupType(f.typeTag).None?
    ensures result.Failure? && result.error.CustomFieldNameConflict? ==>
      RealConflict(seen + Elements(data))
  {
    var merged := properties;
    ghost var done := seen;
    var j := 0;
    assert Elements(data[..0]) == {};
    while j < |data|
      invariant 0 <= j <= |data|
      invariant done == seen + Elements(data[..j])
      invariant AllKnown(done) && NoConflict(done) && Describes(merged, done)
    {
      var field := data[j];
      var typeDict := LookupType(field.typeTag);
      if typeDict.None? {
        result := Failure(UnknownFieldType(field.typeTag));
        return;
      }
      ElementsPrefix(seen, data, j);
      if field.name !in merged {
        InsertNewName(merged, done, field, typeDict.value);
        merged := merged[field.name := typeDict.value];
      } else if merged[field.name] != typeDict.value {
        RepeatOtherType(merged, done, field, seen + Elements(data));
        result := Failure(CustomFieldNameConflict);
        return;
      } else {
        RepeatSameType(merged, done, field);
      }
      done := done + {field};
      j := j + 1;
    }
    assert data[..j] == data;
    DescribesExtends(properties, merged, seen, done);
    result := Success(merged);
  }

  /** With no custom fields to fetch, whether because no resource type is
      requested or because none of them has any, the only schema that
      describes them is the empty one. */
  lemma NoFieldsGiveEmptySchema(requested: set<string>, get: string -> seq<CustomField>, schema: map<string, SchemaType>)
    requires forall rt :: rt in requested ==> get(CustomFieldsPath(rt)) == []
    ensures AllKnown(Fetched(requested, get)) && NoConflict(Fetched(requested, get))
    ensures Describes(schema, Fetched(requested, get)) <==> schema == map[]
  {
    assert Fetched(requested, get) == {};
    assert Names({}) == {};
  }

  /** The CRM serving a field "priority" with type tag `dealTag` on deals and
      with `contactTag` on contacts, and no other custom fields. */
  function PriorityFields(dealTag: string, contactTag: string): string -> seq<CustomField> {
    (p: string) =>
      if p == CustomFieldsPath("deal") then [CustomField("priority", dealTag)]
      else if p == CustomFieldsPath("contact") then [CustomField("priority", contactTag)]
      else []
  }

  lemma PriorityFetched(dealTag: string, contactTag: string)
    ensures Fetched({"deal", "contact"}, PriorityFields(dealTag, contactTag))
         == {CustomField("priority", dealTag), CustomField("priority", contactTag)}
  {
    var get := PriorityFields(dealTag, contactTag);
    assert |CustomFieldsPath("deal")| != |CustomFieldsPath("contact")|;
    FetchedInsert({}, "deal", get);
    FetchedInsert({"deal"}, "contact", get);
    assert {"deal"} + {"contact"} == {"deal", "contact"};
    assert Elements(get(CustomFieldsPath("deal"))) == {CustomField("priority", dealTag)};
    assert Elements(get(CustomFieldsPath("contact"))) == {CustomField("priority", contactTag)};
  }

  /** A field "priority" declared as a string on deals and as a number on
      contacts merges into one string property. */
  lemma PriorityStringAndNumberMerge()
    ensures AllKnown(Fetched({"deal", "contact"}, PriorityFields("string", "number")))
    ensures NoConflict(Fetched({"deal", "contact"}, PriorityFields("string", "number")))
    ensures Describes(map["priority" := StringType], Fetched({"deal", "contact"}, PriorityFields("string", "number")))
  {
    PriorityFetched("string", "number");
    assert TagName(String) == "string" && TagName(Number) == "number";
    var fields := {CustomField("priority", "string"), CustomField("priority", "number")};
    assert forall f :: f in fields ==> LookupType(f.typeTag) == Some(StringType);
    assert Names(fields) == {"priority"};
  }

  /** Declared instead as a multi-select list on contacts, it is a conflict. */
  lemma PriorityStringAndListConflict()
    ensures AllKnown(Fetched({"deal", "contact"}, PriorityFields("string", "multi_select_list")))
    ensures RealConflict(Fetched({"deal", "contact"}, PriorityFields("string", "multi_select_list")))
    ensures !NoConflict(Fetched({"deal", "contact"}, PriorityFields("string", "multi_select_list")))
  {
    PriorityFetched("string", "multi_select_list");
    assert TagName(String) == "string" && TagName(MultiSelectList) == "multi_select_list";
  }

  /** A failure met while merging one requested resource type's definitions is
      a failure of the whole set of fetched definitions. */
  lemma MergeFailureIsReal(requested: set<string>, rt: string, get: string -> seq<CustomField>,
                           seen: set<CustomField>, error: SchemaError)
    requires rt in requested && seen <= Fetched(requested, get)
    requires error.UnknownFieldType? || error.CustomFieldNameConflict?
    requires error.UnknownFieldType? ==>
      exists f :: f in get(CustomFieldsPath(rt)) && f.typeTag == error.tag && LookupType(f.typeTag).None?
    requires error.CustomFieldNameConflict? ==> RealConflict(seen)
    ensures !(AllKnown(Fetched(requested, get)) && NoConflict(Fetched(requested, get)))
    ensures error.UnknownFieldType? ==>
      exists f :: f in Fetched(requested, get) && f.typeTag == error.tag && LookupType(f.typeTag).None?
    ensures error.CustomFieldNameConflict? ==> RealConflict(Fetched(requested, get))
  {
    if error.UnknownFieldType? {
      var f :| f in get(CustomFieldsPath(rt)) && f.typeTag == error.tag && LookupType(f.typeTag).None?;
      FetchedMember(requested, rt, get, f);
    } else {
      RealConflictGrows(seen, Fetched(requested, get));
    }
  }

  /** Builds the mapping from custom-field name to schema property for the
      requested resource types. `get` stands for the CRM client's GET; the
      paths requested are returned in order in `requests`. The resource types
      are visited in an unspecified order. */
  method UpdateSchema(requested: set<string>, get: string -> seq<CustomField>)
    returns (result: Result<map<string, SchemaType>>, requests: seq<string>)
    // the resource types are checked before anything is fetched
    ensures !(requested <= ResourceTypes) ==>
      result == Failure(InvalidResourceTypeSet(requested)) && requests == []
    // success exactly when every tag is known and no name conflicts
    ensures result.Success? <==>
      requested <= ResourceTypes && AllKnown(Fetched(requested, get)) && NoConflict(Fetched(requested, get))
    ensures result.Success? ==> Describes(result.value, Fetched(requested, get))
    ensures result.Failure? && result.error.UnknownFieldType? ==>
      exists f :: f in Fetched(requested, get) && f.typeTag == result.error.tag && LookupType(f.typeTag).None?
    ensures result.Failure? && result.error.CustomFieldNameConflict? ==>
      RealConflict(Fetched(requested, get))
    ensures result.Failure? && result.error.InvalidResourceTypeSet? ==> !(requested <= ResourceTypes)
    // one request per resource type, each for a requested one
    ensures |requests| <= |requested|
    ensures forall p :: p in requests ==> p in RequestPaths(requested)
    ensures forall i, j :: 0 <= i < j < |requests| ==> requests[i] != requests[j]
    ensures result.Success? ==>
      |requests| == |requested| && forall rt :: rt in requested ==> CustomFieldsPath(rt) in requests
  {
    requests := [];
    if !(requested <= ResourceTypes) {
      result := Failure(InvalidResourceTypeSet(requested));
      return;
    }
    var properties: map<string, SchemaType> := map[];
    var remaining := requested;
    ghost var visited: set<string> := {};
    ghost var seen: set<CustomField> := {};
    while remaining != {}
      invariant remaining <= requested && visited == requested - remaining
      invariant seen == Fetched(visited, get)
      invariant AllKnown(seen) && NoConflict(seen) && Describes(properties, seen)
      invariant |requests| + |remaining| == |requested|
      invariant forall p :: p in requests ==> p in RequestPaths(visited)
      invariant forall i, j :: 0 <= i < j < |requests| ==> requests[i] != requests[j]
      invariant forall rt :: rt in visited ==> CustomFieldsPath(rt) in requests
      decreases remaining
    {
      var resourceType :| resourceType in remaining;
      var data := get(CustomFieldsPath(resourceType));
      LogRequest(requests, visited, resourceType);
      requests := requests + [CustomFieldsPath(resourceType)];
      remaining := remaining - {resourceType};
      FetchedInsert(visited, resourceType, get);
      visited := visited + {resourceType};
      FetchedSubset(visited, requested, get);
      var merged := MergeCustomFields(properties, data, seen);
      seen := seen + Elements(data);
      if merged.Failure? {
        MergeFailureIsReal(requested, resourceType, get, seen, merged.error);
        result := merged;
        return;
      }
      properties := merged.value;
    }
    result := Success(properties);
  }
}
