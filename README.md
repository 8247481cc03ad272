# Zendesk Sell custom-field schema builder, in Dafny

This project models the one piece of logic in the Zendesk Sell tap's base
stream (`tap_zendesk_sell/client.py`). That logic is the method
`ZendeskSellStream._update_schema` and the static tables it reads.

- **The type table.** The stream's type table has twelve keys, one per
  custom-field type tag. Each tag resolves to one schema property:
  - `address` resolves to an object of five string properties;
  - `datetime` resolves to a date-time string;
  - `multi_select_list` resolves to an array of strings;
  - the other nine resolve to a plain string.

  A tag outside the table has no type, and there is no fallback. This is
  module `CustomFieldTypes` (`custom_field_types.dfy`).
- **The builder.** This is module `ZendeskSellStream` (`update_schema.dfy`).
  `UpdateSchema` first checks that the requested resource types are among
  `deal`, `contact`, `lead` and `prospect_and_customer`. If they are not, it
  fails before anything is fetched. It then visits the requested resource
  types in an unspecified order, the way a Python set is iterated. For each
  one it issues the request `/{resource_type}/custom_fields` and merges the
  returned definitions into a name → property mapping:
  - the first occurrence of a name is inserted;
  - a repeat with an equal resolved property changes nothing;
  - a repeat with a different resolved property fails with a name conflict.

  The per-resource-type inner loop is the method `MergeCustomFields`.

The CRM client's GET is a parameter `get: string -> seq<CustomField>` of
`UpdateSchema`. It gives the definitions served at a request path.
`UpdateSchema` also returns the paths it requested, in order, as `requests`.
This makes "nothing is fetched before validation" and "one request per
resource type" statable. The requested paths never repeat, because different
resource types have different paths (`CustomFieldsPathInjective`).

The builder's postconditions do not mention iteration order. They are stated
over `Fetched(requested, get)`, the set of every definition returned for the
requested types:
- The call succeeds exactly when the requested set is valid, every tag is
  known (`AllKnown`) and no two definitions with the same name resolve
  differently (`NoConflict`).
- On success the mapping `Describes` that set. Its keys are exactly the
  fetched names, and each name maps to the resolved type of every definition
  carrying it.

`DescribedSchemaIsUnique` shows that this determines the mapping. So, as a
mapping (equal keys and equal values), the result is independent of the order
in which resource types are visited, and two calls over unchanged definitions
return equal mappings.

Each error is tied to its cause:
- `InvalidResourceTypeSet` is returned only for a requested set that is not a
  subset of the four resource types.
- An unknown type tag is returned as `UnknownFieldType(tag)`, carrying the
  offending tag. The code raises a `KeyError` from the dictionary lookup at
  client.py:70.
- `CustomFieldNameConflict` is returned only for a real conflict
  (`RealConflict`): two definitions with one name, both tags known, resolving
  to different properties. This is the error the code raises at client.py:77,
  as `ValueError("Custom field name conflict")`. The code's error carries no
  field name, and neither does `CustomFieldNameConflict`.

## Model

| member | source | states |
|---|---|---|
| `CustomFieldTypes.ParseTag` | tap_zendesk_sell/client.py:28-43 | a CRM type tag is read as a custom-field type exactly when it is one of the twelve keys of the table, and the type read carries that same tag |
| `CustomFieldTypes.ParseTagName` | tap_zendesk_sell/client.py:28-43 | every custom-field type's tag is a key of the table and reads back as that type |
| `CustomFieldTypes.LookupType` | tap_zendesk_sell/client.py:70-72 | looking up a tag fails exactly when the tag is not a key of the table (no fallback type); looking up a type's own tag gives that type's table entry |
| `CustomFieldTypes.CustomFieldTypeTable` | tap_zendesk_sell/client.py:28-43 | the table entry by entry: `address` gives the address object, `datetime` a date-time string, `multi_select_list` an array of strings, and bool, date, email, list, number, phone, string, text, url a plain string; these twelve are all the keys |
| `CustomFieldTypes.PropertyTypeCollisions` | tap_zendesk_sell/client.py:28-43 | two custom-field types resolve to equal properties exactly when they are the same type or both are plain-string types |
| `CustomFieldTypes.AddressTypeShape` | tap_zendesk_sell/client.py:14-26 | the address property is an object with exactly the properties line1, city, postal_code, state and country, each a string |
| `ZendeskSellStream.UpdateSchema` | tap_zendesk_sell/client.py:51-78 | an invalid resource-type set fails with that set and with no request made; otherwise the call succeeds exactly when every fetched tag is known and no fetched name has two different resolved types, and then the mapping describes all fetched definitions; an invalid-set failure happens only for an invalid set; an unknown-type failure names a fetched tag that is not in the table; a conflict failure means two fetched definitions of one name, both with known tags, resolve differently; every request is the custom-fields path of a requested type, no path is requested twice, and there are no more requests than requested types; on success every requested type's path was requested and there are exactly as many requests as types |
| `ZendeskSellStream.MergeCustomFields` | tap_zendesk_sell/client.py:69-77 | merging one resource type's definitions into a consistent mapping succeeds exactly when the definitions seen so far plus the new ones all have known tags and no conflict; on success the mapping describes them all and keeps every earlier entry unchanged; the failures are an unknown tag among the new definitions or a name conflict between two definitions whose tags are both known |
| `ZendeskSellStream.InsertNewName` | tap_zendesk_sell/client.py:73-74 | a name not yet in the mapping, inserted with its resolved type, keeps the mapping consistent and describing every definition seen |
| `ZendeskSellStream.RepeatSameType` | tap_zendesk_sell/client.py:75-76 | a repeated name whose resolved type equals the stored one leaves the mapping as it is and still describing every definition seen |
| `ZendeskSellStream.RepeatOtherType` | tap_zendesk_sell/client.py:75-77 | a repeated name with a known tag whose resolved type differs from the stored one is a conflict between two known-tag definitions among all the definitions, whichever resource types the two came from |
| `ZendeskSellStream.DescribesExtends` | tap_zendesk_sell/client.py:73-74 | a mapping describing more definitions keeps every entry of one describing a subset of them |
| `ZendeskSellStream.CustomFieldsPathInjective` | tap_zendesk_sell/client.py:66-68 | different resource types are fetched from different request paths |
| `ZendeskSellStream.DescribedSchemaIsUnique` | tap_zendesk_sell/client.py:64-78 | two mappings describing the same definitions are equal, so the result depends neither on visiting order nor on the call being repeated |
| `ZendeskSellStream.NoFieldsGiveEmptySchema` | tap_zendesk_sell/client.py:64-78 | with no requested resource types, or none with custom fields, the definitions are consistent and only the empty mapping describes them |
| `ZendeskSellStream.PriorityStringAndNumberMerge` | tap_zendesk_sell/client.py:73-76 | "priority" as `string` on deals and as `number` on contacts is consistent and merges into one plain-string property |
| `ZendeskSellStream.PriorityStringAndListConflict` | tap_zendesk_sell/client.py:76-77 | "priority" as `string` on deals and as `multi_select_list` on contacts has only known tags and is a real conflict, so it cannot be merged |

## Left out

- The HTTP request through the `basecrm` client (client.py:66-68) is a function parameter. Transport and authentication errors are not modelled.
- `__init__` (client.py:80-83) is not modelled. It only builds the authenticated client from configuration.
- `get_records` (client.py:85-89) is not modelled. It is an empty stub.
- The exact dictionaries produced by the schema library's `to_dict()` are not modelled. Resolved properties are an abstract `SchemaType` compared structurally. Nullability markers are not represented. The address sub-properties keep their descriptions.
- `_update_schema`'s default argument (all four resource types) is not a separate member. A caller passes `ResourceTypes`.
- A fetched record that lacks a `name` or `type` key is not modelled. Every `CustomField` carries both.
- The text of the error messages is not modelled. Only the kind of error and its payload are.
- UpdateSchema: when several errors are present, which one is reported depends on the visiting order, as in the source. The contract says only that the error reported is a real one.
- The insertion order of the keys is not modelled. The source builds a Python dict, whose key order follows the order in which resource types and fields are visited (client.py:64-74). The model's `map` is unordered, and order independence is stated as equality of mappings.
