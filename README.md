# RowStructure: a verified model of Pomm's row-structure schema registry

A `RowStructure` in the PommProject ModelManager describes one database
relation: its relation name, its field definitions (an ordered PHP array
from field name to type string) and its primary key. A concrete structure
fills these properties in from its `initialize()` hook. Construction then
checks that a relation name is set and that at least one field is defined.
After that the definition changes only through `addField`, `inherits` and
indexed writes (`$structure['chu'] = 'bool'`). Indexed `unset` is always
refused.

The production class is not part of this model. What is modelled is the
contract its unit test asserts (`sources/tests/Unit/Model/RowStructure.php`),
together with the four structures that test declares.

Files:

- `wrappers.dfy` (module `Wrappers`): `Option`, which stands for a PHP argument
  that may be `null`, and `Result`, which stands for a call that returns or throws.
- `field_map.dfy` (module `FieldMap`): the field definitions as a sequence of
  `Field(name, ftype)` entries with distinct names. This is how a PHP array
  behaves. `Put` is the assignment `$a[$name] = $type`: it overwrites an
  existing key in place and appends a new one. `PutAll` is a series of such
  assignments. `AppendNew` is an independent reference definition of the
  resulting key order. The lemmas relate lookups and key order to these
  operations.
- `row_structure.dfy` (module `Structure`): the two error kinds, their
  messages, and the class `RowStructure`. The class has mutable fields
  `relationName`, `fieldDefinitions` and `primaryKey`. The getters are
  functions that read the object. `AddField`, `Inherits` and `OffsetSet` are
  methods that modify it. `Inherits` is a loop of `AddField` calls over a
  snapshot of the parent's definition.
- `row_structure_tests.dfy` (module `StructureTests`): the test's fixtures as
  `Initializer` values. It also has one method per test method. Its
  postconditions are that test's assertions about results and error kinds.
  The message texts the test checks follow from `Message`'s contract for
  each error kind, and for unset also from `OffsetUnset`'s.

Choices where the test leaves behaviour open:

- `hasField(null)` is refused with `InvalidArgument("name")`, the same way
  `getTypeFor(null)` is.
- When both arguments of `addField` are null, the null name is reported.
- When a hook sets neither a relation name nor a field, construction reports
  the missing relation name.
- A relation name counts as set only when it is non-null and non-empty.
- When `inherits` meets a name that is already defined, the field keeps its
  position and takes the parent's type. This is PHP array assignment.
- `getPrimaryKey()` returns the `primaryKey` field as it is. It is `[]` unless
  the hook set it (see `TestGetPrimaryKey`). `AddField` and `Inherits` never
  change it.

## Model

| member | source | states |
|---|---|---|
| `FieldMap.Names` | sources/tests/Unit/Model/RowStructure.php:65-68 | the key list has one name per entry, and each name sits at the same index as its entry |
| `FieldMap.Lookup` | sources/tests/Unit/Model/RowStructure.php:87-96 | a lookup finds nothing exactly when the name is not a key; a type it finds is stored under that name |
| `FieldMap.Put` | sources/tests/Unit/Model/RowStructure.php:49-52 | the array assignment `$fields[$name] = $type`, used by the hooks, `addField` and the indexed write; its own contract bounds only the length (zero or one more entry); `PutNew`, `PutExisting`, `PutWellFormed` (old keys stay a prefix) and `PutLookup` state what it does |
| `FieldMap.PutNew` | sources/tests/Unit/Model/RowStructure.php:49-52 | assigning to a name that is not yet a key appends `name => type` after the existing entries, which stay unchanged |
| `FieldMap.PutExisting` | sources/tests/Unit/Model/RowStructure.php:49-52 | assigning to an existing key replaces that entry's type in place; the length and every other entry stay the same |
| `FieldMap.PutWellFormed` | sources/tests/Unit/Model/RowStructure.php:49-52 | an assignment never makes a name occur twice, never shortens the array, and keeps every old key: the old key list is a prefix of the new one |
| `FieldMap.PutAll` | sources/tests/Unit/Model/RowStructure.php:36-43 | a series of assignments keeps the array free of duplicate names and keeps every old key, with the old key list a prefix of the new one; at least one write leaves it non-empty |
| `FieldMap.PutLookup` | sources/tests/Unit/Model/RowStructure.php:95-96 | after an assignment, the assigned name has the new type and every other name has the type it had before |
| `FieldMap.LookupDistinct` | sources/tests/Unit/Model/RowStructure.php:87-88 | the type stored in an entry is the type a lookup of its name returns |
| `FieldMap.PutNames` | sources/tests/Unit/Model/RowStructure.php:65-68 | an assignment leaves the key list unchanged for an existing name and appends the name otherwise |
| `FieldMap.PutPresent` | sources/tests/Unit/Model/RowStructure.php:49-52 | re-assigning a field the type it already has changes nothing |
| `FieldMap.PutAllLookup` | sources/tests/Unit/Model/RowStructure.php:162-178 | after a series of writes, a written name has the type of its last write and every other name keeps its type |
| `FieldMap.PutAllNames` | sources/tests/Unit/Model/RowStructure.php:36-43 | the key order after a series of writes is the reference order `AppendNew`: old keys stay, and new names are appended at their first write |
| `FieldMap.AppendNewExtends` | sources/tests/Unit/Model/RowStructure.php:36-43 | the old key list is a prefix of the key list after more writes, so existing fields keep their positions |
| `FieldMap.AppendNewMembers` | sources/tests/Unit/Model/RowStructure.php:36-43 | after the writes, the keys are exactly the old keys plus the written names |
| `FieldMap.PutAllFresh` | sources/tests/Unit/Model/RowStructure.php:38-42 | merging an array whose names are all new gives the own entries followed by the other's entries, in order |
| `FieldMap.LatestDistinct` | sources/tests/Unit/Model/RowStructure.php:38-42 | in an array with distinct names, the latest write to a name is its only entry |
| `FieldMap.PutAllPresent` | sources/tests/Unit/Model/RowStructure.php:38-42 | writing entries that are already present leaves the array unchanged |
| `FieldMap.PutAllIdempotent` | sources/tests/Unit/Model/RowStructure.php:38-42 | merging the same array twice gives the same result as merging it once |
| `Structure.Message` | sources/tests/Unit/Model/RowStructure.php:19-141 | each message contains the text the test checks for its condition: "relation name", "field definition", "'<param>' cannot be null", "Field '<name>' is not defined" and "Cannot unset a structure field" |
| `Structure.RowStructure.RunHook` | sources/tests/Unit/Model/RowStructure.php:146-179 | the hook starts from a null relation name, no fields and an empty primary key; it sets the relation name and primary key only when it writes them, and its field writes are PHP array assignments; only `Create` calls it, and Create validates the result before handing it out |
| `Structure.RowStructure.Create` | sources/tests/Unit/Model/RowStructure.php:17-34 | construction succeeds exactly when the hook set a non-empty relation name and wrote at least one field; otherwise it fails with RelationNameMissing (checked first) or FieldDefinitionMissing; a new structure holds exactly what the hook wrote |
| `Structure.RowStructure.GetRelationName` | sources/tests/Unit/Model/RowStructure.php:110-116 | a constructed structure always has a non-empty relation name, and this returns it |
| `Structure.RowStructure.GetPrimaryKey` | sources/tests/Unit/Model/RowStructure.php:118-128 | returns the primary key the hook set, `[]` by default (`RunHook`, `Create`); `AddField`, `Inherits` and `OffsetSet` leave it unchanged |
| `Structure.RowStructure.GetDefinition` | sources/tests/Unit/Model/RowStructure.php:100-108 | the definition is never empty and never lists a name twice |
| `Structure.RowStructure.GetFieldNames` | sources/tests/Unit/Model/RowStructure.php:62-70 | the field names are exactly the keys of `GetDefinition()`, in its order, with no name twice |
| `Structure.RowStructure.HasField` | sources/tests/Unit/Model/RowStructure.php:72-82 | true exactly when the name is a defined field; a null name fails with InvalidArgument("name") |
| `Structure.RowStructure.GetTypeFor` | sources/tests/Unit/Model/RowStructure.php:84-98 | a null name fails with InvalidArgument("name"); an undefined name fails with UndefinedField(name); a defined name returns the type stored in its entry |
| `Structure.RowStructure.AddField` | sources/tests/Unit/Model/RowStructure.php:46-60 | a null name or type fails with InvalidArgument before anything changes; otherwise it performs the array assignment and returns the same structure; relation name and primary key are unchanged |
| `Structure.RowStructure.Inherits` | sources/tests/Unit/Model/RowStructure.php:36-44 | returns the same structure; its definition becomes the parent's pairs applied after its own entries, in the parent's order, as `addField` calls; relation name and primary key are unchanged |
| `Structure.RowStructure.OffsetExists` | sources/tests/Unit/Model/RowStructure.php:137-138 | `isset($s[$name])` gives the same answer as `hasField` |
| `Structure.RowStructure.OffsetGet` | sources/tests/Unit/Model/RowStructure.php:133-134 | `$s[$name]` gives the same answer as `getTypeFor`, errors included |
| `Structure.RowStructure.OffsetSet` | sources/tests/Unit/Model/RowStructure.php:136 | `$s[$name] = $type` has the same effect and result as `addField` |
| `Structure.RowStructure.OffsetUnset` | sources/tests/Unit/Model/RowStructure.php:139-141 | `unset($s[$name])` always fails with CannotUnset, whatever the name, and its message contains "Cannot unset a structure field"; the method may modify nothing, so no field is ever removed |
| `Structure.AddFieldHasField` | sources/tests/Unit/Model/RowStructure.php:72-82 | after `addField(n, t)`, a name is a field exactly when it is `n` or was a field before |
| `Structure.AddFieldTypeFor` | sources/tests/Unit/Model/RowStructure.php:84-98 | after `addField(n, t)`, `n` has type `t` and every other field keeps its type |
| `Structure.InheritsDefinition` | sources/tests/Unit/Model/RowStructure.php:36-44 | after inheriting, a parent field has the parent's type and every other field keeps its own; the own fields keep their positions ahead of the new ones, in the order `AppendNew` gives |
| `StructureTests.AddChuToGood` | sources/tests/Unit/Model/RowStructure.php:49-52 | assigning `chu => bool` to `['pika' => 'int4']` gives `['pika' => 'int4', 'chu' => 'bool']` |
| `StructureTests.NewGoodStructure` | sources/tests/Unit/Model/RowStructure.php:162-169 | GoodStructure constructs, with relation `pika`, the single field `pika => int4` and no primary key |
| `StructureTests.TestConstructor` | sources/tests/Unit/Model/RowStructure.php:17-34 | FailingRelationNameStructure fails with RelationNameMissing; FailingFieldDefinitionStructure fails with FieldDefinitionMissing; GoodStructure constructs |
| `StructureTests.TestInherits` | sources/tests/Unit/Model/RowStructure.php:36-44 | `inherits` returns the structure, and the definition becomes `['pika' => 'int4', 'chu' => 'bool']` |
| `StructureTests.TestAddField` | sources/tests/Unit/Model/RowStructure.php:46-60 | `['pika' => 'int4']` becomes `['pika' => 'int4', 'chu' => 'bool']`; a null name fails with InvalidArgument("name") and a null type with InvalidArgument("type") |
| `StructureTests.TestGetFieldNames` | sources/tests/Unit/Model/RowStructure.php:62-70 | the field names are `['pika']`, then `['pika', 'chu']` |
| `StructureTests.TestHasField` | sources/tests/Unit/Model/RowStructure.php:72-82 | `pika` is a field; `chu` is not until it is added |
| `StructureTests.TestGetTypeFor` | sources/tests/Unit/Model/RowStructure.php:84-98 | `pika` has type `int4`; a null name fails with InvalidArgument("name"); `chu` fails with UndefinedField("chu") until it is added, then has type `bool` |
| `StructureTests.TestGetDefinition` | sources/tests/Unit/Model/RowStructure.php:100-108 | the definition is `['pika' => 'int4']`, then `['pika' => 'int4', 'chu' => 'bool']` |
| `StructureTests.TestGetRelationName` | sources/tests/Unit/Model/RowStructure.php:110-116 | GoodStructure's relation name is `pika` |
| `StructureTests.TestGetPrimaryKey` | sources/tests/Unit/Model/RowStructure.php:118-128 | the primary key is empty by default and exactly `['chu']` for ChuStructure |
| `StructureTests.TestArrayAccess` | sources/tests/Unit/Model/RowStructure.php:130-143 | `$s['pika']` is `int4`; after `$s['chu'] = 'bool'`, `isset($s['chu'])` holds; `unset` fails with CannotUnset and the definition is left unchanged |

## Left out

- The production `RowStructure` class is not part of this model. Its behaviour is modelled from the contract its unit test asserts. Where the test is silent, the choices listed above apply.
- The `\ArrayAccess` interface and PHP's operator dispatch are not modelled. The four indexed operations are ordinary members (`OffsetExists`, `OffsetGet`, `OffsetSet`, `OffsetUnset`).
- The exception class hierarchy is not modelled. The model keeps the two error kinds and the condition that raised each. Message texts are chosen so that they contain what the test checks; the rest of each message is not the source's.
- PHP's array-key coercion is not modelled. PHP turns a numeric string key such as `"1"` into an integer key; here field names are opaque strings.
- Field type strings are opaque. No validity check is made on them, and the source makes none either.
- Subclassing is not modelled. The `initialize()` hook of a subclass becomes an `Initializer` value with the hook's writes: the relation name, the field assignments in order, and the primary key.
- The PHP type hint on `inherits` is not modelled. A null or non-structure argument would be a PHP type error, outside this model.
- `sources/tests/Fixture/WriteFixtureModel.php` is not modelled. It creates and drops a temporary table through a database session, which is I/O.
