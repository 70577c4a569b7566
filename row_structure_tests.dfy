/**
 * The unit tests of RowStructure as verified client code: the four
 * structures the tests declare, and one method per test whose
 * postconditions are the test's assertions.
 */
module StructureTests {
  import opened Wrappers
  import opened FieldMap
  import opened Structure

  /** Sets a relation name but defines no field. */
  const FailingFieldDefinitionStructure := Initializer(Some("plop"), [], None)

  /** Defines a field but sets no relation name. */
  const FailingRelationNameStructure := Initializer(None, [Field("pika", "int4")], None)

  /** Relation `pika` with the one field `pika => int4`, no primary key. */
  const GoodStructure := Initializer(Some("pika"), [Field("pika", "int4")], None)

  /** Relation `chu` with the one field `chu => bool`, primary key `['chu']`. */
  const ChuStructure := Initializer(Some("chu"), [Field("chu", "bool")], Some(["chu"]))

  /** Adding `chu => bool` to GoodStructure's definition appends it after `pika`. */
  lemma AddChuToGood()
    ensures Put([Field("pika", "int4")], "chu", "bool") == [Field("pika", "int4"), Field("chu", "bool")]
  {
  }

  /** Builds a GoodStructure, which construction accepts. */
  method NewGoodStructure() returns (s: RowStructure)
    ensures s.Valid() && fresh(s)
    ensures s.relationName == Some("pika")
    ensures s.fieldDefinitions == [Field("pika", "int4")]
    ensures s.primaryKey == []
  {
    var r := RowStructure.Create(GoodStructure);
    s := r.value;
  }

  /** Construction rejects each failing structure for its own reason and accepts GoodStructure. */
  method TestConstructor()
    returns (noRelation: Result<RowStructure, Error>, noField: Result<RowStructure, Error>,
             good: Result<RowStructure, Error>)
    ensures noRelation == Failure(ModelError(RelationNameMissing))
    ensures noField == Failure(ModelError(FieldDefinitionMissing))
    ensures good.Success?
  {
    noRelation := RowStructure.Create(FailingRelationNameStructure);
    noField := RowStructure.Create(FailingFieldDefinitionStructure);
    good := RowStructure.Create(GoodStructure);
  }

  /** GoodStructure inheriting ChuStructure returns itself and gains `chu` after `pika`. */
  method TestInherits() returns (chained: bool, definition: seq<Field>)
    ensures chained
    ensures definition == [Field("pika", "int4"), Field("chu", "bool")]
  {
    var s := NewGoodStructure();
    var c := RowStructure.Create(ChuStructure);
    var chu := c.value;
    var r := s.Inherits(chu);
    AddChuToGood();
    assert PutAll([Field("pika", "int4")], [Field("chu", "bool")])
        == Put([Field("pika", "int4")], "chu", "bool");
    chained := r == s;
    definition := s.GetDefinition();
  }

  /** addField appends a new field and returns the structure; null name or type is refused. */
  method TestAddField()
    returns (before: seq<Field>, after: seq<Field>,
             nullName: Result<RowStructure, Error>, nullType: Result<RowStructure, Error>)
    ensures before == [Field("pika", "int4")]
    ensures after == [Field("pika", "int4"), Field("chu", "bool")]
    ensures nullName == Failure(InvalidArgument("name"))
    ensures nullType == Failure(InvalidArgument("type"))
  {
    var s := NewGoodStructure();
    before := s.GetDefinition();
    var r := s.AddField(Some("chu"), Some("bool"));
    AddChuToGood();
    after := r.value.GetDefinition();
    nullName := s.AddField(None, Some("int4"));
    nullType := s.AddField(Some("name"), None);
  }

  /** The field names follow the definition's order. */
  method TestGetFieldNames() returns (before: seq<string>, after: seq<string>)
    ensures before == ["pika"]
    ensures after == ["pika", "chu"]
  {
    var s := NewGoodStructure();
    before := s.GetFieldNames();
    var r := s.AddField(Some("chu"), Some("bool"));
    AddChuToGood();
    after := r.value.GetFieldNames();
  }

  /** hasField is true for `pika`, false for `chu` until `chu` is added. */
  method TestHasField()
    returns (pika: Result<bool, Error>, chuBefore: Result<bool, Error>, chuAfter: Result<bool, Error>)
    ensures pika == Success(true)
    ensures chuBefore == Success(false)
    ensures chuAfter == Success(true)
  {
    var s := NewGoodStructure();
    pika := s.HasField(Some("pika"));
    chuBefore := s.HasField(Some("chu"));
    var r := s.AddField(Some("chu"), Some("bool"));
    AddChuToGood();
    chuAfter := r.value.HasField(Some("chu"));
  }

  /** getTypeFor: the type of a defined field, refusal of null, error for an undefined field. */
  method TestGetTypeFor()
    returns (pika: Result<string, Error>, nullName: Result<string, Error>,
             undefined: Result<string, Error>, chu: Result<string, Error>)
    ensures pika == Success("int4")
    ensures nullName == Failure(InvalidArgument("name"))
    ensures undefined == Failure(ModelError(UndefinedField("chu")))
    ensures chu == Success("bool")
  {
    var s := NewGoodStructure();
    pika := s.GetTypeFor(Some("pika"));
    nullName := s.GetTypeFor(None);
    undefined := s.GetTypeFor(Some("chu"));
    var r := s.AddField(Some("chu"), Some("bool"));
    AddChuToGood();
    chu := r.value.GetTypeFor(Some("chu"));
  }

  /** The definition of GoodStructure, before and after adding `chu`. */
  method TestGetDefinition() returns (before: seq<Field>, after: seq<Field>)
    ensures before == [Field("pika", "int4")]
    ensures after == [Field("pika", "int4"), Field("chu", "bool")]
  {
    var s := NewGoodStructure();
    before := s.GetDefinition();
    var r := s.AddField(Some("chu"), Some("bool"));
    AddChuToGood();
    after := r.value.GetDefinition();
  }

  /** GoodStructure's relation name is `pika`. */
  method TestGetRelationName() returns (name: string)
    ensures name == "pika"
  {
    var s := NewGoodStructure();
    name := s.GetRelationName();
  }

  /** The primary key is empty by default and exactly what the hook set otherwise. */
  method TestGetPrimaryKey() returns (good: seq<string>, chu: seq<string>)
    ensures good == []
    ensures chu == ["chu"]
  {
    var s := NewGoodStructure();
    good := s.GetPrimaryKey();
    var c := RowStructure.Create(ChuStructure);
    chu := c.value.GetPrimaryKey();
  }

  /** Indexed read, write and isset follow the typed API; unset is refused and removes nothing. */
  method TestArrayAccess()
    returns (pika: Result<string, Error>, chuIsset: Result<bool, Error>, unset: Error,
             afterUnset: seq<Field>)
    ensures pika == Success("int4")
    ensures chuIsset == Success(true)
    ensures unset == ModelError(CannotUnset)
    ensures afterUnset == [Field("pika", "int4"), Field("chu", "bool")]
  {
    var s := NewGoodStructure();
    pika := s.OffsetGet(Some("pika"));
    var _ := s.OffsetSet(Some("chu"), Some("bool"));
    AddChuToGood();
    chuIsset := s.OffsetExists(Some("chu"));
    unset := s.OffsetUnset(Some("chu"));
    afterUnset := s.GetDefinition();
  }
}
