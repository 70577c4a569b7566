/**
 * A row structure: the schema of one database relation, with its relation
 * name, its ordered field definitions (name => type) and its primary key.
 * A concrete structure fills these in from an initialize() hook; after that
 * the fields change only through addField, inherits and indexed writes.
 */
module Structure {
  import opened Wrappers
  import opened FieldMap

  /** The condition a schema-definition exception (ModelException) reports. */
  datatype ModelErrorKind =
    | RelationNameMissing
    | FieldDefinitionMissing
    | UndefinedField(name: string)
    | CannotUnset

  /** The two kinds of exception a structure throws. */
  datatype Error =
    | InvalidArgument(param: string)   // a required argument was null
    | ModelError(kind: ModelErrorKind) // the structure cannot do what was asked

  /** `sub` occurs somewhere in `s`: what the tests check of a message. */
  predicate Contains(s: string, sub: string) {
    exists i :: 0 <= i <= |s| && sub <= s[i..]
  }

  /** The words of an exception's message that name the condition that raised it. */
  function Key(e: Error): (key: string) {
    match e
    case InvalidArgument(p) => "'" + p + "' cannot be null"
    case ModelError(RelationNameMissing) => "relation name"
    case ModelError(FieldDefinitionMissing) => "field definition"
    case ModelError(UndefinedField(n)) => "Field '" + n + "' is not defined"
    case ModelError(CannotUnset) => "Cannot unset a structure field"
  }

  /** Text placed between a lead and a tail is contained in the result. */
  lemma ContainsMiddle(lead: string, key: string, tail: string)
    ensures Contains(lead + key + tail, key)
  {
    var m := lead + key + tail;
    assert key <= m[|lead|..];
  }

  /** The exception's message: it names the condition that raised it. */
  function Message(e: Error): (m: string)
    ensures e.InvalidArgument? ==> Contains(m, "'" + e.param + "' cannot be null")
    ensures e == ModelError(RelationNameMissing) ==> Contains(m, "relation name")
    ensures e == ModelError(FieldDefinitionMissing) ==> Contains(m, "field definition")
    ensures e.ModelError? && e.kind.UndefinedField? ==>
      Contains(m, "Field '" + e.kind.name + "' is not defined")
    ensures e == ModelError(CannotUnset) ==> Contains(m, "Cannot unset a structure field")
  {
    var lead := if e.ModelError? && (e.kind.RelationNameMissing? || e.kind.FieldDefinitionMissing?)
      then "Structure has no " else "";
    var tail := if e.ModelError? && e.kind.UndefinedField? then " in the structure." else ".";
    ContainsMiddle(lead, Key(e), tail);
    lead + Key(e) + tail
  }

  /**
   * What a concrete structure's initialize() hook writes: the relation name
   * (None when the hook leaves it null), the `$this->field_definitions[...] = ...`
   * assignments in order, and the primary key (None keeps the default `[]`).
   */
  datatype Initializer = Initializer(
    relationName: Option<string>,
    fieldWrites: seq<Field>,
    primaryKey: Option<seq<string>>)

  class RowStructure {
    var relationName: Option<string>
    var fieldDefinitions: seq<Field>
    var primaryKey: seq<string>

    /** The object invariant established by construction. */
    ghost predicate Valid()
      reads this
    {
      && relationName.Some? && relationName.value != ""
      && fieldDefinitions != []
      && Distinct(fieldDefinitions)
    }

    /**
     * The properties' initial values followed by the initialize() hook,
     * which writes the properties directly. Nothing is validated yet, so
     * only Create calls it: Create validates the result before handing it out.
     */
    constructor RunHook(init: Initializer)
      ensures relationName == init.relationName
      ensures fieldDefinitions == PutAll([], init.fieldWrites)
      ensures primaryKey == if init.primaryKey.Some? then init.primaryKey.value else []
    {
      relationName := None;
      fieldDefinitions := [];
      primaryKey := [];
      new;
      if init.relationName.Some? {
        relationName := init.relationName;
      }
      fieldDefinitions := PutAll(fieldDefinitions, init.fieldWrites);
      if init.primaryKey.Some? {
        primaryKey := init.primaryKey.value;
      }
    }

    /**
     * `new ConcreteStructure()`: run the hook, then check that it set a
     * relation name and at least one field definition, in that order.
     */
    static method Create(init: Initializer) returns (r: Result<RowStructure, Error>)
      ensures r.Success? <==>
        init.relationName.Some? && init.relationName.value != "" && init.fieldWrites != []
      ensures (init.relationName.None? || init.relationName.value == "") ==>
        r == Failure(ModelError(RelationNameMissing))
      ensures init.relationName.Some? && init.relationName.value != "" && init.fieldWrites == [] ==>
        r == Failure(ModelError(FieldDefinitionMissing))
      ensures r.Success? ==>
        && fresh(r.value) && r.value.Valid()
        && r.value.relationName == init.relationName
        && r.value.fieldDefinitions == PutAll([], init.fieldWrites)
        && r.value.primaryKey == if init.primaryKey.Some? then init.primaryKey.value else []
    {
      var s := new RowStructure.RunHook(init);
      if s.relationName.None? || s.relationName.value == "" {
        return Failure(ModelError(RelationNameMissing));
      }
      if s.fieldDefinitions == [] {
        return Failure(ModelError(FieldDefinitionMissing));
      }
      return Success(s);
    }

    /** The relation name; construction guarantees it is set and not empty. */
    function GetRelationName(): (name: string)
      reads this
      requires Valid()
      ensures name != "" && relationName == Some(name)
    {
      relationName.value
    }

    /** The primary key, `[]` unless the hook set one. */
    function GetPrimaryKey(): (key: seq<string>)
      reads this
      requires Valid()
      ensures key == primaryKey
    {
      primaryKey
    }

    /** The field definitions as a value: a PHP array, so no name twice. */
    function GetDefinition(): (defs: seq<Field>)
      reads this
      requires Valid()
      ensures defs != [] && Distinct(defs)
    {
      fieldDefinitions
    }

    /** The field names: the keys of the definition, in its order. */
    function GetFieldNames(): (names: seq<string>)
      reads this
      requires Valid()
      ensures |names| == |GetDefinition()|
      ensures forall i :: 0 <= i < |names| ==> names[i] == GetDefinition()[i].name
      ensures forall i, j :: 0 <= i < j < |names| ==> names[i] != names[j]
    {
      Names(fieldDefinitions)
    }

    /** Whether `name` is a defined field; a null name is refused. */
    function HasField(name: Option<string>): (r: Result<bool, Error>)
      reads this
      requires Valid()
      ensures name.None? ==> r == Failure(InvalidArgument("name"))
      ensures name.Some? ==> r == Success(name.value in GetFieldNames())
    {
      if name.None? then Failure(InvalidArgument("name"))
      else Success(Lookup(fieldDefinitions, name.value).Some?)
    }

    /** The type of field `name`: refused when null, an error when undefined. */
    function GetTypeFor(name: Option<string>): (r: Result<string, Error>)
      reads this
      requires Valid()
      ensures name.None? ==> r == Failure(InvalidArgument("name"))
      ensures name.Some? && name.value !in GetFieldNames() ==>
        r == Failure(ModelError(UndefinedField(name.value)))
      ensures name.Some? && name.value in GetFieldNames() ==>
        r.Success? && Field(name.value, r.value) in GetDefinition()
    {
      if name.None? then Failure(InvalidArgument("name"))
      else
        match Lookup(fieldDefinitions, name.value)
        case None => Failure(ModelError(UndefinedField(name.value)))
        case Some(t) => Success(t)
    }

    /**
     * `$this->field_definitions[$name] = $ftype`, after refusing a null name
     * or type; returns the structure itself for chaining.
     */
    method AddField(name: Option<string>, ftype: Option<string>) returns (r: Result<RowStructure, Error>)
      requires Valid()
      modifies this
      ensures Valid()
      ensures name.None? ==> r == Failure(InvalidArgument("name"))
      ensures name.Some? && ftype.None? ==> r == Failure(InvalidArgument("type"))
      ensures r.Failure? ==> fieldDefinitions == old(fieldDefinitions)
      ensures name.Some? && ftype.Some? ==>
        r == Success(this) &&
        fieldDefinitions == Put(old(fieldDefinitions), name.value, ftype.value)
      ensures relationName == old(relationName) && primaryKey == old(primaryKey)
    {
      if name.None? {
        return Failure(InvalidArgument("name"));
      }
      if ftype.None? {
        return Failure(InvalidArgument("type"));
      }
      PutWellFormed(fieldDefinitions, name.value, ftype.value);
      fieldDefinitions := Put(fieldDefinitions, name.value, ftype.value);
      return Success(this);
    }

    /**
     * Add every field of `other`, in `other`'s order, through AddField;
     * relation name and primary key stay this structure's. Returns itself.
     */
    method Inherits(other: RowStructure) returns (r: RowStructure)
      requires Valid() && other.Valid()
      modifies this
      ensures Valid() && r == this
      ensures fieldDefinitions == PutAll(old(fieldDefinitions), old(other.fieldDefinitions))
      ensures relationName == old(relationName) && primaryKey == old(primaryKey)
    {
      var parent := other.GetDefinition();
      var i := 0;
      while i < |parent|
        invariant 0 <= i <= |parent|
        invariant Valid()
        invariant fieldDefinitions == PutAll(old(fieldDefinitions), parent[..i])
        invariant relationName == old(relationName) && primaryKey == old(primaryKey)
      {
        var _ := AddField(Some(parent[i].name), Some(parent[i].ftype));
        assert parent[..i + 1][..i] == parent[..i];
        i := i + 1;
      }
      assert parent[..i] == parent;
      return this;
    }

    /** `isset($structure[$name])`: the same answer as HasField. */
    function OffsetExists(name: Option<string>): (r: Result<bool, Error>)
      reads this
      requires Valid()
      ensures r == HasField(name)
    {
      HasField(name)
    }

    /** `$structure[$name]`: the same answer as GetTypeFor. */
    function OffsetGet(name: Option<string>): (r: Result<string, Error>)
      reads this
      requires Valid()
      ensures r == GetTypeFor(name)
    {
      GetTypeFor(name)
    }

    /** `$structure[$name] = $ftype`: the same effect as AddField. */
    method OffsetSet(name: Option<string>, ftype: Option<string>)
      returns (r: Result<RowStructure, Error>)
      requires Valid()
      modifies this
      ensures Valid()
      ensures name.None? ==> r == Failure(InvalidArgument("name"))
      ensures name.Some? && ftype.None? ==> r == Failure(InvalidArgument("type"))
      ensures r.Failure? ==> fieldDefinitions == old(fieldDefinitions)
      ensures name.Some? && ftype.Some? ==>
        r == Success(this) &&
        fieldDefinitions == Put(old(fieldDefinitions), name.value, ftype.value)
      ensures relationName == old(relationName) && primaryKey == old(primaryKey)
    {
      r := AddField(name, ftype);
    }

    /**
     * `unset($structure[$name])`: always refused. The method may modify
     * nothing, so no field is ever removed.
     */
    method OffsetUnset(name: Option<string>) returns (e: Error)
      requires Valid()
      ensures e == ModelError(CannotUnset)
      ensures Contains(Message(e), "Cannot unset a structure field")
    {
      e := ModelError(CannotUnset);
    }
  }

  /** Adding a field makes HasField true for that name and changes it for no other name. */
  lemma AddFieldHasField(before: seq<Field>, name: string, ftype: string, other: string)
    requires Distinct(before)
    ensures other in Names(Put(before, name, ftype)) <==> other == name || other in Names(before)
  {
  }

  /** After AddField, GetTypeFor answers the type just given; other fields keep theirs. */
  lemma AddFieldTypeFor(before: seq<Field>, name: string, ftype: string, other: string)
    requires Distinct(before)
    ensures Lookup(Put(before, name, ftype), name) == Some(ftype)
    ensures other != name ==> Lookup(Put(before, name, ftype), other) == Lookup(before, other)
  {
    PutLookup(before, name, ftype, name);
    PutLookup(before, name, ftype, other);
  }

  /**
   * After inherits, a field of the parent has the parent's type, any other
   * field keeps its own, and the existing fields keep their place ahead of
   * the parent's new ones.
   */
  lemma InheritsDefinition(own: seq<Field>, parent: seq<Field>, name: string)
    requires Distinct(own) && Distinct(parent)
    ensures Lookup(PutAll(own, parent), name) ==
      if name in Names(parent) then Lookup(parent, name) else Lookup(own, name)
    ensures Names(PutAll(own, parent)) == AppendNew(Names(own), Names(parent))
    ensures Names(own) <= Names(PutAll(own, parent))
  {
    PutAllLookup(own, parent, name);
    LatestDistinct(parent, name);
    PutAllNames(own, parent);
    AppendNewExtends(Names(own), Names(parent));
  }
}
