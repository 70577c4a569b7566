/**
 * The field definitions of a row structure: a PHP array from field name to
 * field type. A PHP array is an ordered map, so it is modelled as a sequence
 * of (name, type) entries in which no name occurs twice. Assigning
 * `$fields[$name] = $type` overwrites the entry in place when the name is
 * already a key and appends a new entry otherwise.
 */
module FieldMap {
  import opened Wrappers

  /** One field definition: a column name and its (opaque) type string. */
  datatype Field = Field(name: string, ftype: string)

  /** No name is a key twice: what makes a sequence of entries a PHP array. */
  predicate Distinct(defs: seq<Field>) {
    forall i, j :: 0 <= i < j < |defs| ==> defs[i].name != defs[j].name
  }

  /** The keys of the array, in order (PHP's `array_keys`). */
  function Names(defs: seq<Field>): (names: seq<string>)
    ensures |names| == |defs|
    ensures forall i :: 0 <= i < |defs| ==> names[i] == defs[i].name
  {
    if defs == [] then [] else [defs[0].name] + Names(defs[1..])
  }

  /** The type stored under `name`, if `name` is a key (`$fields[$name] ?? null`). */
  function Lookup(defs: seq<Field>, name: string): (r: Option<string>)
    ensures r.None? <==> name !in Names(defs)
    ensures r.Some? ==> Field(name, r.value) in defs
  {
    if defs == [] then None
    else if defs[0].name == name then Some(defs[0].ftype)
    else Lookup(defs[1..], name)
  }

  /** The array assignment `$fields[$name] = $ftype`. */
  function Put(defs: seq<Field>, name: string, ftype: string): (r: seq<Field>)
    requires Distinct(defs)
    ensures |defs| <= |r| <= |defs| + 1
  {
    if defs == [] then [Field(name, ftype)]
    else if defs[0].name == name then [Field(name, ftype)] + defs[1..]
    else [defs[0]] + Put(defs[1..], name, ftype)
  }

  /** The assignments `$fields[$w.name] = $w.ftype` for every `w` of `writes`, in order. */
  function PutAll(defs: seq<Field>, writes: seq<Field>): (r: seq<Field>)
    requires Distinct(defs)
    ensures Distinct(r)
    ensures |r| >= |defs|
    ensures Names(defs) <= Names(r)
    ensures writes != [] ==> r != []
  {
    if writes == [] then defs
    else
      var before := PutAll(defs, writes[..|writes| - 1]);
      var last := writes[|writes| - 1];
      PutWellFormed(before, last.name, last.ftype);
      Put(before, last.name, last.ftype)
  }

  /** The type most recently written under `name` by `writes`, if any. */
  function Latest(writes: seq<Field>, name: string): (r: Option<string>) {
    if writes == [] then None
    else if writes[|writes| - 1].name == name then Some(writes[|writes| - 1].ftype)
    else Latest(writes[..|writes| - 1], name)
  }

  /**
   * Reference definition of the key order after a series of writes: keys
   * already present keep their place, and each name not yet a key is
   * appended at its first write.
   */
  function AppendNew(names: seq<string>, added: seq<string>): (r: seq<string>) {
    if added == [] then names
    else
      var before := AppendNew(names, added[..|added| - 1]);
      var n := added[|added| - 1];
      if n in before then before else before + [n]
  }

  // ---------------------------------------------------------------------------
  // Lemmas about a single assignment

  /** Assigning to a name that is not yet a key appends the entry after all existing ones. */
  lemma {:induction false} PutNew(defs: seq<Field>, name: string, ftype: string)
    requires Distinct(defs)
    requires name !in Names(defs)
    ensures Put(defs, name, ftype) == defs + [Field(name, ftype)]
  {
    if defs != [] {
      assert defs[0].name == Names(defs)[0];
      assert Names(defs[1..]) == Names(defs)[1..];
      PutNew(defs[1..], name, ftype);
      assert defs == [defs[0]] + defs[1..];
    }
  }

  /** Assigning to an existing key replaces that entry's type in place and touches nothing else. */
  lemma {:induction false} PutExisting(defs: seq<Field>, name: string, ftype: string)
    requires Distinct(defs)
    requires name in Names(defs)
    ensures |Put(defs, name, ftype)| == |defs|
    ensures forall i :: 0 <= i < |defs| ==>
      Put(defs, name, ftype)[i] == if defs[i].name == name then Field(name, ftype) else defs[i]
  {
    var r := Put(defs, name, ftype);
    if defs[0].name == name {
      forall i | 0 < i < |defs| ensures defs[i].name != name {
        assert defs[0].name != defs[i].name;
      }
    } else {
      assert Names(defs) == [defs[0].name] + Names(defs[1..]);
      PutExisting(defs[1..], name, ftype);
      forall i | 0 < i < |defs|
        ensures r[i] == if defs[i].name == name then Field(name, ftype) else defs[i]
      {
        assert r[i] == Put(defs[1..], name, ftype)[i - 1];
        assert defs[1..][i - 1] == defs[i];
      }
    }
  }

  /** An assignment keeps the array free of duplicate keys, and never shrinks it. */
  lemma PutWellFormed(defs: seq<Field>, name: string, ftype: string)
    requires Distinct(defs)
    ensures Distinct(Put(defs, name, ftype))
    ensures |Put(defs, name, ftype)| >= |defs| && Put(defs, name, ftype) != []
    ensures Names(defs) <= Names(Put(defs, name, ftype))
  {
    PutNames(defs, name, ftype);
    var r := Put(defs, name, ftype);
    if name in Names(defs) {
      PutExisting(defs, name, ftype);
      forall i, j | 0 <= i < j < |r| ensures r[i].name != r[j].name {
        assert r[i].name == defs[i].name && r[j].name == defs[j].name;
      }
    } else {
      PutNew(defs, name, ftype);
      forall i, j | 0 <= i < j < |r| ensures r[i].name != r[j].name {
        if j == |defs| {
          assert Names(defs)[i] == r[i].name;
        }
      }
    }
  }

  /** The keys of all but the last entry, then the last entry's key. */
  lemma NamesSnoc(defs: seq<Field>)
    requires defs != []
    ensures Names(defs) == Names(defs[..|defs| - 1]) + [defs[|defs| - 1].name]
  {
  }

  /** After `$fields[$name] = $ftype`, `name` maps to `ftype` and every other key is as before. */
  lemma {:induction false} PutLookup(defs: seq<Field>, name: string, ftype: string, other: string)
    requires Distinct(defs)
    ensures Lookup(Put(defs, name, ftype), other) ==
      if other == name then Some(ftype) else Lookup(defs, other)
  {
    if defs != [] && defs[0].name != name {
      PutLookup(defs[1..], name, ftype, other);
      assert Put(defs, name, ftype)[1..] == Put(defs[1..], name, ftype);
    }
  }

  /** In a PHP array, the entry stored under a key is the only one with that key. */
  lemma LookupDistinct(defs: seq<Field>, name: string, ftype: string)
    requires Distinct(defs)
    requires Field(name, ftype) in defs
    ensures Lookup(defs, name) == Some(ftype)
  {
  }

  /** An assignment changes the key list only by appending a new key. */
  lemma PutNames(defs: seq<Field>, name: string, ftype: string)
    requires Distinct(defs)
    ensures Names(Put(defs, name, ftype)) ==
      if name in Names(defs) then Names(defs) else Names(defs) + [name]
  {
  }

  /** Assigning to a key the type it already has leaves the array unchanged. */
  lemma PutPresent(defs: seq<Field>, name: string, ftype: string)
    requires Distinct(defs)
    requires Field(name, ftype) in defs
    ensures Put(defs, name, ftype) == defs
  {
  }

  // ---------------------------------------------------------------------------
  // Lemmas about a series of assignments (the initialize() hook and inherits)

  /** The last write to a name decides its type; names never written keep theirs. */
  lemma {:induction false} PutAllLookup(defs: seq<Field>, writes: seq<Field>, name: string)
    requires Distinct(defs)
    ensures Lookup(PutAll(defs, writes), name) ==
      if name in Names(writes) then Latest(writes, name) else Lookup(defs, name)
  {
    if writes != [] {
      var init := writes[..|writes| - 1];
      var last := writes[|writes| - 1];
      var before := PutAll(defs, init);
      PutAllLookup(defs, init, name);
      PutLookup(before, last.name, last.ftype, name);
      assert PutAll(defs, writes) == Put(before, last.name, last.ftype);
      NamesSnoc(writes);
      if name != last.name {
        assert Latest(writes, name) == Latest(init, name);
        assert name in Names(writes) <==> name in Names(init);
      }
    }
  }

  /** The key order after a series of writes is the reference order `AppendNew`. */
  lemma {:induction false} PutAllNames(defs: seq<Field>, writes: seq<Field>)
    requires Distinct(defs)
    ensures Names(PutAll(defs, writes)) == AppendNew(Names(defs), Names(writes))
  {
    if writes != [] {
      var init := writes[..|writes| - 1];
      var last := writes[|writes| - 1];
      PutAllNames(defs, init);
      PutNames(PutAll(defs, init), last.name, last.ftype);
      NamesSnoc(writes);
    }
  }

  /** Existing entries keep their place: the old key list is a prefix of the new one. */
  lemma {:induction false} AppendNewExtends(names: seq<string>, added: seq<string>)
    ensures names <= AppendNew(names, added)
  {
    if added != [] {
      AppendNewExtends(names, added[..|added| - 1]);
    }
  }

  /** The keys after a series of writes are the old keys and the written names, no others. */
  lemma {:induction false} AppendNewMembers(names: seq<string>, added: seq<string>, n: string)
    ensures n in AppendNew(names, added) <==> n in names || n in added
  {
    if added != [] {
      AppendNewMembers(names, added[..|added| - 1], n);
      assert added == added[..|added| - 1] + [added[|added| - 1]];
    }
  }

  /** Writing entries whose names are all new appends them, in order, after the existing ones. */
  lemma {:induction false} PutAllFresh(defs: seq<Field>, writes: seq<Field>)
    requires Distinct(defs) && Distinct(writes)
    requires forall k :: 0 <= k < |writes| ==> writes[k].name !in Names(defs)
    ensures PutAll(defs, writes) == defs + writes
  {
    if writes != [] {
      var init := writes[..|writes| - 1];
      var last := writes[|writes| - 1];
      PutAllFresh(defs, init);
      var joined := defs + init;
      assert joined == PutAll(defs, init);
      assert last.name !in Names(joined) by {
        forall i | 0 <= i < |joined| ensures Names(joined)[i] != last.name {
          if i >= |defs| {
            assert joined[i] == writes[i - |defs|];
          }
        }
      }
      PutNew(joined, last.name, last.ftype);
      calc {
        PutAll(defs, writes);
        Put(joined, last.name, last.ftype);
        joined + [last];
        { assert writes == init + [last]; }
        defs + writes;
      }
    }
  }

  /** In a PHP array the most recent write to a key is its only entry. */
  lemma {:induction false} LatestDistinct(writes: seq<Field>, name: string)
    requires Distinct(writes)
    ensures Latest(writes, name) == Lookup(writes, name)
  {
    if writes != [] {
      var init := writes[..|writes| - 1];
      var last := writes[|writes| - 1];
      assert last == writes[|writes| - 1];
      if last.name == name {
        LookupDistinct(writes, name, last.ftype);
      } else {
        assert Distinct(init);
        LatestDistinct(init, name);
        NamesSnoc(writes);
        if name in Names(init) {
          var t := Lookup(init, name).value;
          assert Field(name, t) in writes;
          LookupDistinct(writes, name, t);
        }
      }
    }
  }

  /** Writing entries that are already present changes nothing. */
  lemma {:induction false} PutAllPresent(defs: seq<Field>, writes: seq<Field>)
    requires Distinct(defs)
    requires forall k :: 0 <= k < |writes| ==> writes[k] in defs
    ensures PutAll(defs, writes) == defs
  {
    if writes != [] {
      var last := writes[|writes| - 1];
      PutAllPresent(defs, writes[..|writes| - 1]);
      PutPresent(defs, last.name, last.ftype);
    }
  }

  /** Merging the same PHP array twice is the same as merging it once. */
  lemma PutAllIdempotent(defs: seq<Field>, writes: seq<Field>)
    requires Distinct(defs) && Distinct(writes)
    ensures PutAll(PutAll(defs, writes), writes) == PutAll(defs, writes)
  {
    var once := PutAll(defs, writes);
    forall k | 0 <= k < |writes| ensures writes[k] in once {
      var f := writes[k];
      assert f.name in Names(writes);
      PutAllLookup(defs, writes, f.name);
      LatestDistinct(writes, f.name);
      LookupDistinct(writes, f.name, f.ftype);
    }
    PutAllPresent(once, writes);
  }
}
