/** How the enumeration writer finds or creates the HDF5 data type of an
    enumeration (`HDF5EnumWriter.getOrCreateEnumDataType`, `getEnumType`,
    `getAnonType`). A file keeps a registry of committed (named) data types
    under paths built from their names. A type's identity is its id, and
    its content is its list of values; two types are equal when their
    values are. */
module EnumTypes {

  import opened Wrappers

  /** The id of an HDF5 data type. `getDataTypeId` answers -1 for a path
      with no committed type; here that is a path missing from the map.
      Java opens a new handle on every `getDataTypeId` call, so a Java
      `int` is not stable across calls; a `TypeId` names the data type
      itself, and "the same id" means the same committed type. */
  type TypeId = nat

  /** The values of an enumeration, in order. */
  type Values = seq<string>

  /** The folder and prefix under which enumeration types are committed. */
  const EnumPrefix: string := "/__DATA_TYPES__/Enum_"

  /** The name an anonymous enumeration type reports. */
  const AnonymousName: string := "__anonymous__"

  /** `HDF5Utils.createDataTypePath(ENUM_PREFIX, name)`. */
  function DataTypePath(name: string): string
  {
    EnumPrefix + name
  }

  /** Different names never share a path. */
  lemma DataTypePathInjective(a: string, b: string)
    requires DataTypePath(a) == DataTypePath(b)
    ensures a == b
  {
    assert a == DataTypePath(a)[|EnumPrefix|..];
    assert b == DataTypePath(b)[|EnumPrefix|..];
  }

  /** The file's data types: the committed ones by path, the values of every
      type created so far by id, and the id the next created type gets. */
  datatype Store = Store(committed: map<string, TypeId>, defs: map<TypeId, Values>, next: TypeId)

  /** Committed paths name types that exist, and every existing id is
      below the next one. */
  predicate ValidStore(s: Store)
  {
    && (forall p :: p in s.committed ==> s.committed[p] in s.defs)
    && (forall id :: id in s.defs ==> id < s.next)
  }

  /** The observable steps of a resolution, in order. */
  datatype Action =
    | Created(id: TypeId, values: Values)       // createDataTypeEnum
    | Renamed(from: string, to: string)         // renameNamedDataType
    | Committed(path: string, id: TypeId)       // commitDataType
    | Checked(id: TypeId, values: Values)       // checkEnumValues

  /** `checkEnumValues` rejects a committed type whose values differ. */
  datatype EnumError = ValuesDiffer(name: string)

  datatype Outcome = Outcome(id: TypeId, store: Store, actions: seq<Action>)

  predicate IsCommit(a: Action) { a.Committed? }

  predicate IsRename(a: Action) { a.Renamed? }

  predicate IsCreate(a: Action) { a.Created? }

  /** `getOrCreateEnumDataType(nameOrNull, values, preference, check)`.
      `moveOutOfTheWay` is `moveLinkOutOfTheWay`: the path the old type is
      renamed to. */
  function Resolve(s: Store, nameOrNull: Option<string>, values: Values, preference: bool, check: bool,
                   moveOutOfTheWay: string -> string): (r: Result<Outcome, EnumError>)
    requires ValidStore(s)
    ensures r.Success? ==> ValidStore(r.value.store) && r.value.id in r.value.store.defs
    ensures r.Success? ==> forall id :: id in s.defs ==> id in r.value.store.defs && r.value.store.defs[id] == s.defs[id]
  {
    var path := if nameOrNull.Some? then DataTypePath(nameOrNull.value) else "";
    var typeExists := nameOrNull.Some? && path in s.committed;
    if !typeExists || !preference then
      var created := s.next;
      var s1 := s.(defs := s.defs[created := values], next := s.next + 1);
      var committedId := if typeExists then s.committed[path] else 0;
      var typesAreEqual := typeExists && s.defs[committedId] == values;
      var commitType := nameOrNull.Some? && (!typeExists || !typesAreEqual);
      var rename := typeExists && commitType;
      var s2 := if rename then s1.(committed := (s1.committed - {path})[moveOutOfTheWay(path) := committedId]) else s1;
      var id := if typesAreEqual then committedId else created;
      var s3 := if commitType then s2.(committed := s2.committed[path := id]) else s2;
      Success(Outcome(id, s3,
        [Created(created, values)]
        + (if rename then [Renamed(path, moveOutOfTheWay(path))] else [])
        + (if commitType then [Committed(path, id)] else [])))
    else
      var committedId := s.committed[path];
      if check && s.defs[committedId] != values then Failure(ValuesDiffer(nameOrNull.value))
      else Success(Outcome(committedId, s, if check then [Checked(committedId, values)] else []))
  }

  /** An anonymous type is never looked up and never committed: a new type
      with the values is created, whatever the registry holds. */
  lemma AnonymousNeverCommitted(s: Store, values: Values, preference: bool, check: bool, move: string -> string)
    requires ValidStore(s)
    ensures var r := Resolve(s, None, values, preference, check, move);
      && r.Success?
      && r.value.id == s.next
      && r.value.store == Store(s.committed, s.defs[s.next := values], s.next + 1)
      && r.value.actions == [Created(s.next, values)]
  {
  }

  /** A committed type that has preference is returned as it is: nothing is
      created, renamed or committed, and its values are compared only when
      checking is requested. */
  lemma PreferredTypeReused(s: Store, name: string, values: Values, check: bool, move: string -> string)
    requires ValidStore(s) && DataTypePath(name) in s.committed
    ensures var id := s.committed[DataTypePath(name)];
      var r := Resolve(s, Some(name), values, true, check, move);
      && (r.Failure? <==> check && s.defs[id] != values)
      && (r.Success? ==>
            r.value.id == id && r.value.store == s
            && r.value.actions == (if check then [Checked(id, values)] else []))
  {
  }

  /** Without preference, a committed type equal to the new one is
      returned; the new type is created for the comparison, but nothing is
      renamed or committed. */
  lemma EqualTypeReused(s: Store, name: string, values: Values, check: bool, move: string -> string)
    requires ValidStore(s) && DataTypePath(name) in s.committed
    requires s.defs[s.committed[DataTypePath(name)]] == values
    ensures var r := Resolve(s, Some(name), values, false, check, move);
      && r.Success? && r.value.id == s.committed[DataTypePath(name)]
      && r.value.store.committed == s.committed
      && r.value.actions == [Created(s.next, values)]
  {
  }

  /** Without preference, a committed type that differs is renamed out of
      the way, and then the new type is committed under the name's path. */
  lemma DifferentTypeReplaced(s: Store, name: string, values: Values, check: bool, move: string -> string)
    requires ValidStore(s) && DataTypePath(name) in s.committed
    requires s.defs[s.committed[DataTypePath(name)]] != values
    requires move(DataTypePath(name)) != DataTypePath(name)
    ensures var path := DataTypePath(name);
      var r := Resolve(s, Some(name), values, false, check, move);
      && r.Success? && r.value.id == s.next && r.value.store.defs[s.next] == values
      && r.value.store.committed == s.committed[move(path) := s.committed[path]][path := s.next]
      && r.value.actions == [Created(s.next, values), Renamed(path, move(path)), Committed(path, s.next)]
  {
    var path := DataTypePath(name);
    var old_ := s.committed[path];
    var removed := (s.committed - {path})[move(path) := old_][path := s.next];
    assert removed == s.committed[move(path) := old_][path := s.next];
  }

  /** A name with no committed type gets the new type committed under its
      path. */
  lemma NewNameCommitted(s: Store, name: string, values: Values, preference: bool, check: bool,
                         move: string -> string)
    requires ValidStore(s) && DataTypePath(name) !in s.committed
    ensures var r := Resolve(s, Some(name), values, preference, check, move);
      && r.Success? && r.value.id == s.next && r.value.store.defs[s.next] == values
      && r.value.store.committed == s.committed[DataTypePath(name) := s.next]
      && r.value.actions == [Created(s.next, values), Committed(DataTypePath(name), s.next)]
  {
  }

  /** For all inputs: a commit happens only for a name, and under its path;
      a rename only when a committed type existed, and only before a
      commit; the committed types of other paths stay (unless one is the
      path the old type is moved to). */
  lemma CommitAndRenameDiscipline(s: Store, nameOrNull: Option<string>, values: Values, preference: bool,
                                  check: bool, move: string -> string)
    requires ValidStore(s)
    ensures var r := Resolve(s, nameOrNull, values, preference, check, move);
      r.Success? ==>
        && (forall i :: 0 <= i < |r.value.actions| && IsCommit(r.value.actions[i]) ==>
              nameOrNull.Some? && r.value.actions[i].path == DataTypePath(nameOrNull.value))
        && (forall i :: 0 <= i < |r.value.actions| && IsRename(r.value.actions[i]) ==>
              nameOrNull.Some? && DataTypePath(nameOrNull.value) in s.committed
              && i + 1 < |r.value.actions| && IsCommit(r.value.actions[i + 1]))
        && (nameOrNull.None? ==> r.value.store.committed == s.committed)
        && (forall p ::
              (p in s.committed && (nameOrNull.None? || p != DataTypePath(nameOrNull.value))
               && p != move(DataTypePath(if nameOrNull.Some? then nameOrNull.value else ""))) ==>
              p in r.value.store.committed && r.value.store.committed[p] == s.committed[p])
  {
  }

  /** The type returned has the requested values, except when a committed
      type with preference is returned without checking. */
  lemma ResolvedValues(s: Store, nameOrNull: Option<string>, values: Values, preference: bool,
                       check: bool, move: string -> string)
    requires ValidStore(s)
    ensures var r := Resolve(s, nameOrNull, values, preference, check, move);
      r.Success? && r.value.store.defs[r.value.id] != values ==>
        nameOrNull.Some? && DataTypePath(nameOrNull.value) in s.committed && preference && !check
  {
  }

  /** Resolving a name a second time with the same values returns the same
      type and commits nothing, with or without preference. */
  lemma {:induction false} ResolveTwice(s: Store, name: string, values: Values, first: bool, second: bool,
                                        check: bool, move: string -> string)
    requires ValidStore(s)
    requires Resolve(s, Some(name), values, first, true, move).Success?
    ensures var o := Resolve(s, Some(name), values, first, true, move).value;
      var r := Resolve(o.store, Some(name), values, second, check, move);
      && r.Success? && r.value.id == o.id
      && r.value.store.committed == o.store.committed
      && (forall i :: 0 <= i < |r.value.actions| ==> !IsCommit(r.value.actions[i]) && !IsRename(r.value.actions[i]))
  {
    var path := DataTypePath(name);
    var o := Resolve(s, Some(name), values, first, true, move).value;
    assert path in o.store.committed && o.store.committed[path] == o.id;
    assert o.store.defs[o.id] == values;
  }

  /** What `getEnumType` returns (besides the native type id, which the
      library derives from the storage type). */
  datatype EnumerationType = EnumerationType(storageTypeId: TypeId, name: string, values: Values)

  /** The registry of one open file. */
  class EnumTypeRegistry {
    var committed: map<string, TypeId>
    var defs: map<TypeId, Values>
    var next: TypeId
    /** The writer's `keepDataSetIfExists`: whether a committed type has
        preference over a new one. */
    const keepDataSetIfExists: bool
    /** `moveLinkOutOfTheWay`. */
    const moveOutOfTheWay: string -> string

    function State(): Store
      reads this
    {
      Store(committed, defs, next)
    }

    predicate Valid()
      reads this
    {
      ValidStore(State())
    }

    /** A registry over the types a file already holds: `s0` is empty
        for a new file. */
    constructor (s0: Store, keepDataSetIfExists: bool, moveOutOfTheWay: string -> string)
      requires ValidStore(s0)
      ensures Valid() && State() == s0
      ensures this.keepDataSetIfExists == keepDataSetIfExists && this.moveOutOfTheWay == moveOutOfTheWay
    {
      this.keepDataSetIfExists := keepDataSetIfExists;
      this.moveOutOfTheWay := moveOutOfTheWay;
      committed := s0.committed;
      defs := s0.defs;
      next := s0.next;
    }

    /** `createDataTypeEnum`: a new type with these values. */
    method CreateDataTypeEnum(values: Values) returns (id: TypeId)
      requires Valid()
      modifies this
      ensures Valid()
      ensures id == old(next) && next == old(next) + 1
      ensures defs == old(defs)[id := values] && committed == old(committed)
    {
      id := next;
      defs := defs[id := values];
      next := next + 1;
    }

    /** `getOrCreateEnumDataType`, step by step as the writer does it. */
    method GetOrCreateEnumDataType(nameOrNull: Option<string>, values: Values, preference: bool, check: bool)
      returns (r: Result<TypeId, EnumError>)
      requires Valid()
      modifies this
      ensures Valid()
      ensures var expected := Resolve(old(State()), nameOrNull, values, preference, check, moveOutOfTheWay);
        && (r.Success? <==> expected.Success?)
        && (r.Success? ==> r.value == expected.value.id && State() == expected.value.store)
        && (r.Failure? ==> r.error == expected.error && State() == old(State()))
    {
      var path := if nameOrNull.Some? then DataTypePath(nameOrNull.value) else "";
      var typeExists := nameOrNull.Some? && path in committed;
      var committedId := if typeExists then committed[path] else 0;
      var storageDataTypeId := committedId;
      var commitType: bool;
      if !typeExists || !preference {
        storageDataTypeId := CreateDataTypeEnum(values);
        var typesAreEqual := typeExists && defs[committedId] == values;
        commitType := nameOrNull.Some? && (!typeExists || !typesAreEqual);
        if typeExists && commitType {
          var replacement := moveOutOfTheWay(path);
          committed := (committed - {path})[replacement := committedId];
        }
        if typesAreEqual {
          storageDataTypeId := committedId;
        }
      } else {
        commitType := false;
        if check && defs[storageDataTypeId] != values {
          return Failure(ValuesDiffer(nameOrNull.value));
        }
      }
      if commitType {
        committed := committed[path := storageDataTypeId];
      }
      r := Success(storageDataTypeId);
    }

    /** `getEnumType(nameOrNull, values, check)`: the type resolved with the
        writer's preference, named `__anonymous__` when it has no name. */
    method GetEnumType(nameOrNull: Option<string>, values: Values, check: bool)
      returns (r: Result<EnumerationType, EnumError>)
      requires Valid()
      modifies this
      ensures Valid()
      ensures var expected := Resolve(old(State()), nameOrNull, values, keepDataSetIfExists, check, moveOutOfTheWay);
        && (r.Success? <==> expected.Success?)
        && (r.Success? ==>
              r.value == EnumerationType(expected.value.id,
                if nameOrNull.Some? then nameOrNull.value else AnonymousName, values)
              && State() == expected.value.store)
        && (r.Failure? ==> r.error == expected.error && State() == old(State()))
    {
      var id := GetOrCreateEnumDataType(nameOrNull, values, keepDataSetIfExists, check);
      if id.Failure? {
        return Failure(id.error);
      }
      r := Success(EnumerationType(id.value, if nameOrNull.Some? then nameOrNull.value else AnonymousName, values));
    }

    /** `getEnumType(name, values)`: a named type, checked. */
    method GetNamedEnumType(name: string, values: Values) returns (r: Result<EnumerationType, EnumError>)
      requires Valid()
      modifies this
      ensures Valid()
      ensures var expected := Resolve(old(State()), Some(name), values, keepDataSetIfExists, true, moveOutOfTheWay);
        && (r.Success? <==> expected.Success?)
        && (r.Success? ==>
              r.value.name == name && r.value.storageTypeId == expected.value.id
              && r.value.storageTypeId in defs && defs[r.value.storageTypeId] == values
              && State() == expected.value.store)
        && (r.Failure? ==> r.error == expected.error && State() == old(State()))
    {
      ResolvedValues(old(State()), Some(name), values, keepDataSetIfExists, true, moveOutOfTheWay);
      r := GetEnumType(Some(name), values, true);
    }

    /** `getAnonType(values)`: an anonymous type, never committed and
        always freshly created. */
    method GetAnonType(values: Values) returns (t: EnumerationType)
      requires Valid()
      modifies this
      ensures Valid()
      ensures t == EnumerationType(old(next), AnonymousName, values)
      ensures committed == old(committed) && defs == old(defs)[t.storageTypeId := values]
      ensures next == old(next) + 1
    {
      AnonymousNeverCommitted(State(), values, keepDataSetIfExists, false, moveOutOfTheWay);
      var r := GetEnumType(None, values, false);
      t := r.value;
    }
  }
}
