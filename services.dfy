/** `Services`: the configuration object that holds the six schema registers of an
    application. Each register is created on first read unless one was set before,
    and can be set only while nobody has read it yet. A type-keyed table of
    extensions and a lazily built dictionary of all registers sit beside them. */
module Configuration {
  import opened Wrappers
  import opened Clr

  /** The schema type `T` of an `ISchemaRegister<T>`, which keys the register dictionary. */
  datatype SchemaType =
    | CommandSchema | AggregateSchema | ProjectionSchema
    | ProcessorSchema | QuerySchema | EventSchema
    | OtherSchema(schemaType: ClrType)

  /** The six register properties of `Services`. */
  datatype RegisterSlot = Commands | Aggregates | Projections | Processors | Queries | Events

  /** The schema type of the register each property holds. */
  function SchemaOf(slot: RegisterSlot): SchemaType {
    match slot
    case Commands => CommandSchema
    case Aggregates => AggregateSchema
    case Projections => ProjectionSchema
    case Processors => ProcessorSchema
    case Queries => QuerySchema
    case Events => EventSchema
  }

  lemma SchemaOfInjective(a: RegisterSlot, b: RegisterSlot)
    ensures SchemaOf(a) == SchemaOf(b) ==> a == b
  {
  }

  /** The `nameof(...)` that a setter's exception message names. The projection
      setter names `IProjectionSchema`, not `IProjectionSchemaRegister`. */
  function InterfaceName(slot: RegisterSlot): string {
    match slot
    case Commands => "ICommandsSchemaRegister"
    case Aggregates => "IAggregateSchemaRegister"
    case Projections => "IProjectionSchema"
    case Processors => "IProcessorSchemaRegister"
    case Queries => "IQuerySchemaRegister"
    case Events => "IEventSchemaRegister"
  }

  function AlreadyUsed(slot: RegisterSlot): Exception {
    InvalidOperationException(InterfaceName(slot) + " has already been used.")
  }

  /** An `ISchemaRegister<T>` instance; `schema` is its `T`. */
  class SchemaRegister {
    const schema: SchemaType
    constructor (schema: SchemaType)
      ensures this.schema == schema
    {
      this.schema := schema;
    }
  }

  /** A `Dictionary<Type, ISchemaRegister>` with no removals: its entries and the
      order in which their keys were added, which is the order of `Values`. */
  datatype RegisterDictionary = RegisterDictionary(keys: seq<SchemaType>, entries: map<SchemaType, SchemaRegister>) {
    ghost predicate Valid() {
      && (forall i, j :: 0 <= i < j < |keys| ==> keys[i] != keys[j])
      && (forall k :: k in entries <==> k in keys)
      && (forall k :: k in entries ==> entries[k].schema == k)
    }
  }

  /** `AddSchemaInDict` / `Dictionary.Add`: throws `ArgumentException` on a present key. */
  function AddEntry(d: RegisterDictionary, register: SchemaRegister): (r: Result<RegisterDictionary>)
    ensures r.Failure? <==> register.schema in d.entries
    ensures r.Failure? ==> r.error == ArgumentException
    ensures r.Success? ==> r.value.keys == d.keys + [register.schema]
    ensures r.Success? ==> r.value.entries == d.entries[register.schema := register]
  {
    match Add(d.entries, register.schema, register)
    case Failure(e) => Failure(e)
    case Success(entries) => Success(RegisterDictionary(d.keys + [register.schema], entries))
  }

  /** An added entry keeps the dictionary well formed. */
  lemma AddEntryValid(d: RegisterDictionary, register: SchemaRegister)
    requires d.Valid() && AddEntry(d, register).Success?
    ensures AddEntry(d, register).value.Valid()
  {
    var r := AddEntry(d, register).value;
    forall i, j | 0 <= i < j < |r.keys| ensures r.keys[i] != r.keys[j] {
      if j == |d.keys| { assert r.keys[i] == d.keys[i] && r.keys[i] in d.entries; }
      else { assert r.keys[i] == d.keys[i] && r.keys[j] == d.keys[j]; }
    }
  }

  /** The dictionary the `_register` factory builds is well formed and holds each
      property's register under the property's schema type. */
  lemma DefaultDictionaryValid(d: RegisterDictionary, registers: map<RegisterSlot, SchemaRegister>)
    requires forall slot :: slot in registers && registers[slot].schema == SchemaOf(slot)
    requires d.keys == [CommandSchema, AggregateSchema, ProjectionSchema,
                        ProcessorSchema, QuerySchema, EventSchema]
    requires d.entries == map[CommandSchema := registers[Commands], AggregateSchema := registers[Aggregates],
                              ProjectionSchema := registers[Projections], ProcessorSchema := registers[Processors],
                              QuerySchema := registers[Queries], EventSchema := registers[Events]]
    ensures d.Valid()
    ensures forall slot :: SchemaOf(slot) in d.entries && d.entries[SchemaOf(slot)] == registers[slot]
  {
    forall i, j | 0 <= i < j < |d.keys| ensures d.keys[i] != d.keys[j] { }
    forall k ensures k in d.entries <==> k in d.keys {
      if k in d.keys {
        var i :| 0 <= i < |d.keys| && d.keys[i] == k;
      }
    }
    forall slot ensures registers[slot].schema == SchemaOf(slot) { }
    forall k | k in d.entries ensures d.entries[k].schema == k { }
    forall slot ensures SchemaOf(slot) in d.entries && d.entries[SchemaOf(slot)] == registers[slot] {
      match slot {
        case Commands =>
        case Aggregates =>
        case Projections =>
        case Processors =>
        case Queries =>
        case Events =>
      }
    }
  }

  /** `d` is well formed and holds each slot's register under the slot's schema type. */
  ghost predicate Serves(d: RegisterDictionary, registers: map<RegisterSlot, SchemaRegister>) {
    && d.Valid()
    && forall slot :: slot in registers && SchemaOf(slot) in d.entries && d.entries[SchemaOf(slot)] == registers[slot]
  }

  /** The body of the `_register` factory: six `AddSchemaInDict` calls on an empty
      dictionary, one per register property in the order commands, aggregates,
      projections, processors, queries, events. None of them throws, because the six
      schema types differ. */
  function FillDictionary(registers: map<RegisterSlot, SchemaRegister>): (r: Result<RegisterDictionary>)
    requires forall slot :: slot in registers && registers[slot].schema == SchemaOf(slot)
    ensures r.Success? && Serves(r.value, registers)
    ensures r.value.keys == [CommandSchema, AggregateSchema, ProjectionSchema,
                             ProcessorSchema, QuerySchema, EventSchema]
  {
    assert registers[Commands].schema == SchemaOf(Commands) && registers[Aggregates].schema == SchemaOf(Aggregates);
    assert registers[Projections].schema == SchemaOf(Projections) && registers[Processors].schema == SchemaOf(Processors);
    assert registers[Queries].schema == SchemaOf(Queries) && registers[Events].schema == SchemaOf(Events);
    var r0 := RegisterDictionary([], map[]);
    var r1 := AddEntry(r0, registers[Commands]).value;
    var r2 := AddEntry(r1, registers[Aggregates]).value;
    var r3 := AddEntry(r2, registers[Projections]).value;
    var r4 := AddEntry(r3, registers[Processors]).value;
    var r5 := AddEntry(r4, registers[Queries]).value;
    var r6 := AddEntry(r5, registers[Events]).value;
    DefaultDictionaryValid(r6, registers);
    Success(r6)
  }

  class Services {
    var extensions: map<ClrType, object?>
    /** The six nullable register fields (`_commandsRegister`, `_aggregateSchemaRegister`,
        ...): a slot that is absent from the map holds `null`. */
    var registers: map<RegisterSlot, SchemaRegister>
    /** The `Lazy<Dictionary<Type, ISchemaRegister>>`: `None` until its value is first read. */
    var register: Option<RegisterDictionary>

    /** The field behind a register property. */
    function Slot(slot: RegisterSlot): SchemaRegister?
      reads this
    {
      if slot in registers then registers[slot] else null
    }

    /** Every held register serves its slot's schema type; once the dictionary exists,
        every slot is filled and the dictionary holds that same instance under the
        slot's schema type. */
    ghost predicate Valid()
      reads this
    {
      && (forall slot :: slot in registers ==> registers[slot].schema == SchemaOf(slot))
      && (register.Some? ==> Serves(register.value, registers))
    }

    constructor ()
      ensures Valid()
      ensures extensions == map[] && register == None
      ensures forall slot :: Slot(slot) == null
    {
      extensions := map[];
      registers := map[];
      register := None;
    }

    /** A register property's getter: returns the held register, or creates the
        default one, stores it and returns it. */
    method GetRegister(slot: RegisterSlot) returns (r: SchemaRegister)
      requires Valid()
      modifies this
      ensures Valid()
      ensures slot in old(registers) ==> r == old(registers)[slot]
      ensures slot !in old(registers) ==> fresh(r)
      ensures r.schema == SchemaOf(slot)
      ensures slot in registers && registers[slot] == r
      ensures forall other :: other in registers <==> other in old(registers) || other == slot
      ensures forall other :: other in old(registers) ==> registers[other] == old(registers)[other]
      ensures extensions == old(extensions) && register == old(register)
    {
      if slot !in registers {
        var created := new SchemaRegister(SchemaOf(slot));
        registers := registers[slot := created];
      }
      r := registers[slot];
    }

    /** A register property's setter: throws once the slot holds a register, whether
        it was set or created by a getter; otherwise stores `value`, which may be null. */
    method SetRegister(slot: RegisterSlot, value: SchemaRegister?) returns (o: Outcome)
      requires Valid()
      requires value != null ==> value.schema == SchemaOf(slot)
      modifies this
      ensures Valid()
      ensures o.Fail? <==> old(Slot(slot)) != null
      ensures old(register).Some? ==> o.Fail?
      ensures o.Fail? ==> o.error == AlreadyUsed(slot)
      ensures registers == if o.Fail? || value == null then old(registers) else old(registers)[slot := value]
      ensures extensions == old(extensions) && register == old(register)
    {
      if slot in registers {
        return Fail(AlreadyUsed(slot));
      }
      if value != null {
        registers := registers[slot := value];
      }
      o := Pass;
    }

    /** The six getters, in the order the `_register` factory reads them: commands,
        aggregates, projections, processors, queries, events. */
    method ReadAllRegisters()
      requires Valid()
      modifies this
      ensures Valid()
      ensures forall slot :: slot in registers
      ensures forall slot :: slot in old(registers) ==> registers[slot] == old(registers)[slot]
      ensures extensions == old(extensions) && register == old(register)
    {
      var commands := GetRegister(Commands);
      var aggregates := GetRegister(Aggregates);
      var projections := GetRegister(Projections);
      var processors := GetRegister(Processors);
      var queries := GetRegister(Queries);
      var events := GetRegister(Events);
      forall slot ensures slot in registers {
        match slot {
          case Commands =>
          case Aggregates =>
          case Projections =>
          case Processors =>
          case Queries =>
          case Events =>
        }
      }
    }

    /** The `_register` factory, run on the first read of `_register.Value`: the six
        getters, then the six additions. */
    method BuildRegister() returns (d: RegisterDictionary)
      requires Valid() && register.None?
      modifies this
      ensures Valid() && register == Some(d)
      ensures d.keys == [CommandSchema, AggregateSchema, ProjectionSchema,
                         ProcessorSchema, QuerySchema, EventSchema]
      ensures forall slot :: slot in old(registers) ==> registers[slot] == old(registers)[slot]
      ensures extensions == old(extensions)
    {
      ReadAllRegisters();
      d := FillDictionary(registers).value;
      register := Some(d);
    }

    /** Reads `_register.Value`: the dictionary, built on the first read. */
    method ForceRegister() returns (d: RegisterDictionary)
      requires Valid()
      modifies this
      ensures Valid() && register == Some(d)
      ensures old(register).Some? ==> d == old(register).value && registers == old(registers)
      ensures old(register).None? ==>
                d.keys == [CommandSchema, AggregateSchema, ProjectionSchema,
                           ProcessorSchema, QuerySchema, EventSchema]
      ensures forall slot :: slot in old(registers) ==> registers[slot] == old(registers)[slot]
      ensures forall slot :: slot in registers && d.entries[SchemaOf(slot)] == registers[slot]
      ensures extensions == old(extensions)
    {
      if register.Some? {
        return register.value;
      }
      d := BuildRegister();
    }

    /** `AddSchemaRegister<T>`: adds to the (forced) dictionary; throws on a present key. */
    method AddSchemaRegister(schemaRegister: SchemaRegister) returns (o: Outcome)
      requires Valid()
      modifies this
      ensures Valid() && register.Some?
      ensures o.Fail? <==> if old(register).Some? then schemaRegister.schema in old(register).value.entries
                           else !schemaRegister.schema.OtherSchema?
      ensures old(register).Some? && o.Fail? ==> register == old(register)
      ensures old(register).Some? && o.Pass? ==>
                register.value.keys == old(register).value.keys + [schemaRegister.schema] &&
                register.value.entries == old(register).value.entries[schemaRegister.schema := schemaRegister]
      ensures o.Fail? ==> o.error == ArgumentException
      ensures old(register).None? ==>
                register.value.keys == [CommandSchema, AggregateSchema, ProjectionSchema,
                                        ProcessorSchema, QuerySchema, EventSchema] + (if o.Pass? then [schemaRegister.schema] else [])
      ensures o.Pass? ==> schemaRegister.schema in register.value.entries && register.value.entries[schemaRegister.schema] == schemaRegister
      ensures old(register).Some? ==> registers == old(registers)
      ensures forall slot :: slot in old(registers) ==> registers[slot] == old(registers)[slot]
      ensures extensions == old(extensions)
    {
      var d := ForceRegister();
      match AddEntry(d, schemaRegister)
      case Failure(e) =>
        return Fail(e);
      case Success(added) =>
        AddEntryValid(d, schemaRegister);
        register := Some(added);
        o := Pass;
    }

    /** `GetSchemaRegister<T>`: the entry for `T` in the (forced) dictionary. */
    method GetSchemaRegister(schema: SchemaType) returns (r: Result<SchemaRegister>)
      requires Valid()
      modifies this
      ensures Valid() && register.Some?
      ensures r == Get(register.value.entries, schema)
      ensures r.Success? ==> r.value.schema == schema
      ensures old(register).Some? ==> register == old(register) && registers == old(registers)
      ensures forall slot :: slot in old(registers) ==> registers[slot] == old(registers)[slot]
      ensures extensions == old(extensions)
    {
      var d := ForceRegister();
      r := Get(d.entries, schema);
    }

    /** `Registers()`: the values of the (forced) dictionary, in insertion order. */
    method Registers() returns (rs: seq<SchemaRegister>)
      requires Valid()
      modifies this
      ensures Valid() && register.Some?
      ensures |rs| == |register.value.keys|
      ensures forall i :: 0 <= i < |rs| ==> rs[i] == register.value.entries[register.value.keys[i]]
      ensures forall slot :: slot in registers && registers[slot] in rs
      ensures old(register).Some? ==> register == old(register) && registers == old(registers)
      ensures forall slot :: slot in old(registers) ==> registers[slot] == old(registers)[slot]
      ensures extensions == old(extensions)
    {
      var d := ForceRegister();
      rs := seq(|d.keys|, i requires 0 <= i < |d.keys| => d.entries[d.keys[i]]);
      forall slot ensures registers[slot] in rs {
        var i :| 0 <= i < |d.keys| && d.keys[i] == SchemaOf(slot);
        assert rs[i] == registers[slot];
      }
    }

    /** `AddExtension<T>`: `Dictionary.Add` under `typeof(T)`; any object, null included. */
    method AddExtension(extensionType: ClrType, instance: object?) returns (o: Outcome)
      requires Valid()
      modifies this
      ensures Valid()
      ensures o.Fail? <==> extensionType in old(extensions)
      ensures o.Fail? ==> o.error == ArgumentException && extensions == old(extensions)
      ensures o.Pass? ==> extensions == old(extensions)[extensionType := instance]
      ensures register == old(register) && registers == old(registers)
    {
      match Add(extensions, extensionType, instance)
      case Failure(e) =>
        return Fail(e);
      case Success(m) =>
        extensions := m;
        o := Pass;
    }

    /** `ResolveExtension<T>`: the dictionary indexer under `typeof(T)`, then the cast
        `(T)`. `isInstance(x, t)` is the runtime's answer to whether `x` is a `t`; a
        null reference passes the cast. */
    method ResolveExtension(extensionType: ClrType, isInstance: (object, ClrType) -> bool) returns (r: Result<object?>)
      ensures r.Failure? <==> extensionType !in extensions ||
                              (extensions[extensionType] != null && !isInstance(extensions[extensionType], extensionType))
      ensures r.Success? ==> r.value == extensions[extensionType]
      ensures r.Failure? && extensionType !in extensions ==> r.error == KeyNotFoundException
      ensures r.Failure? && extensionType in extensions ==> r.error == InvalidCastException
    {
      var stored := Get(extensions, extensionType);
      if stored.Failure? {
        return Failure(stored.error);
      }
      var instance := stored.value;
      if instance != null && !isInstance(instance, extensionType) {
        return Failure(InvalidCastException);
      }
      r := Success(instance);
    }
  }
}
