/** Call sequences on one `Services` object, each with what the object promises
    about it. */
module ConfigurationScenarios {
  import opened Wrappers
  import opened Clr
  import opened Configuration

  /** Two reads of a register property give the same instance. */
  method RepeatedGetsAgree(services: Services, slot: RegisterSlot) returns (first: SchemaRegister, second: SchemaRegister)
    requires services.Valid()
    modifies services
    ensures services.Valid()
    ensures first == second && first.schema == SchemaOf(slot)
  {
    first := services.GetRegister(slot);
    second := services.GetRegister(slot);
  }

  /** A register set on an unused slot is the one later reads return. */
  method SetThenGet(services: Services, slot: RegisterSlot, value: SchemaRegister) returns (setOutcome: Outcome, got: SchemaRegister)
    requires services.Valid() && services.Slot(slot) == null && value.schema == SchemaOf(slot)
    modifies services
    ensures services.Valid()
    ensures setOutcome == Pass && got == value
  {
    setOutcome := services.SetRegister(slot, value);
    got := services.GetRegister(slot);
  }

  /** Reading a property uses the slot up: a later set throws, even though nobody
      set it before. */
  method GetThenSetThrows(services: Services, slot: RegisterSlot, value: SchemaRegister) returns (got: SchemaRegister, setOutcome: Outcome)
    requires services.Valid() && value.schema == SchemaOf(slot)
    modifies services
    ensures services.Valid()
    ensures setOutcome == Fail(AlreadyUsed(slot))
    ensures services.Slot(slot) == got
  {
    got := services.GetRegister(slot);
    setOutcome := services.SetRegister(slot, value);
  }

  /** Once the register dictionary is built, every setter throws, and the
      dictionary holds the six registers the getters return. */
  method ForcedRegisterFreezesSetters(services: Services, slot: RegisterSlot, value: SchemaRegister?)
    returns (registers: seq<SchemaRegister>, setOutcome: Outcome, got: SchemaRegister)
    requires services.Valid() && (value != null ==> value.schema == SchemaOf(slot))
    modifies services
    ensures services.Valid()
    ensures setOutcome == Fail(AlreadyUsed(slot))
    ensures got in registers
  {
    registers := services.Registers();
    setOutcome := services.SetRegister(slot, value);
    got := services.GetRegister(slot);
  }

  /** An added extension is what resolving its type returns, unless it is an object
      of another type, which the cast rejects; adding the type again throws and
      keeps the first instance. */
  method AddThenResolve(services: Services, extensionType: ClrType, instance: object?, other: object?,
                        isInstance: (object, ClrType) -> bool)
    returns (added: Outcome, again: Outcome, resolved: Result<object?>)
    requires services.Valid() && extensionType !in services.extensions
    modifies services
    ensures added == Pass && again == Fail(ArgumentException)
    ensures instance == null || isInstance(instance, extensionType) ==> resolved == Success(instance)
    ensures instance != null && !isInstance(instance, extensionType) ==> resolved == Failure(InvalidCastException)
  {
    added := services.AddExtension(extensionType, instance);
    again := services.AddExtension(extensionType, other);
    resolved := services.ResolveExtension(extensionType, isInstance);
  }

  /** A register added to the dictionary is the one looked up for its schema type. */
  method AddThenGetSchemaRegister(services: Services, schemaRegister: SchemaRegister)
    returns (added: Outcome, got: Result<SchemaRegister>)
    requires services.Valid()
    modifies services
    ensures services.Valid()
    ensures added.Pass? ==> got == Success(schemaRegister)
    ensures added.Fail? ==> added.error == ArgumentException && got.Success?
  {
    added := services.AddSchemaRegister(schemaRegister);
    got := services.GetSchemaRegister(schemaRegister.schema);
  }

  /** The dictionary is built once, so two `Registers()` calls agree. */
  method RegistersTwiceAgree(services: Services) returns (first: seq<SchemaRegister>, second: seq<SchemaRegister>)
    requires services.Valid()
    modifies services
    ensures services.Valid()
    ensures first == second
  {
    first := services.Registers();
    second := services.Registers();
  }
}
