/**
 Tool parameters: the translation of a Zod schema into the JSON Schema shown to the model.

 `Accepts` is what Zod's parse accepts, `Satisfies` what JSON Schema says (Validation
 2020-12, sections 6.1 and 6.5.3, and Core, section 10.3). The two agree up to what the
 translation changes on purpose or by accident: refinements, which it drops; undeclared
 keys, which Zod strips and the schema forbids; null where only `nullable` allows it; and
 constructs it does not know, which become arbitrary objects.
 */
module ToolSchema {
  import opened Prelude

  datatype Json =
    | Null
    | Boolean(b: bool)
    | Number(n: real)
    | String(s: string)
    | Array(items: seq<Json>)
    | Object(fields: map<string, Json>)

  datatype Field = Field(key: string, schema: Zod)

  /** Refinements such as `min` and `max` are the `check` of a string, number or array length. */
  datatype Zod =
    | ZodString(check: string -> bool)
    | ZodNumber(checkNumber: real -> bool)
    | ZodBoolean
    | ZodEnum(values: seq<string>)
    | ZodLiteral(value: Json)
    | ZodArray(item: Zod, checkLength: nat -> bool)
    | ZodObject(shape: seq<Field>)
    | ZodOptional(inner: Zod)
    | ZodNullable(inner: Zod)
    | ZodDefault(inner: Zod, default: Json)
    | ZodOther(accepts: Option<Json> -> bool)

  datatype Property = Property(key: string, schema: Schema)

  /** The JSON Schemas the translation emits. */
  datatype Schema =
    | TypeString
    | TypeNumber
    | TypeBoolean
    | Enum(values: seq<string>)
    | Const(value: Json)
    | TypeArray(items: Schema)
    | TypeObject(properties: seq<Property>, required: seq<string>, additionalProperties: bool)

  predicate Primitive(v: Json) {
    !v.Array? && !v.Object?
  }

  function Lookup(fields: map<string, Json>, key: string): Option<Json> {
    if key in fields then Some(fields[key]) else None
  }

  /** Zod's parse; None is JavaScript's `undefined`. A literal compares by identity, so only primitives match. */
  predicate Accepts(z: Zod, v: Option<Json>)
    decreases z
  {
    match z
    case ZodString(check) => v.Some? && v.value.String? && check(v.value.s)
    case ZodNumber(check) => v.Some? && v.value.Number? && check(v.value.n)
    case ZodBoolean => v.Some? && v.value.Boolean?
    case ZodEnum(values) => v.Some? && v.value.String? && v.value.s in values
    case ZodLiteral(value) => v == Some(value) && Primitive(value)
    case ZodArray(item, check) =>
      v.Some? && v.value.Array? && check(|v.value.items|)
      && forall i :: 0 <= i < |v.value.items| ==> Accepts(item, Some(v.value.items[i]))
    case ZodObject(shape) =>
      v.Some? && v.value.Object?
      && forall i :: 0 <= i < |shape| ==> Accepts(shape[i].schema, Lookup(v.value.fields, shape[i].key))
    case ZodOptional(inner) => v.None? || Accepts(inner, v)
    case ZodNullable(inner) => v == Some(Null) || Accepts(inner, v)
    case ZodDefault(inner, default) => Accepts(inner, Some(v.Or(default)))
    case ZodOther(accepts) => accepts(v)
  }

  /** `isOptional`: whether `undefined` parses. */
  predicate IsOptional(z: Zod) {
    Accepts(z, None)
  }

  function RequiredKeys(shape: seq<Field>): (keys: seq<string>)
    ensures forall key :: key in keys <==>
      exists i :: 0 <= i < |shape| && shape[i].key == key && !IsOptional(shape[i].schema)
  {
    if shape == [] then []
    else
      var rest := RequiredKeys(shape[1..]);
      assert forall i :: 1 <= i < |shape| ==> shape[i] == shape[1..][i - 1];
      (if IsOptional(shape[0].schema) then [] else [shape[0].key]) + rest
  }

  function Translate(z: Zod): Schema
    decreases z
  {
    match z
    case ZodString(_) => TypeString
    case ZodNumber(_) => TypeNumber
    case ZodBoolean => TypeBoolean
    case ZodEnum(values) => Enum(values)
    case ZodLiteral(value) => Const(value)
    case ZodArray(item, _) => TypeArray(Translate(item))
    case ZodObject(shape) =>
      TypeObject(seq(|shape|, i requires 0 <= i < |shape| => Property(shape[i].key, Translate(shape[i].schema))),
                 RequiredKeys(shape), false)
    case ZodOptional(inner) => Translate(inner)
    case ZodNullable(inner) => Translate(inner)
    case ZodDefault(inner, _) => Translate(inner)
    case ZodOther(_) => TypeObject([], [], true)
  }

  predicate HasField(shape: seq<Field>, key: string) {
    exists i :: 0 <= i < |shape| && shape[i].key == key
  }

  predicate HasProperty(properties: seq<Property>, key: string) {
    exists i :: 0 <= i < |properties| && properties[i].key == key
  }

  predicate Satisfies(s: Schema, v: Json)
    decreases s
  {
    match s
    case TypeString => v.String?
    case TypeNumber => v.Number?
    case TypeBoolean => v.Boolean?
    case Enum(values) => v.String? && v.s in values
    case Const(value) => v == value
    case TypeArray(items) => v.Array? && forall i :: 0 <= i < |v.items| ==> Satisfies(items, v.items[i])
    case TypeObject(properties, required, additional) =>
      && v.Object?
      && (forall key :: key in required ==> key in v.fields)
      && (forall i :: 0 <= i < |properties| && properties[i].key in v.fields ==>
            Satisfies(properties[i].schema, v.fields[properties[i].key]))
      && (!additional ==> forall key :: key in v.fields ==> HasProperty(properties, key))
  }

  // ---------- Where the two can differ ----------

  /** A schema made only of constructs the translation knows, with literals that are primitives. */
  predicate Supported(z: Zod)
    decreases z
  {
    match z
    case ZodLiteral(value) => Primitive(value)
    case ZodArray(item, _) => Supported(item)
    case ZodObject(shape) => forall i :: 0 <= i < |shape| ==> Supported(shape[i].schema)
    case ZodOptional(inner) => Supported(inner)
    case ZodNullable(inner) => Supported(inner)
    case ZodDefault(inner, _) => Supported(inner)
    case ZodOther(_) => false
    case _ => true
  }

  /** No refinement that can fail: the translation drops refinements. */
  ghost predicate Unrefined(z: Zod)
    decreases z
  {
    match z
    case ZodString(check) => forall s :: check(s)
    case ZodNumber(check) => forall n :: check(n)
    case ZodArray(item, check) => (forall n :: check(n)) && Unrefined(item)
    case ZodObject(shape) => forall i :: 0 <= i < |shape| ==> Unrefined(shape[i].schema)
    case ZodOptional(inner) => Unrefined(inner)
    case ZodNullable(inner) => Unrefined(inner)
    case ZodDefault(inner, _) => Unrefined(inner)
    case _ => true
  }

  predicate HasNullable(z: Zod)
    decreases z
  {
    match z
    case ZodArray(item, _) => HasNullable(item)
    case ZodObject(shape) => exists i :: 0 <= i < |shape| && HasNullable(shape[i].schema)
    case ZodOptional(inner) => HasNullable(inner)
    case ZodNullable(inner) => true
    case ZodDefault(inner, _) => HasNullable(inner)
    case _ => false
  }

  /** No object in the value has a key its schema does not declare. */
  ghost predicate Declared(z: Zod, v: Json)
    decreases z
  {
    match z
    case ZodArray(item, _) => v.Array? ==> forall i :: 0 <= i < |v.items| ==> Declared(item, v.items[i])
    case ZodObject(shape) =>
      v.Object? ==>
        && (forall key :: key in v.fields ==> HasField(shape, key))
        && (forall i :: 0 <= i < |shape| && shape[i].key in v.fields ==>
          Declared(shape[i].schema, v.fields[shape[i].key]))
    case ZodOptional(inner) => Declared(inner, v)
    case ZodNullable(inner) => Declared(inner, v)
    case ZodDefault(inner, _) => Declared(inner, v)
    case _ => true
  }

  /** No null that only a `nullable` lets in, and nothing but objects where the translation knows no better. */
  ghost predicate Describable(z: Zod, v: Json)
    decreases z
  {
    match z
    case ZodArray(item, _) => v.Array? ==> forall i :: 0 <= i < |v.items| ==> Describable(item, v.items[i])
    case ZodObject(shape) =>
      v.Object? ==> forall i :: 0 <= i < |shape| && shape[i].key in v.fields ==>
        Describable(shape[i].schema, v.fields[shape[i].key])
    case ZodOptional(inner) => Describable(inner, v)
    case ZodNullable(inner) => (v == Null ==> Accepts(inner, Some(Null))) && Describable(inner, v)
    case ZodDefault(inner, _) => Describable(inner, v)
    case ZodOther(_) => v.Object?
    case _ => true
  }

  /** All refinements and unknown constructs accept what they see of `v`, and no literal is an array or object. */
  ghost predicate RefinementsHold(z: Zod, v: Json)
    decreases z
  {
    match z
    case ZodString(check) => v.String? ==> check(v.s)
    case ZodNumber(check) => v.Number? ==> check(v.n)
    case ZodLiteral(value) => Primitive(value)
    case ZodArray(item, check) =>
      v.Array? ==> check(|v.items|) && forall i :: 0 <= i < |v.items| ==> RefinementsHold(item, v.items[i])
    case ZodObject(shape) =>
      v.Object? ==> forall i :: 0 <= i < |shape| && shape[i].key in v.fields ==>
        RefinementsHold(shape[i].schema, v.fields[shape[i].key])
    case ZodOptional(inner) => RefinementsHold(inner, v)
    case ZodNullable(inner) => v == Null || RefinementsHold(inner, v)
    case ZodDefault(inner, _) => RefinementsHold(inner, v)
    case ZodOther(accepts) => accepts(Some(v))
    case _ => true
  }

  // ---------- The translation preserves meaning ----------

  /**
   An object whose present fields are described is described: nothing required is missing,
   nothing undeclared there.
   */
  lemma AcceptedObject(shape: seq<Field>, fields: map<string, Json>)
    requires Accepts(ZodObject(shape), Some(Object(fields))) && Declared(ZodObject(shape), Object(fields))
    requires forall i :: 0 <= i < |shape| && shape[i].key in fields ==>
      Satisfies(Translate(shape[i].schema), fields[shape[i].key])
    ensures Satisfies(Translate(ZodObject(shape)), Object(fields))
  {
    KeysAgree(shape);
  }

  /** Null satisfies the schema only where it is a literal, which Zod accepts too. */
  lemma {:induction false} NullDescribed(z: Zod)
    requires Satisfies(Translate(z), Null)
    ensures Accepts(z, Some(Null))
    decreases z
  {
    match z
    case ZodOptional(inner) => NullDescribed(inner);
    case ZodDefault(inner, _) => NullDescribed(inner);
    case _ =>
  }

  /** What Zod accepts the schema describes, refinements or not, as far as it can be described. */
  lemma {:induction false} AcceptedSatisfies(z: Zod, v: Json)
    requires Accepts(z, Some(v)) && Declared(z, v) && Describable(z, v)
    ensures Satisfies(Translate(z), v)
    decreases z
  {
    match z
    case ZodArray(item, _) =>
      forall i | 0 <= i < |v.items|
        ensures Satisfies(Translate(item), v.items[i])
      {
        AcceptedSatisfies(item, v.items[i]);
      }
    case ZodObject(shape) =>
      forall i | 0 <= i < |shape| && shape[i].key in v.fields
        ensures Satisfies(Translate(shape[i].schema), v.fields[shape[i].key])
      {
        AcceptedSatisfies(shape[i].schema, v.fields[shape[i].key]);
      }
      AcceptedObject(shape, v.fields);
    case ZodOptional(inner) => AcceptedSatisfies(inner, v);
    case ZodNullable(inner) => AcceptedSatisfies(inner, v);
    case ZodDefault(inner, _) => AcceptedSatisfies(inner, v);
    case _ =>
  }

  /** The translated object names exactly the declared keys. */
  lemma KeysAgree(shape: seq<Field>)
    ensures forall key :: HasProperty(Translate(ZodObject(shape)).properties, key) <==> HasField(shape, key)
  {
    var properties := Translate(ZodObject(shape)).properties;
    assert |properties| == |shape| && forall i :: 0 <= i < |shape| ==> properties[i].key == shape[i].key;
    forall key
      ensures HasProperty(properties, key) <==> HasField(shape, key)
    {
      if HasField(shape, key) {
        var i :| 0 <= i < |shape| && shape[i].key == key;
        assert properties[i].key == key;
      }
      if HasProperty(properties, key) {
        var i :| 0 <= i < |properties| && properties[i].key == key;
        assert shape[i].key == key;
      }
    }
  }

  /** What the schema describes has no undeclared key, no bare null, and objects for unknown constructs. */
  lemma {:induction false} SatisfiedIsDescribable(z: Zod, v: Json)
    requires Satisfies(Translate(z), v)
    ensures Declared(z, v) && Describable(z, v)
    decreases z
  {
    match z
    case ZodArray(item, _) =>
      forall i | 0 <= i < |v.items|
        ensures Declared(item, v.items[i]) && Describable(item, v.items[i])
      {
        SatisfiedIsDescribable(item, v.items[i]);
      }
    case ZodObject(shape) =>
      var properties := Translate(z).properties;
      forall i | 0 <= i < |shape| && shape[i].key in v.fields
        ensures Declared(shape[i].schema, v.fields[shape[i].key])
        ensures Describable(shape[i].schema, v.fields[shape[i].key])
      {
        assert properties[i] == Property(shape[i].key, Translate(shape[i].schema));
        SatisfiedIsDescribable(shape[i].schema, v.fields[shape[i].key]);
      }
      KeysAgree(shape);
    case ZodOptional(inner) => SatisfiedIsDescribable(inner, v);
    case ZodNullable(inner) =>
      SatisfiedIsDescribable(inner, v);
      if v == Null { NullDescribed(inner); }
    case ZodDefault(inner, _) => SatisfiedIsDescribable(inner, v);
    case _ =>
  }

  /** What the schema describes Zod accepts exactly if its refinements hold. */
  lemma {:induction false} SatisfiedIsAccepted(z: Zod, v: Json)
    requires Satisfies(Translate(z), v)
    ensures Accepts(z, Some(v)) <==> RefinementsHold(z, v)
    decreases z
  {
    match z
    case ZodArray(item, _) =>
      forall i | 0 <= i < |v.items|
        ensures Accepts(item, Some(v.items[i])) <==> RefinementsHold(item, v.items[i])
      {
        SatisfiedIsAccepted(item, v.items[i]);
      }
    case ZodObject(shape) => SatisfiedObject(shape, v);
    case ZodOptional(inner) => SatisfiedIsAccepted(inner, v);
    case ZodNullable(inner) => SatisfiedIsAccepted(inner, v);
    case ZodDefault(inner, _) => SatisfiedIsAccepted(inner, v);
    case _ =>
  }

  /** No field that is missing was required, and a present one is accepted exactly if its refinements hold. */
  lemma {:induction false} SatisfiedObject(shape: seq<Field>, v: Json)
    requires Satisfies(Translate(ZodObject(shape)), v)
    ensures Accepts(ZodObject(shape), Some(v)) <==> RefinementsHold(ZodObject(shape), v)
    decreases shape, 0
  {
    var properties := Translate(ZodObject(shape)).properties;
    forall i | 0 <= i < |shape|
      ensures Accepts(shape[i].schema, Lookup(v.fields, shape[i].key)) <==>
        (shape[i].key in v.fields ==> RefinementsHold(shape[i].schema, v.fields[shape[i].key]))
    {
      if shape[i].key in v.fields {
        assert properties[i] == Property(shape[i].key, Translate(shape[i].schema));
        SatisfiedIsAccepted(shape[i].schema, v.fields[shape[i].key]);
      } else {
        assert shape[i].key !in RequiredKeys(shape);
      }
    }
  }

  /**
   The translation, exactly, for every schema: Zod accepts a value that has no undeclared
   key and is describable if and only if the value satisfies the emitted schema and the
   refinements hold.
   */
  lemma TranslationIsExact(z: Zod, v: Json)
    ensures Satisfies(Translate(z), v) && RefinementsHold(z, v) <==>
      Accepts(z, Some(v)) && Declared(z, v) && Describable(z, v)
  {
    if Satisfies(Translate(z), v) {
      SatisfiedIsDescribable(z, v);
      SatisfiedIsAccepted(z, v);
    }
    if Accepts(z, Some(v)) && Declared(z, v) && Describable(z, v) {
      AcceptedSatisfies(z, v);
      SatisfiedIsAccepted(z, v);
    }
  }

  /** Of the accepted values without undeclared keys the schema rejects exactly those that it cannot describe. */
  lemma AcceptedIsDescribed(z: Zod, v: Json)
    requires Accepts(z, Some(v)) && Declared(z, v)
    ensures Satisfies(Translate(z), v) <==> Describable(z, v)
  {
    if Satisfies(Translate(z), v) { SatisfiedIsDescribable(z, v); }
    if Describable(z, v) { AcceptedSatisfies(z, v); }
  }

  // ---------- What the schema describes ----------

  /**
   The Zod schema that the translation treats `z` as: refinements, nullables and defaults
   gone, fields optional exactly where `undefined` parses, literals compared by value, and
   unknown constructs taken for objects.
   */
  function Loosened(z: Zod): Zod
    decreases z
  {
    match z
    case ZodString(_) => ZodString(_ => true)
    case ZodNumber(_) => ZodNumber(_ => true)
    case ZodBoolean => z
    case ZodEnum(_) => z
    case ZodLiteral(value) => ZodOther((v: Option<Json>) => v == Some(value))
    case ZodArray(item, _) => ZodArray(Loosened(item), _ => true)
    case ZodObject(shape) => ZodObject(seq(|shape|, i requires 0 <= i < |shape| => LooseField(shape[i])))
    case ZodOptional(inner) => Loosened(inner)
    case ZodNullable(inner) => Loosened(inner)
    case ZodDefault(inner, _) => Loosened(inner)
    case ZodOther(_) => ZodOther((v: Option<Json>) => v.Some? && v.value.Object?)
  }

  function LooseField(f: Field): Field
    decreases f
  {
    Field(f.key, if IsOptional(f.schema) then ZodOptional(Loosened(f.schema)) else Loosened(f.schema))
  }

  lemma {:induction false} LoosenedIsRequired(z: Zod)
    ensures !Accepts(Loosened(z), None)
    decreases z
  {
    match z
    case ZodOptional(inner) => LoosenedIsRequired(inner);
    case ZodNullable(inner) => LoosenedIsRequired(inner);
    case ZodDefault(inner, _) => LoosenedIsRequired(inner);
    case _ =>
  }

  /**
   What the emitted schema describes, for every schema: the values without undeclared keys
   that the loosened Zod schema accepts, and no others.
   */
  lemma {:induction false} SchemaDescribesLoosened(z: Zod, v: Json)
    ensures Satisfies(Translate(z), v) <==> Accepts(Loosened(z), Some(v)) && Declared(z, v)
    decreases z, 0
  {
    hide Satisfies, Accepts;
    match z
    case ZodArray(item, check) =>
      if v.Array? { LoosenedArray(item, check, v.items); } else { OtherKind(z, v); }
    case ZodObject(shape) =>
      if v.Object? { LoosenedObject(shape, v.fields); } else { OtherKind(z, v); }
    case ZodOptional(inner) => SchemaDescribesLoosened(inner, v);
    case ZodNullable(inner) => SchemaDescribesLoosened(inner, v);
    case ZodDefault(inner, _) => SchemaDescribesLoosened(inner, v);
    case _ => OtherKind(z, v);
  }

  /** A schema without parts, or a value that is no array or object where one is asked for. */
  lemma OtherKind(z: Zod, v: Json)
    requires !z.ZodOptional? && !z.ZodNullable? && !z.ZodDefault?
    requires (z.ZodArray? ==> !v.Array?) && (z.ZodObject? ==> !v.Object?)
    ensures Satisfies(Translate(z), v) <==> Accepts(Loosened(z), Some(v)) && Declared(z, v)
  {
  }

  lemma {:induction false} LoosenedArray(item: Zod, check: nat -> bool, items: seq<Json>)
    ensures Satisfies(Translate(ZodArray(item, check)), Array(items)) <==>
      Accepts(Loosened(ZodArray(item, check)), Some(Array(items))) && Declared(ZodArray(item, check), Array(items))
    decreases item, 1
  {
    forall i | 0 <= i < |items|
      ensures Satisfies(Translate(item), items[i]) <==>
        Accepts(Loosened(item), Some(items[i])) && Declared(item, items[i])
    {
      SchemaDescribesLoosened(item, items[i]);
    }
  }

  ghost predicate FieldDescribed(f: Field, fields: map<string, Json>) {
    if f.key in fields then Satisfies(Translate(f.schema), fields[f.key]) else IsOptional(f.schema)
  }

  predicate FieldAccepted(f: Field, fields: map<string, Json>) {
    Accepts(f.schema, Lookup(fields, f.key))
  }

  ghost predicate FieldDeclared(f: Field, fields: map<string, Json>) {
    f.key in fields ==> Declared(f.schema, fields[f.key])
  }

  lemma {:induction false} LoosenedField(f: Field, fields: map<string, Json>)
    ensures FieldDescribed(f, fields) <==> FieldAccepted(LooseField(f), fields) && FieldDeclared(f, fields)
    decreases f
  {
    hide Translate, Satisfies, Loosened;
    if f.key in fields {
      SchemaDescribesLoosened(f.schema, fields[f.key]);
    } else {
      LoosenedIsRequired(f.schema);
    }
  }

  lemma {:induction false} LoosenedObject(shape: seq<Field>, fields: map<string, Json>)
    ensures Satisfies(Translate(ZodObject(shape)), Object(fields)) <==>
      Accepts(Loosened(ZodObject(shape)), Some(Object(fields))) && Declared(ZodObject(shape), Object(fields))
    decreases shape, 0
  {
    hide Translate, Satisfies, Loosened, Accepts, Declared, LooseField, FieldDescribed, FieldAccepted, FieldDeclared;
    ObjectDescribed(shape, fields);
    ObjectAccepted(shape, fields);
    ObjectDeclared(shape, fields);
    forall i | 0 <= i < |shape|
      ensures FieldDescribed(shape[i], fields) <==>
        FieldAccepted(LooseField(shape[i]), fields) && FieldDeclared(shape[i], fields)
    {
      LoosenedField(shape[i], fields);
    }
  }

  lemma ObjectAccepted(shape: seq<Field>, fields: map<string, Json>)
    ensures Accepts(Loosened(ZodObject(shape)), Some(Object(fields))) <==>
      forall i :: 0 <= i < |shape| ==> FieldAccepted(LooseField(shape[i]), fields)
  {
    hide LooseField;
    var loose := Loosened(ZodObject(shape)).shape;
    assert forall i :: 0 <= i < |shape| ==> loose[i] == LooseField(shape[i]);
    assert Accepts(Loosened(ZodObject(shape)), Some(Object(fields))) <==>
      forall i :: 0 <= i < |loose| ==> FieldAccepted(loose[i], fields);
  }

  lemma ObjectDeclared(shape: seq<Field>, fields: map<string, Json>)
    ensures Declared(ZodObject(shape), Object(fields)) <==>
      && (forall key :: key in fields ==> HasField(shape, key))
      && (forall i :: 0 <= i < |shape| ==> FieldDeclared(shape[i], fields))
  {
  }

  /** An object satisfies the emitted schema exactly if its keys are declared and each field is described. */
  lemma ObjectDescribed(shape: seq<Field>, fields: map<string, Json>)
    ensures Satisfies(Translate(ZodObject(shape)), Object(fields)) <==>
      && (forall key :: key in fields ==> HasField(shape, key))
      && (forall i :: 0 <= i < |shape| ==> FieldDescribed(shape[i], fields))
  {
    KeysAgree(shape);
    var t := Translate(ZodObject(shape));
    assert forall i :: 0 <= i < |shape| ==> t.properties[i] == Property(shape[i].key, Translate(shape[i].schema));
  }

  // ---------- Where they agree ----------

  /** Without refinements, and with known constructs only, every described value passes. */
  lemma {:induction false} UnrefinedHolds(z: Zod, v: Json)
    requires Supported(z) && Unrefined(z)
    ensures RefinementsHold(z, v)
    decreases z
  {
    match z
    case ZodArray(item, _) =>
      if v.Array? {
        forall i | 0 <= i < |v.items|
          ensures RefinementsHold(item, v.items[i])
        {
          UnrefinedHolds(item, v.items[i]);
        }
      }
    case ZodObject(shape) =>
      if v.Object? {
        forall i | 0 <= i < |shape| && shape[i].key in v.fields
          ensures RefinementsHold(shape[i].schema, v.fields[shape[i].key])
        {
          UnrefinedHolds(shape[i].schema, v.fields[shape[i].key]);
        }
      }
    case ZodOptional(inner) => UnrefinedHolds(inner, v);
    case ZodNullable(inner) => UnrefinedHolds(inner, v);
    case ZodDefault(inner, _) => UnrefinedHolds(inner, v);
    case _ =>
  }

  lemma {:induction false} NoNullableDescribable(z: Zod, v: Json)
    requires Supported(z) && !HasNullable(z)
    ensures Describable(z, v)
    decreases z
  {
    match z
    case ZodArray(item, _) =>
      if v.Array? {
        forall i | 0 <= i < |v.items|
          ensures Describable(item, v.items[i])
        {
          NoNullableDescribable(item, v.items[i]);
        }
      }
    case ZodObject(shape) =>
      if v.Object? {
        forall i | 0 <= i < |shape| && shape[i].key in v.fields
          ensures Describable(shape[i].schema, v.fields[shape[i].key])
        {
          NoNullableDescribable(shape[i].schema, v.fields[shape[i].key]);
        }
      }
    case ZodOptional(inner) => NoNullableDescribable(inner, v);
    case ZodDefault(inner, _) => NoNullableDescribable(inner, v);
    case _ =>
  }

  /** Without `nullable`, a value with no undeclared key satisfies the schema exactly when Zod accepts it. */
  lemma TranslationPreservesMeaning(z: Zod, v: Json)
    requires Supported(z) && Unrefined(z) && !HasNullable(z) && Declared(z, v)
    ensures Satisfies(Translate(z), v) <==> Accepts(z, Some(v))
  {
    TranslationIsExact(z, v);
    UnrefinedHolds(z, v);
    NoNullableDescribable(z, v);
  }

  /** A field is demanded exactly when leaving it out makes Zod reject the object. */
  lemma RequiredMeansRejectedWhenMissing(shape: seq<Field>, fields: map<string, Json>, i: nat)
    requires i < |shape| && shape[i].key !in fields
    requires forall j, k :: 0 <= j < k < |shape| ==> shape[j].key != shape[k].key
    requires forall j :: 0 <= j < |shape| && j != i ==> Accepts(shape[j].schema, Lookup(fields, shape[j].key))
    ensures shape[i].key in Translate(ZodObject(shape)).required <==> !Accepts(ZodObject(shape), Some(Object(fields)))
  {
  }

  /** An array or object literal, compared by identity, accepts nothing that was parsed. */
  lemma LiteralsArePrimitive(items: seq<Json>, fields: map<string, Json>, v: Option<Json>)
    ensures !Accepts(ZodLiteral(Array(items)), v) && !Accepts(ZodLiteral(Object(fields)), v)
    ensures forall literal :: Accepts(ZodLiteral(literal), v) ==> v == Some(literal)
    ensures Accepts(ZodLiteral(Null), Some(Null)) && Accepts(ZodLiteral(String("")), Some(String("")))
  {
  }

  /** The usual shape of a tool's parameters meets the hypotheses under which meaning is preserved. */
  lemma UsualParameters(key: string, choice: string, list: string, values: seq<string>)
    ensures
      var z := ZodObject([Field(key, ZodString(_ => true)), Field(choice, ZodOptional(ZodEnum(values))),
                          Field(list, ZodDefault(ZodArray(ZodNumber(_ => true), _ => true), Array([])))]);
      Supported(z) && Unrefined(z) && !HasNullable(z)
  {
    var shape := [Field(key, ZodString(_ => true)), Field(choice, ZodOptional(ZodEnum(values))),
                  Field(list, ZodDefault(ZodArray(ZodNumber(_ => true), _ => true), Array([])))];
    assert !HasNullable(ZodEnum(values)) && !HasNullable(ZodArray(ZodNumber(_ => true), _ => true));
    assert forall i :: 0 <= i < |shape| ==> !HasNullable(shape[i].schema);
  }

  /** The fallback for unknown constructs is no more permissive than an object: it shuts out every other value. */
  lemma FallbackRejectsNonObjects(accepts: Option<Json> -> bool, v: Json)
    ensures Satisfies(Translate(ZodOther(accepts)), v) <==> v.Object?
  {
  }

  /** A nullable string admits null, and its schema does not. */
  lemma NullableIsDropped()
    ensures
      var z := ZodNullable(ZodString(_ => true));
      Accepts(z, Some(Null)) && !Satisfies(Translate(z), Null)
  {
  }
}
