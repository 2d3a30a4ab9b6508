/** DataQualityApp: the application's configuration and its checks, the
    workflow schedule it derives, and the mapper that picks the record fields
    handed to the aggregations. */
module DataQuality {
  import opened Wrappers
  import opened JavaStrings

  newtype int8 = x: int | -0x80 <= x < 0x80
  newtype int32 = x: int | -0x8000_0000 <= x < 0x8000_0000
  newtype int64 = x: int | -0x8000_0000_0000_0000 <= x < 0x8000_0000_0000_0000

  const DEFAULT_WORKFLOW_SCHEDULE_MINUTES: int32 := 5
  const DEFAULT_DATASET_NAME := "dataQuality"

  // ---------------------------------------------------------- configuration

  /** A batch source: plugin name, source id and plugin properties. */
  datatype DataQualitySource = DataQualitySource(name: Option<string>, id: Option<string>, properties: map<string, string>)

  /** Field name to the names of the aggregations computed over it. */
  type FieldAggregations = map<string, set<string>>

  datatype ConfigClass = ConfigClass(
    workflowScheduleMinutes: int32, source: DataQualitySource, datasetName: string,
    fieldAggregations: Option<FieldAggregations>)

  /** What the Guava preconditions throw. */
  datatype ConfigError = IllegalArgument(message: string) | NullPointer(message: string)

  /** The Stream source the default configuration reads: every five minutes
      of the `logStream` stream, in common log format. */
  function DefaultSource(): DataQualitySource {
    DataQualitySource(Some("Stream"), Some("logStream"),
      map["name" := "logStream", "duration" := IntToString(DEFAULT_WORKFLOW_SCHEDULE_MINUTES as int) + "m", "format" := "clf"])
  }

  function DefaultAggregations(): FieldAggregations {
    map["content_length" := {"DiscreteValuesHistogram"}]
  }

  /** The no-argument constructor. */
  function DefaultConfig(): ConfigClass {
    ConfigClass(DEFAULT_WORKFLOW_SCHEDULE_MINUTES, DefaultSource(), DEFAULT_DATASET_NAME, Some(DefaultAggregations()))
  }

  /** The four-argument constructor: its checks in order, the first failing
      one deciding the exception; the aggregations may be null. */
  function NewConfig(workflowScheduleMinutes: int32, source: Option<DataQualitySource>, datasetName: Option<string>,
                     fieldAggregations: Option<FieldAggregations>): (r: Result<ConfigClass, ConfigError>)
    ensures r.Success? <==>
      workflowScheduleMinutes > 0 && source.Some? && !IsNullOrEmpty(source.value.name) &&
      !IsNullOrEmpty(source.value.id) && !IsNullOrEmpty(datasetName)
    ensures r.Success? ==> r.value == ConfigClass(workflowScheduleMinutes, source.value, datasetName.value, fieldAggregations)
    ensures workflowScheduleMinutes <= 0 ==> r.Failure? && r.error.IllegalArgument?
    ensures workflowScheduleMinutes > 0 && source.None? ==> r.Failure? && r.error.NullPointer?
    ensures r.Failure? && r.error.NullPointer? ==> workflowScheduleMinutes > 0 && source.None?
  {
    if workflowScheduleMinutes <= 0 then
      Failure(IllegalArgument("Workflow Frequency in minutes (>0) should be provided"))
    else if source.None? then
      Failure(NullPointer("Configuration for DataQualityApp Source is missing"))
    else if IsNullOrEmpty(source.value.name) then
      Failure(IllegalArgument("Data Quality source name should not be null or empty"))
    else if IsNullOrEmpty(source.value.id) then
      Failure(IllegalArgument("Data Quality source id should not be null or empty"))
    else if IsNullOrEmpty(datasetName) then
      Failure(IllegalArgument("Output Dataset name should be not be null or empty"))
    else
      Success(ConfigClass(workflowScheduleMinutes, source.value, datasetName.value, fieldAggregations))
  }

  /** The default configuration is one the checked constructor accepts. */
  lemma DefaultConfigPassesChecks()
    ensures NewConfig(DEFAULT_WORKFLOW_SCHEDULE_MINUTES, Some(DefaultSource()), Some(DEFAULT_DATASET_NAME),
                      Some(DefaultAggregations())) == Success(DefaultConfig())
    ensures DefaultConfig().source.properties["duration"] == "5m"
  {
    assert IntToString(5) == "5";
  }

  // ---------------------------------------------------------- schedule

  /** The cron entry `configure` schedules the workflow with: every `minutes` minutes. */
  function CronSchedule(minutes: int32): string {
    "*/" + IntToString(minutes as int) + " * * * *"
  }

  /** The schedule as `configure` registers it. */
  datatype TimeSchedule = TimeSchedule(name: string, description: string, cronEntry: string, workflow: string)

  function WorkflowSchedule(config: ConfigClass): TimeSchedule {
    var m := config.workflowScheduleMinutes;
    TimeSchedule("Data Quality Workflow Schedule",
                 "Schedule execution every" + IntToString(m as int) + " min",
                 CronSchedule(m), "DataQualityWorkflow")
  }

  /** The default configuration runs the workflow every five minutes. An
      instance of `CronScheduleFields` for the default, which also pins the
      description text. */
  lemma DefaultWorkflowSchedule()
    ensures WorkflowSchedule(DefaultConfig()).cronEntry == "*/5 * * * *"
    ensures WorkflowSchedule(DefaultConfig()).description == "Schedule execution every5 min"
  {
    assert IntToString(5) == "5";
  }

  lemma NumeralHasNoSpace(i: int)
    ensures ' ' !in IntToString(i)
  {
    var s := IntToString(i);
    if i >= 0 {
      assert IsDigits(s);
      assert forall k :: 0 <= k < |s| ==> s[k] != ' ';
    } else {
      assert IsDigits(s[1..]);
      assert forall k :: 1 <= k < |s| ==> s[k] == s[1..][k - 1];
    }
  }

  /** The cron entry has five fields: a step of `minutes` in the minute
      field, and every hour, day, month and weekday; the step reads back as
      `minutes`. */
  lemma CronScheduleFields(minutes: int32)
    ensures var fields := Split(CronSchedule(minutes), ' ');
      fields == ["*/" + IntToString(minutes as int), "*", "*", "*", "*"] &&
      IsIntegerLiteral(fields[0][2..]) && ParseInt(fields[0][2..]) == minutes as int
  {
    var step := "*/" + IntToString(minutes as int);
    NumeralHasNoSpace(minutes as int);
    assert ' ' !in step by {
      assert forall k :: 2 <= k < |step| ==> step[k] == IntToString(minutes as int)[k - 2];
    }
    var parts := [step, "*", "*", "*", "*"];
    assert Join(parts, ' ') == step + " " + "*" + " " + "*" + " " + "*" + " " + "*" by {
      assert parts[1..] == ["*", "*", "*", "*"];
      assert ["*", "*", "*", "*"][1..] == ["*", "*", "*"];
      assert ["*", "*", "*"][1..] == ["*", "*"];
      assert ["*", "*"][1..] == ["*"];
    }
    assert CronSchedule(minutes) == step + " " + "*" + " " + "*" + " " + "*" + " " + "*";
    SplitJoin(parts, ' ');
    assert step[2..] == IntToString(minutes as int);
    IntToStringRoundTrip(minutes as int);
  }

  // ---------------------------------------------------------- records

  datatype SchemaType = NULL | BOOLEAN | INT | LONG | FLOAT | DOUBLE | BYTES | STRING | ENUM | ARRAY | MAP | RECORD | UNION

  /** A field's schema: a plain type, or a nullable one (a union with null). */
  datatype FieldSchema = Simple(schemaType: SchemaType) | Nullable(nonNullable: SchemaType)

  /** The Java object a record holds for a field. Floating-point values are
      carried, never computed with. */
  datatype JavaObject =
    | JString(s: string)
    | JInteger(i: int32)
    | JLong(l: int64)
    | JDouble(d: real)
    | JFloat(f: real)
    | JBoolean(b: bool)
    | JByte(y: int8)
    | JByteArray(bytes: seq<bv8>)
    | JOther

  /** One field of a StructuredRecord: its name, its schema and its value (None for null). */
  datatype Field = Field(name: string, schema: FieldSchema, value: Option<JavaObject>)

  /** The value the DataQualityWritable wraps. */
  datatype Writable =
    | TextW(s: string)
    | IntW(i: int32)
    | LongW(l: int64)
    | DoubleW(d: real)
    | FloatW(f: real)
    | BooleanW(b: bool)
    | ByteW(y: int8)

  /** The type `map` switches on: the non-null branch of a nullable schema. */
  function EffectiveType(s: FieldSchema): SchemaType {
    match s
    case Simple(t) => t
    case Nullable(t) => t
  }

  predicate Supported(t: SchemaType) {
    t in {STRING, INT, LONG, DOUBLE, FLOAT, BOOLEAN, BYTES}
  }

  /** A raised ClassCastException. */
  datatype ClassCastException = ClassCastException

  /** Whether the object is of the class `getOutputValue` casts to for a
      supported type: String, Integer, Long, Double, Float, Boolean, and Byte
      for BYTES. */
  predicate CastsTo(t: SchemaType, o: JavaObject) {
    match t
    case STRING => o.JString?
    case INT => o.JInteger?
    case LONG => o.JLong?
    case DOUBLE => o.JDouble?
    case FLOAT => o.JFloat?
    case BOOLEAN => o.JBoolean?
    case BYTES => o.JByte?
    case _ => false
  }

  /** The writable wraps exactly the object's own value, in the Hadoop
      writable of the object's class. */
  predicate Carries(w: Writable, o: JavaObject) {
    match w
    case TextW(s) => o == JString(s)
    case IntW(i) => o == JInteger(i)
    case LongW(l) => o == JLong(l)
    case DoubleW(d) => o == JDouble(d)
    case FloatW(f) => o == JFloat(f)
    case BooleanW(b) => o == JBoolean(b)
    case ByteW(y) => o == JByte(y)
  }

  /** `getOutputValue`: the writable for a supported type, None (null) for any
      other type, and a ClassCastException when the object is not of the
      class the type is cast to (a BYTES field is cast to Byte). */
  function GetOutputValue(t: SchemaType, o: JavaObject): (r: Result<Option<Writable>, ClassCastException>)
    ensures !Supported(t) <==> r == Success(None)
    ensures Supported(t) ==> (r.Failure? <==> !CastsTo(t, o))
    ensures r.Success? && r.value.Some? ==> Supported(t) && Carries(r.value.value, o)
    ensures t == BYTES && o.JByteArray? ==> r.Failure?
  {
    match t
    case STRING => if o.JString? then Success(Some(TextW(o.s))) else Failure(ClassCastException)
    case INT => if o.JInteger? then Success(Some(IntW(o.i))) else Failure(ClassCastException)
    case LONG => if o.JLong? then Success(Some(LongW(o.l))) else Failure(ClassCastException)
    case DOUBLE => if o.JDouble? then Success(Some(DoubleW(o.d))) else Failure(ClassCastException)
    case FLOAT => if o.JFloat? then Success(Some(FloatW(o.f))) else Failure(ClassCastException)
    case BOOLEAN => if o.JBoolean? then Success(Some(BooleanW(o.b))) else Failure(ClassCastException)
    case BYTES => if o.JByte? then Success(Some(ByteW(o.y))) else Failure(ClassCastException)
    case _ => Success(None)
  }

  /** What one field of `map` produces: nothing for a null value, an
      unsupported type or a field outside a non-empty field set; a pair for
      `context.write`; or the exception a failed cast raises. */
  function FieldOutput(fieldsSet: set<string>, f: Field): Result<Option<(string, Writable)>, ClassCastException> {
    if f.value.None? then Success(None)
    else match GetOutputValue(EffectiveType(f.schema), f.value.value)
      case Failure(e) => Failure(e)
      case Success(w) =>
        if w.Some? && (f.name in fieldsSet || fieldsSet == {}) then Success(Some((f.name, w.value))) else Success(None)
  }

  /** The pairs `map` writes for a record, in schema order, and whether it
      ends with a ClassCastException (after writing the pairs before it). */
  datatype MapResult = MapResult(emitted: seq<(string, Writable)>, failed: bool)

  function MapOutput(fieldsSet: set<string>, fields: seq<Field>): MapResult {
    if fields == [] then MapResult([], false)
    else
      var p := MapOutput(fieldsSet, fields[..|fields| - 1]);
      if p.failed then p
      else match FieldOutput(fieldsSet, fields[|fields| - 1])
        case Failure(_) => MapResult(p.emitted, true)
        case Success(None) => p
        case Success(Some(pair)) => MapResult(p.emitted + [pair], false)
  }

  /** A field is written exactly when its value is non-null, its type is one
      of the seven supported ones and the cast succeeds, and the field set is
      empty or names it. */
  lemma FieldOutputCases(fieldsSet: set<string>, f: Field)
    ensures FieldOutput(fieldsSet, f).Success? && FieldOutput(fieldsSet, f).value.Some? <==>
      f.value.Some? && Supported(EffectiveType(f.schema)) &&
      GetOutputValue(EffectiveType(f.schema), f.value.value).Success? &&
      (fieldsSet == {} || f.name in fieldsSet)
    ensures FieldOutput(fieldsSet, f).Success? && FieldOutput(fieldsSet, f).value.Some? ==>
      FieldOutput(fieldsSet, f).value.value == (f.name, GetOutputValue(EffectiveType(f.schema), f.value.value).value.value)
    // the pair is the field's name with a writable of the field's own value
    ensures FieldOutput(fieldsSet, f).Success? && FieldOutput(fieldsSet, f).value.Some? ==>
      FieldOutput(fieldsSet, f).value.value.0 == f.name && Carries(FieldOutput(fieldsSet, f).value.value.1, f.value.value)
    ensures FieldOutput(fieldsSet, f).Failure? <==>
      f.value.Some? && GetOutputValue(EffectiveType(f.schema), f.value.value).Failure?
  {
  }

  /** `map` fails exactly when some field's cast fails. */
  lemma {:induction false} MapOutputFails(fieldsSet: set<string>, fields: seq<Field>)
    ensures MapOutput(fieldsSet, fields).failed <==> exists i :: 0 <= i < |fields| && FieldOutput(fieldsSet, fields[i]).Failure?
  {
    if fields != [] {
      var n := |fields| - 1;
      var init := fields[..n];
      MapOutputFails(fieldsSet, init);
      assert forall i :: 0 <= i < n ==> init[i] == fields[i];
      if MapOutput(fieldsSet, init).failed {
        var i :| 0 <= i < n && FieldOutput(fieldsSet, init[i]).Failure?;
        assert FieldOutput(fieldsSet, fields[i]).Failure?;
      }
    }
  }

  /** When `map` does not fail, a pair is written exactly when some field
      produces it, and at most one pair per field. */
  lemma {:induction false} MapOutputEmits(fieldsSet: set<string>, fields: seq<Field>)
    ensures !MapOutput(fieldsSet, fields).failed ==>
      forall pair :: pair in MapOutput(fieldsSet, fields).emitted <==>
        exists i :: 0 <= i < |fields| && FieldOutput(fieldsSet, fields[i]) == Success(Some(pair))
    ensures |MapOutput(fieldsSet, fields).emitted| <= |fields|
  {
    if fields != [] {
      var n := |fields| - 1;
      var init := fields[..n];
      MapOutputEmits(fieldsSet, init);
      assert forall i :: 0 <= i < n ==> init[i] == fields[i];
      var p := MapOutput(fieldsSet, init);
      if !p.failed && FieldOutput(fieldsSet, fields[n]).Success? {
        forall pair | exists i :: 0 <= i < |fields| && FieldOutput(fieldsSet, fields[i]) == Success(Some(pair))
          ensures pair in MapOutput(fieldsSet, fields).emitted
        {
          var i :| 0 <= i < |fields| && FieldOutput(fieldsSet, fields[i]) == Success(Some(pair));
          if i < n {
            assert FieldOutput(fieldsSet, init[i]) == Success(Some(pair));
          }
        }
      }
    }
  }

  /** Every pair `map` writes is some field's name with a writable of that
      field's own value. */
  lemma MapWritesFieldValues(fieldsSet: set<string>, fields: seq<Field>, pair: (string, Writable))
    requires !MapOutput(fieldsSet, fields).failed && pair in MapOutput(fieldsSet, fields).emitted
    ensures exists i ::
      0 <= i < |fields| && fields[i].name == pair.0 && fields[i].value.Some? && Carries(pair.1, fields[i].value.value)
  {
    MapOutputEmits(fieldsSet, fields);
    var i :| 0 <= i < |fields| && FieldOutput(fieldsSet, fields[i]) == Success(Some(pair));
    FieldOutputCases(fieldsSet, fields[i]);
  }

  /** An empty field set selects every field whose value converts. */
  lemma EmptyFieldSetSelectsAll(f: Field)
    requires f.value.Some?
    requires GetOutputValue(EffectiveType(f.schema), f.value.value).Success?
    ensures FieldOutput({}, f).Success? &&
      (FieldOutput({}, f).value.Some? <==> Supported(EffectiveType(f.schema)))
  {
  }

  // ---------------------------------------------------------- the mapper

  /** The Hadoop context the mapper writes to. */
  class MapContext {
    var written: seq<(string, Writable)>

    constructor ()
      ensures written == []
    {
      written := [];
    }

    method Write(name: string, w: Writable)
      modifies this
      ensures written == old(written) + [(name, w)]
    {
      written := written + [(name, w)];
    }
  }

  class AggregationMapper {
    var fieldsSet: set<string>

    constructor ()
      ensures fieldsSet == {}
    {
      fieldsSet := {};
    }

    /** `initialize`: the fields named by the configured aggregations; the
        set is left as it was when the configuration has none (null). */
    method Initialize(fieldAggregations: Option<FieldAggregations>)
      modifies this
      ensures fieldsSet == if fieldAggregations.Some? then fieldAggregations.value.Keys else old(fieldsSet)
    {
      if fieldAggregations.Some? {
        fieldsSet := fieldAggregations.value.Keys;
      }
    }

    /** `map`: writes each selected field in schema order; `thrown` says it
        stopped on a ClassCastException. */
    method Map(record: seq<Field>, context: MapContext) returns (thrown: bool)
      modifies context
      ensures context.written == old(context.written) + MapOutput(fieldsSet, record).emitted
      ensures thrown == MapOutput(fieldsSet, record).failed
    {
      var i := 0;
      while i < |record|
        invariant 0 <= i <= |record|
        invariant !MapOutput(fieldsSet, record[..i]).failed
        invariant context.written == old(context.written) + MapOutput(fieldsSet, record[..i]).emitted
      {
        var field := record[i];
        assert record[..i + 1][..i] == record[..i];
        if field.value.Some? {
          var outputValue := GetOutputValue(EffectiveType(field.schema), field.value.value);
          if outputValue.Failure? {
            assert MapOutput(fieldsSet, record[..i + 1]).failed;
            MapOutputStops(fieldsSet, record, i + 1);
            return true;
          }
          if outputValue.value.Some? && (field.name in fieldsSet || fieldsSet == {}) {
            context.Write(field.name, outputValue.value.value);
          }
        }
        i := i + 1;
      }
      assert record[..i] == record;
      thrown := false;
    }
  }

  /** After a failure nothing more is written. */
  lemma {:induction false} MapOutputStops(fieldsSet: set<string>, fields: seq<Field>, k: nat)
    requires k <= |fields| && MapOutput(fieldsSet, fields[..k]).failed
    ensures MapOutput(fieldsSet, fields) == MapOutput(fieldsSet, fields[..k])
    decreases |fields| - k
  {
    if k < |fields| {
      assert fields[..k + 1][..k] == fields[..k];
      MapOutputStops(fieldsSet, fields, k + 1);
    } else {
      assert fields[..k] == fields;
    }
  }

  /** A mapper set up from the default configuration writes only
      content_length, whatever else the record holds. */
  lemma DefaultMapperWritesContentLength(record: seq<Field>)
    requires !MapOutput(DefaultAggregations().Keys, record).failed
    ensures forall pair :: pair in MapOutput(DefaultAggregations().Keys, record).emitted ==> pair.0 == "content_length"
  {
    var fs := DefaultAggregations().Keys;
    assert fs == {"content_length"};
    MapOutputEmits(fs, record);
  }
}
