/** The research agent's configuration: the shared model fields plus the
    number of initial queries and the research-loop limit. Its reading of a
    runtime configuration puts the environment ahead of the runtime entries,
    the opposite of the shared configuration's order. */
module AgentConfiguration {
  import opened Wrappers
  import opened PyText
  import opened SharedConfiguration

  /** The fields of the agent's `Configuration`: the inherited ones and its
      own two. */
  datatype AgentField = Shared(f: Field) | NumberOfInitialQueries | MaxResearchLoops

  function Name(af: AgentField): string {
    match af
    case Shared(f) => FieldName(f)
    case NumberOfInitialQueries => "number_of_initial_queries"
    case MaxResearchLoops => "max_research_loops"
  }

  /** The environment variable read for a field, `name.upper()`. */
  function AgentEnvName(af: AgentField): string {
    Upper(Name(af))
  }

  /** Every field, in `model_fields` order. */
  function AllAgentFields(): (fs: seq<AgentField>)
    ensures forall af :: af in fs
  {
    var shared := seq(|AllFields|, i requires 0 <= i < |AllFields| => Shared(AllFields[i]));
    assert forall f :: Shared(f) in shared by {
      forall f ensures Shared(f) in shared {
        AllFieldsListed(f);
        var i :| 0 <= i < |AllFields| && AllFields[i] == f;
        assert shared[i] == Shared(f);
      }
    }
    var fs := shared + [NumberOfInitialQueries, MaxResearchLoops];
    assert forall af :: af in fs by {
      forall af ensures af in fs {
        if af.Shared? {
          assert af in shared;
        } else {
          assert fs[|fs| - 2] == NumberOfInitialQueries && fs[|fs| - 1] == MaxResearchLoops;
        }
      }
    }
    fs
  }

  /** `config["configurable"] if config and "configurable" in config else {}`:
      a missing configuration or entry reads as an empty dictionary; an entry
      of `None` cannot be read from. */
  function Configurable(config: Option<RunnableConfig>): (r: Result<map<string, Value>>)
    ensures config.None? ==> r == Ok(map[])
    ensures config.Some? && config.value.configurable.Missing? ==> r == Ok(map[])
    ensures config.Some? && config.value.configurable.Has? ==> r == Ok(config.value.configurable.value)
    ensures config.Some? && config.value.configurable.Null? ==> r.Err?
  {
    match config
    case None => Ok(map[])
    case Some(rc) =>
      match rc.configurable
      case Missing => Ok(map[])
      case Null => Err("'NoneType' object has no attribute 'get'")
      case Has(cf) => Ok(cf)
  }

  /** `os.environ.get(name.upper(), configurable.get(name))`, with `None`
      written `NullValue`. */
  function RawValue(configurable: map<string, Value>, env: map<string, string>, af: AgentField): Value {
    if AgentEnvName(af) in env then Str(env[AgentEnvName(af)])
    else if Name(af) in configurable then configurable[Name(af)]
    else NullValue
  }

  /** The keyword arguments passed to the constructor: the raw values that
      are not `None`. */
  function Values(configurable: map<string, Value>, env: map<string, string>): (values: map<string, Value>)
    ensures forall af :: Name(af) in values <==> RawValue(configurable, env, af) != NullValue
    ensures forall af :: Name(af) in values ==> values[Name(af)] == RawValue(configurable, env, af)
  {
    var fields := AllAgentFields();
    NamesDistinct();
    map af | af in fields && RawValue(configurable, env, af) != NullValue :: Name(af) := RawValue(configurable, env, af)
  }

  lemma NamesDistinct()
    ensures forall a, b :: Name(a) == Name(b) ==> a == b
  {
    forall a, b | Name(a) == Name(b) ensures a == b {
      if a.Shared? && b.Shared? {
        assert FieldName(a.f) == FieldName(b.f);
      }
    }
  }

  /** What a field's default factory gives. For the two integer fields the
      factory parses the environment variable, which is set only when the
      constructor already has a value for the field, so the parse is reached
      only with the variable unset. */
  function DefaultValue(af: AgentField, env: map<string, string>): Value {
    match af
    case Shared(f) => Str(GetEnv(env, EnvName(f), HardDefault(f)))
    case NumberOfInitialQueries => Int(5)
    case MaxResearchLoops => Int(3)
  }

  /** Pydantic's validation of one keyword argument: a string field takes
      only a string; an integer field takes an integer, or a string holding an
      integer literal, which it converts. `None` is a validation error. */
  function Coerce(af: AgentField, v: Value): (r: Option<Value>)
    ensures af.Shared? ==> (r.Some? <==> v.Str?) && (r.Some? ==> r.value == v)
    ensures !af.Shared? ==> (r.Some? <==> v.Int? || (v.Str? && ParseInt(v.s).Some?))
    ensures !af.Shared? && r.Some? ==> r.value.Int? && (v.Int? ==> r.value == v) &&
                                       (v.Str? ==> r.value.i == ParseInt(v.s).value)
  {
    match af
    case Shared(_) => if v.Str? then Some(v) else None
    case _ =>
      match v
      case Int(_) => Some(v)
      case Str(t) => if ParseInt(t).Some? then Some(Int(ParseInt(t).value)) else None
      case NullValue => None
  }

  /** Every keyword argument passes validation. */
  predicate AllValid(values: map<string, Value>) {
    var fields := AllAgentFields();
    forall i :: 0 <= i < |fields| && Name(fields[i]) in values ==> Coerce(fields[i], values[Name(fields[i])]).Some?
  }

  /** `cls(**values)` once validation passes: the converted keyword
      arguments. */
  function Validate(values: map<string, Value>): (fields: map<string, Value>)
    requires forall af :: Name(af) in values ==> Coerce(af, values[Name(af)]).Some?
    ensures forall af :: Name(af) in fields <==> Name(af) in values
    ensures forall af :: Name(af) in values ==> fields[Name(af)] == Coerce(af, values[Name(af)]).value
  {
    var all := AllAgentFields();
    NamesDistinct();
    map af | af in all && Name(af) in values :: Name(af) := Coerce(af, values[Name(af)]).value
  }

  /** The value field `af` ends up with: a kept raw value, else the field's
      default. */
  function FieldValue(values: map<string, Value>, env: map<string, string>, af: AgentField): Value {
    if Name(af) in values then values[Name(af)] else DefaultValue(af, env)
  }

  /** `cls(**values)`: a keyword argument that fails validation raises;
      otherwise every field holds its converted argument or its default. */
  function Construct(values: map<string, Value>, env: map<string, string>): (r: Result<map<string, Value>>)
    ensures r.Ok? <==> forall af :: Name(af) in values ==> Coerce(af, values[Name(af)]).Some?
    ensures r.Ok? ==> forall af :: FieldValue(r.value, env, af) ==
                                   if Name(af) in values then Coerce(af, values[Name(af)]).value else DefaultValue(af, env)
    ensures r.Ok? ==> forall af :: FieldValue(r.value, env, af).Int? <==> !af.Shared?
    ensures r.Ok? ==> forall f :: FieldValue(r.value, env, Shared(f)).Str?
  {
    if AllValid(values) then
      AllValidCoerces(values);
      var fields := Validate(values);
      ValidatedFields(values, env);
      Ok(fields)
    else
      assert exists af :: Name(af) in values && Coerce(af, values[Name(af)]).None?;
      Err("validation error for Configuration")
  }

  lemma AllValidCoerces(values: map<string, Value>)
    requires AllValid(values)
    ensures forall af :: Name(af) in values ==> Coerce(af, values[Name(af)]).Some?
  {
    forall af | Name(af) in values ensures Coerce(af, values[Name(af)]).Some? {
      AllAgentFieldsIndex(af);
    }
  }

  lemma ValidatedFields(values: map<string, Value>, env: map<string, string>)
    requires forall af :: Name(af) in values ==> Coerce(af, values[Name(af)]).Some?
    ensures forall af :: FieldValue(Validate(values), env, af) ==
                         if Name(af) in values then Coerce(af, values[Name(af)]).value else DefaultValue(af, env)
    ensures forall af :: FieldValue(Validate(values), env, af).Int? <==> !af.Shared?
    ensures forall f :: FieldValue(Validate(values), env, Shared(f)).Str?
  {
    var fields := Validate(values);
    forall af ensures FieldValue(fields, env, af) ==
                      if Name(af) in values then Coerce(af, values[Name(af)]).value else DefaultValue(af, env)
    {
      assert Name(af) in fields <==> Name(af) in values;
    }
  }

  /** `Configuration.from_runnable_config`, as the value of every field
      given to the constructor: reading `"configurable"` from `None` raises,
      and so does a keyword argument that fails validation. */
  function FromRunnableConfig(config: Option<RunnableConfig>, env: map<string, string>): (r: Result<map<string, Value>>)
    ensures Configurable(config).Err? ==> r.Err?
    ensures Configurable(config).Ok? ==>
              var values := Values(Configurable(config).value, env);
              (r.Ok? <==> forall af :: Name(af) in values ==> Coerce(af, values[Name(af)]).Some?) &&
              (r.Ok? ==> forall af :: FieldValue(r.value, env, af) ==
                                     if Name(af) in values then Coerce(af, values[Name(af)]).value else DefaultValue(af, env))
    ensures r.Ok? ==> forall af :: FieldValue(r.value, env, af).Int? <==> !af.Shared?
    ensures r.Ok? ==> forall f :: FieldValue(r.value, env, Shared(f)).Str?
  {
    match Configurable(config)
    case Err(e) => Err(e)
    case Ok(cf) => Construct(Values(cf, env), env)
  }

  lemma AllAgentFieldsIndex(af: AgentField)
    ensures exists i :: 0 <= i < |AllAgentFields()| && AllAgentFields()[i] == af
  {
    assert af in AllAgentFields();
  }

  /** The value a field ends up with, read off the raw value of that one
      field. */
  lemma FieldOf(config: Option<RunnableConfig>, env: map<string, string>, af: AgentField)
    requires FromRunnableConfig(config, env).Ok?
    ensures Configurable(config).Ok?
    ensures var raw := RawValue(Configurable(config).value, env, af);
            (raw != NullValue ==> Coerce(af, raw).Some? &&
                                  FieldValue(FromRunnableConfig(config, env).value, env, af) == Coerce(af, raw).value) &&
            (raw == NullValue ==> FieldValue(FromRunnableConfig(config, env).value, env, af) == DefaultValue(af, env))
  {
    var values := Values(Configurable(config).value, env);
    assert Name(af) in values <==> RawValue(Configurable(config).value, env, af) != NullValue;
  }

  /** The environment variable wins over the runtime entry. */
  lemma AgentEnvWins(config: Option<RunnableConfig>, env: map<string, string>, af: AgentField)
    requires FromRunnableConfig(config, env).Ok? && AgentEnvName(af) in env
    ensures Coerce(af, Str(env[AgentEnvName(af)])).Some?
    ensures FieldValue(FromRunnableConfig(config, env).value, env, af) == Coerce(af, Str(env[AgentEnvName(af)])).value
  {
    FieldOf(config, env, af);
  }

  /** Without the environment variable, a runtime entry that is not `None`
      gives the field its value. */
  lemma AgentConfigurableNext(cf: map<string, Value>, env: map<string, string>, af: AgentField)
    requires FromRunnableConfig(Some(RunnableConfig(Has(cf))), env).Ok?
    requires AgentEnvName(af) !in env && Name(af) in cf && cf[Name(af)] != NullValue
    ensures Coerce(af, cf[Name(af)]).Some?
    ensures FieldValue(FromRunnableConfig(Some(RunnableConfig(Has(cf))), env).value, env, af) == Coerce(af, cf[Name(af)]).value
  {
    FieldOf(Some(RunnableConfig(Has(cf))), env, af);
  }

  /** A runtime entry of `None` is dropped: the field gets its default, as if
      the entry were absent. */
  lemma AgentNoneDropped(cf: map<string, Value>, env: map<string, string>, af: AgentField)
    requires FromRunnableConfig(Some(RunnableConfig(Has(cf))), env).Ok?
    requires AgentEnvName(af) !in env && Name(af) in cf && cf[Name(af)] == NullValue
    ensures FieldValue(FromRunnableConfig(Some(RunnableConfig(Has(cf))), env).value, env, af) == DefaultValue(af, env)
    ensures FromRunnableConfig(Some(RunnableConfig(Has(cf - {Name(af)}))), env).Ok?
    ensures FieldValue(FromRunnableConfig(Some(RunnableConfig(Has(cf - {Name(af)}))), env).value, env, af) == DefaultValue(af, env)
  {
    var c, c' := Some(RunnableConfig(Has(cf))), Some(RunnableConfig(Has(cf - {Name(af)})));
    FieldOf(c, env, af);
    DropNoneSameRaw(cf, env, af);
    SameRawSameValues(cf - {Name(af)}, cf, env);
    assert FromRunnableConfig(c', env) == FromRunnableConfig(c, env);
  }

  /** Dropping an entry of `None` changes no raw value. */
  lemma DropNoneSameRaw(cf: map<string, Value>, env: map<string, string>, af: AgentField)
    requires Name(af) in cf && cf[Name(af)] == NullValue
    ensures forall b :: RawValue(cf - {Name(af)}, env, b) == RawValue(cf, env, b)
  {
    forall b ensures RawValue(cf - {Name(af)}, env, b) == RawValue(cf, env, b) {
      if Name(b) == Name(af) {
        NamesDistinct();
      }
    }
  }

  /** The keyword arguments depend on the runtime dictionary only through
      the raw values. */
  lemma SameRawSameValues(cf1: map<string, Value>, cf2: map<string, Value>, env: map<string, string>)
    requires forall af :: RawValue(cf1, env, af) == RawValue(cf2, env, af)
    ensures Values(cf1, env) == Values(cf2, env)
  {
  }

  /** No configuration and a configuration without `"configurable"` both
      read as an empty runtime dictionary. */
  lemma AgentMissingConfigurable(env: map<string, string>)
    ensures FromRunnableConfig(None, env) == FromRunnableConfig(Some(RunnableConfig(Missing)), env)
    ensures FromRunnableConfig(None, env) == FromRunnableConfig(Some(RunnableConfig(Has(map[]))), env)
  {
  }

  /** With neither the environment nor the runtime dictionary giving them,
      the agent makes 5 initial queries and at most 3 research loops, and each
      shared field has its hard-coded default. */
  lemma AgentDefaults(config: Option<RunnableConfig>, env: map<string, string>)
    requires FromRunnableConfig(config, env).Ok?
    requires forall af :: AgentEnvName(af) !in env
    requires config.Some? && config.value.configurable.Has? ==>
               forall af :: Name(af) !in config.value.configurable.value
    ensures FieldValue(FromRunnableConfig(config, env).value, env, NumberOfInitialQueries) == Int(5)
    ensures FieldValue(FromRunnableConfig(config, env).value, env, MaxResearchLoops) == Int(3)
    ensures forall f :: FieldValue(FromRunnableConfig(config, env).value, env, Shared(f)) == Str(HardDefault(f))
  {
    FieldOf(config, env, NumberOfInitialQueries);
    FieldOf(config, env, MaxResearchLoops);
    forall f ensures FieldValue(FromRunnableConfig(config, env).value, env, Shared(f)) == Str(HardDefault(f)) {
      assert AgentEnvName(Shared(f)) == EnvName(f);
      FieldOf(config, env, Shared(f));
    }
  }

  /** A keyword argument that fails validation makes the constructor raise,
      whichever layer it came from. */
  lemma InvalidValueRaises(config: Option<RunnableConfig>, env: map<string, string>, af: AgentField)
    requires Configurable(config).Ok?
    requires var raw := RawValue(Configurable(config).value, env, af); raw != NullValue && Coerce(af, raw).None?
    ensures FromRunnableConfig(config, env).Err?
  {
    var values := Values(Configurable(config).value, env);
    assert Name(af) in values;
  }

  /** A loop limit given as a word, or an integer for a string field, is
      refused. */
  lemma NonNumericLimitRaises(cf: map<string, Value>, env: map<string, string>)
    requires AgentEnvName(MaxResearchLoops) !in env && FieldName(ModelProvider) !in cf
    ensures FromRunnableConfig(Some(RunnableConfig(Has(cf[Name(MaxResearchLoops) := Str("many")]))), env).Err?
    ensures AgentEnvName(Shared(ModelProvider)) !in env ==>
              FromRunnableConfig(Some(RunnableConfig(Has(cf[FieldName(ModelProvider) := Int(5)]))), env).Err?
  {
    assert !IsDigit('m');
    InvalidValueRaises(Some(RunnableConfig(Has(cf[Name(MaxResearchLoops) := Str("many")]))), env, MaxResearchLoops);
    if AgentEnvName(Shared(ModelProvider)) !in env {
      InvalidValueRaises(Some(RunnableConfig(Has(cf[FieldName(ModelProvider) := Int(5)]))), env, Shared(ModelProvider));
    }
  }

  /** An integer written to the environment the way `str` writes it is read
      back as that integer. */
  lemma EnvIntegerRead(config: Option<RunnableConfig>, env: map<string, string>, n: int)
    requires FromRunnableConfig(config, env).Ok?
    requires AgentEnvName(NumberOfInitialQueries) in env && env[AgentEnvName(NumberOfInitialQueries)] == IntToStr(n)
    ensures FieldValue(FromRunnableConfig(config, env).value, env, NumberOfInitialQueries) == Int(n)
  {
    AgentEnvWins(config, env, NumberOfInitialQueries);
    ParseIntToStr(n);
  }

  /** The two readings layer the same inputs in opposite orders: with a field
      set both in the environment and in the runtime dictionary, the shared
      configuration takes the runtime value and the agent the environment's. */
  lemma OppositePrecedence(cf: map<string, Value>, env: map<string, string>, f: Field)
    requires SharedConfiguration.FromRunnableConfig(Some(RunnableConfig(Has(cf))), env).Ok?
    requires FromRunnableConfig(Some(RunnableConfig(Has(cf))), env).Ok?
    requires EnvName(f) in env && FieldName(f) in cf
    ensures Str(Get(SharedConfiguration.FromRunnableConfig(Some(RunnableConfig(Has(cf))), env).value, f)) == cf[FieldName(f)]
    ensures FieldValue(FromRunnableConfig(Some(RunnableConfig(Has(cf))), env).value, env, Shared(f)) == Str(env[EnvName(f)])
  {
    SharedPrecedence(cf, env, f);
    assert AgentEnvName(Shared(f)) == EnvName(f);
    AgentEnvWins(Some(RunnableConfig(Has(cf))), env, Shared(f));
  }
}
