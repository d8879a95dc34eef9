/**
 * The common logic of authenticator plugins: how a configuration serializer
 * describes its fields to the UI, how a plugin checks a configuration, and how
 * a plugin keeps itself in step with the `Authenticator` row it was loaded from.
 *
 * The serializer's own machinery is outside the model: its ordered
 * `get_fields()` is given as a sequence of named fields, and `is_valid()` as a
 * function of the data and the instance.
 */
module AuthenticatorPlugins {
  import opened Options

  /** A configuration value, as it comes from JSON. */
  datatype Datum =
    | NullDatum
    | Text(s: string)
    | Number(n: int)
    | Boolean(b: bool)
    | Items(items: seq<Datum>)

  /** A configuration: option name to value. */
  type Configuration = map<string, Datum>

  /** A field's `default`: DRF's `empty` sentinel, or a value. */
  datatype FieldDefault = Empty | Given(value: Datum)

  /**
   * What the schema reads from a serializer field. An attribute the field
   * does not have is `None`; `choices` holds the field's value/label pairs.
   * `uiFieldLabel` tells an absent `ui_field_label` (`None`) from one that is
   * present, whose value may itself be Python's `None` (`Some(None)`).
   */
  datatype SerializerField = SerializerField(
    required: Option<bool>,
    allowNull: Option<bool>,
    default: FieldDefault,
    helpText: Option<string>,
    className: string,
    uiFieldLabel: Option<Option<string>>,
    choices: Option<seq<(string, string)>>)

  /** One entry of the configuration schema handed to the UI. */
  datatype SchemaEntry = SchemaEntry(
    name: string,
    helpText: Option<string>,
    required: bool,
    default: Datum,
    typeName: string,
    uiFieldLabel: Option<string>,             // `None` shows as null
    choices: Option<seq<(string, string)>>)   // `None` when the entry has no "choices" key

  /** The label used when a field has no `ui_field_label`. */
  const UndefinedLabel := "Undefined"

  // ---------------------------------------------------------------------------
  // The configuration schema

  /** `_field_required`: `required` if the field has it, else the opposite of `allow_null`, else true. */
  function FieldRequired(field: SerializerField): (r: bool)
    ensures field.required.Some? ==> r == field.required.value
    ensures field.required.None? && field.allowNull.Some? ==> r == !field.allowNull.value
    ensures field.required.None? && field.allowNull.None? ==> r
  {
    match field.required
    case Some(required) => required
    case None =>
      match field.allowNull
      case Some(allowNull) => !allowNull
      case None => true
  }

  /** Python truthiness of a `choices` attribute. */
  predicate HasChoices(choices: Option<seq<(string, string)>>) {
    choices.Some? && choices.value != []
  }

  /** The schema entry describing the field named `name`. */
  function EntryOf(name: string, field: SerializerField): SchemaEntry {
    SchemaEntry(
      name,
      field.helpText,
      FieldRequired(field),
      if field.default.Empty? then NullDatum else field.default.value,
      field.className,
      if field.uiFieldLabel.Some? then field.uiFieldLabel.value else Some(UndefinedLabel),
      if HasChoices(field.choices) then field.choices else None)
  }

  /**
   * An entry carries the field's name, class name and help text; the `empty`
   * default shows as null and any other default as itself; the label is the
   * field's own, null included, and falls back to "Undefined" only when the
   * field has none; and choices are listed only when the field has some.
   */
  lemma EntryOfSpec(name: string, field: SerializerField)
    ensures var e := EntryOf(name, field);
      e.name == name && e.typeName == field.className && e.helpText == field.helpText &&
      e.required == FieldRequired(field) &&
      (field.default == Empty ==> e.default == NullDatum) &&
      (field.default.Given? ==> e.default == field.default.value) &&
      (field.uiFieldLabel.None? ==> e.uiFieldLabel == Some(UndefinedLabel)) &&
      (field.uiFieldLabel.Some? ==> e.uiFieldLabel == field.uiFieldLabel.value) &&
      (e.choices.Some? <==> HasChoices(field.choices)) &&
      (e.choices.Some? ==> e.choices == field.choices)
  {
  }

  /** `get_configuration_schema`: one entry per field, in field order. */
  method GetConfigurationSchema(fields: seq<(string, SerializerField)>) returns (schema: seq<SchemaEntry>)
    ensures |schema| == |fields|
    ensures forall k :: 0 <= k < |fields| ==> schema[k] == EntryOf(fields[k].0, fields[k].1)
    ensures forall k :: 0 <= k < |fields| ==>
      schema[k].name == fields[k].0 && schema[k].required == FieldRequired(fields[k].1)
  {
    schema := [];
    for i := 0 to |fields|
      invariant |schema| == i
      invariant forall k :: 0 <= k < i ==> schema[k] == EntryOf(fields[k].0, fields[k].1)
    {
      var (name, field) := fields[i];
      var default := NullDatum;
      if field.default.Given? {
        default := field.default.value;
      }
      var uiLabel := if field.uiFieldLabel.Some? then field.uiFieldLabel.value else Some(UndefinedLabel);
      var entry := SchemaEntry(name, field.helpText, FieldRequired(field), default, field.className, uiLabel, None);
      if HasChoices(field.choices) {
        entry := entry.(choices := field.choices);
      }
      schema := schema + [entry];
    }
  }

  // ---------------------------------------------------------------------------
  // The plugin

  /** An `Authenticator` row, as far as a plugin reads it. */
  datatype Authenticator = Authenticator(
    name: string,
    slug: string,
    category: string,
    modified: int,   // the `modified` timestamp
    configuration: Configuration)

  /** A logger, known by its name. */
  datatype Logger = Logger(name: string)

  /** The logger a plugin falls back to. */
  const DefaultLogger := Logger("ansible_base.authentication.models.abstract_authenticator")

  /** Which of its three log lines `update_if_needed` writes. */
  datatype UpdateEvent = Created | Updated | Unchanged

  /**
   * A plugin's `configuration_class`: whether it subclasses
   * BaseAuthenticatorConfiguration, its fields, and its `is_valid` check,
   * which gives the validated data or the serializer's field errors.
   */
  datatype ConfigurationClass = ConfigurationClass(
    subclassesBase: bool,
    fields: seq<(string, SerializerField)>,
    check: (Configuration, Option<Authenticator>) -> Checked)

  /** What `is_valid(raise_exception=True)` ends in: `validated_data`, or the ValidationError's field errors. */
  datatype Checked = Valid(data: Configuration) | FieldErrors(errors: map<string, string>)

  /** Why a configuration is refused. */
  datatype Failure =
    | NotAConfigurationClass                // TypeError: configuration_class is not a BaseAuthenticatorConfiguration
    | Invalid(fieldErrors: map<string, string>)   // ValidationError raised by `is_valid`
    | Unsupported(errors: map<string, string>)    // ValidationError naming the unknown options

  datatype Outcome<+T> = Success(value: T) | Refused(failure: Failure)

  /** The names of a serializer's fields. */
  function FieldNames(fields: seq<(string, SerializerField)>): (r: set<string>)
    ensures forall x :: x in r <==> exists k :: 0 <= k < |fields| && fields[k].0 == x
  {
    if fields == [] then {}
    else
      var init := fields[..|fields| - 1];
      var r := FieldNames(init) + {fields[|fields| - 1].0};
      assert forall k :: 0 <= k < |init| ==> init[k] == fields[k];
      r
  }

  /** The message for an option the configuration class does not know. */
  function UnsupportedMessage(key: string): string {
    key + " is not a supported configuration option."
  }

  /** `get_login_url`: the social-auth start URL for single-sign-on authenticators, nothing otherwise. */
  function GetLoginUrl(beginUrl: string -> string, authenticator: Authenticator): (r: Option<string>)
    ensures r.Some? <==> authenticator.category == "sso"
    ensures r.Some? ==> r.value == beginUrl(authenticator.slug)
  {
    if authenticator.category == "sso" then Some(beginUrl(authenticator.slug)) else None
  }

  /** `add_related_fields`: a plugin adds no related links. */
  function AddRelatedFields(authenticator: Authenticator): (r: map<string, string>)
    ensures |r| == 0
  {
    map[]
  }

  /** `validate`: the serializer's data passes through unchanged. */
  function Validate(data: Configuration): (r: Configuration)
    ensures r == data
  {
    data
  }

  /** `update_if_needed` re-adopts an authenticator when it has none, or the stamps differ. */
  predicate NeedsUpdate(current: Option<Authenticator>, given: Authenticator) {
    current.None? || current.value.modified != given.modified
  }

  /** `AbstractAuthenticatorPlugin`: the state every authenticator plugin keeps. */
  class AuthenticatorPlugin {
    const configurationClass: ConfigurationClass
    var databaseInstance: Option<Authenticator>
    var settings: Option<Configuration>   // `None` until `update_settings` first runs
    var logger: Option<Logger>            // `None` until `set_logger` first runs

    constructor (configurationClass: ConfigurationClass, databaseInstance: Option<Authenticator>)
      ensures this.configurationClass == configurationClass
      ensures this.databaseInstance == databaseInstance
      ensures settings.None? && logger.None?
    {
      this.configurationClass := configurationClass;
      this.databaseInstance := databaseInstance;
      settings := None;
      logger := None;
    }

    /** `set_logger`: keep the given logger, or fall back to the default one when given none. */
    method SetLogger(given: Option<Logger>)
      modifies this
      ensures given.Some? ==> logger == given
      ensures given.None? ==> logger == Some(DefaultLogger)
      ensures databaseInstance == old(databaseInstance) && settings == old(settings)
    {
      if given.None? {
        logger := Some(DefaultLogger);
      } else {
        logger := given;
      }
    }

    /** `update_settings`: the plugin's settings become the authenticator's configuration. */
    method UpdateSettings(authenticator: Authenticator)
      modifies this
      ensures settings == Some(authenticator.configuration)
      ensures databaseInstance == old(databaseInstance) && logger == old(logger)
    {
      settings := Some(authenticator.configuration);
    }

    /**
     * `update_if_needed`: adopt the authenticator and its configuration when
     * the plugin has none yet or its `modified` stamp differs; otherwise
     * change nothing. Either way a second call with the same authenticator
     * finds nothing to do. Each branch writes a log line first, so the
     * plugin needs a logger: without one `self.logger.info` fails.
     */
    method UpdateIfNeeded(authenticator: Authenticator) returns (event: UpdateEvent)
      requires logger.Some?
      modifies this
      ensures NeedsUpdate(old(databaseInstance), authenticator) ==>
        databaseInstance == Some(authenticator) && settings == Some(authenticator.configuration)
      ensures !NeedsUpdate(old(databaseInstance), authenticator) ==>
        databaseInstance == old(databaseInstance) && settings == old(settings)
      ensures event == Created <==> old(databaseInstance).None?
      ensures event == Updated <==> old(databaseInstance).Some? && NeedsUpdate(old(databaseInstance), authenticator)
      ensures !NeedsUpdate(databaseInstance, authenticator)
      ensures logger == old(logger)
    {
      if NeedsUpdate(databaseInstance, authenticator) {
        event := if databaseInstance.Some? then Updated else Created;
        databaseInstance := Some(authenticator);
        UpdateSettings(authenticator);
      } else {
        event := Unchanged;
      }
    }

    /**
     * `validate_configuration`: refuse a configuration class that is not a
     * BaseAuthenticatorConfiguration before looking at the data, then let the
     * serializer check it, then refuse every option the serializer has no field
     * for, naming each of them and no other; otherwise give the validated data.
     */
    method ValidateConfiguration(data: Configuration, instance: Option<Authenticator>) returns (r: Outcome<Configuration>)
      ensures !configurationClass.subclassesBase ==> r == Refused(NotAConfigurationClass)
      ensures configurationClass.subclassesBase && configurationClass.check(data, instance).FieldErrors? ==>
        r == Refused(Invalid(configurationClass.check(data, instance).errors))
      ensures configurationClass.subclassesBase && configurationClass.check(data, instance).Valid? ==>
        var unknown := data.Keys - FieldNames(configurationClass.fields);
        (unknown == {} ==> r == Success(configurationClass.check(data, instance).data)) &&
        (unknown != {} ==>
          (r.Refused? && r.failure.Unsupported? && r.failure.errors.Keys == unknown &&
           forall k :: k in r.failure.errors ==> r.failure.errors[k] == UnsupportedMessage(k)))
    {
      if !configurationClass.subclassesBase {
        return Refused(NotAConfigurationClass);
      }
      var validated := configurationClass.check(data, instance);
      if validated.FieldErrors? {
        return Refused(Invalid(validated.errors));
      }
      var allowed := FieldNames(configurationClass.fields);
      var errors: map<string, string> := map[];
      var remaining := data.Keys;
      while remaining != {}
        invariant remaining <= data.Keys
        invariant errors.Keys == (data.Keys - remaining) - allowed
        invariant forall k :: k in errors ==> errors[k] == UnsupportedMessage(k)
        decreases remaining
      {
        var k :| k in remaining;
        if k !in allowed {
          errors := errors[k := UnsupportedMessage(k)];
        }
        remaining := remaining - {k};
      }
      assert errors.Keys == data.Keys - allowed;
      if errors != map[] {
        return Refused(Unsupported(errors));
      }
      assert data.Keys - allowed == {};
      return Success(validated.data);
    }
  }
}
