/**
 * src/config.ts: the provider configuration, loaded once and validated.
 * Reading the file and parsing YAML are outside the model: the loaded
 * document arrives as a JavaScript value.
 */
module Config {
  import opened Json

  /** The members `validate` demands, in the order it checks them. */
  const RequiredFields: seq<string> :=
    ["apiHostname", "apiPath", "apiPort", "apiProtocol", "apiProvider",
     "modelName", "path", "public", "serverKey"]

  datatype ConfigError =
    | NotAnObject            // `field in config` threw: the document is a primitive, null or undefined
    | MissingField(field: string)
    | PublicNotBoolean

  /** `field in document`: objects answer by their own keys; arrays hold none of
      the named fields; on any other value `in` throws a TypeError. */
  function HasField(document: JsValue, field: string): Outcome<bool>
  {
    match document
    case Defined(JObject(m)) => Returned(field in m)
    case Defined(JArray(_)) => Returned(false)
    case _ => Threw(TypeError)
  }

  predicate IsContainer(document: JsValue) {
    document.Defined? && (document.value.JObject? || document.value.JArray?)
  }

  /** The first failing presence check among `fields`, in order. */
  function FirstAbsent(document: JsValue, fields: seq<string>): (r: Option<ConfigError>)
    ensures r == None <==> forall i :: 0 <= i < |fields| ==> HasField(document, fields[i]) == Returned(true)
    ensures r == Some(NotAnObject) <==> |fields| > 0 && !IsContainer(document)
    ensures r.Some? && r.value.MissingField? ==>
      exists i :: 0 <= i < |fields| && fields[i] == r.value.field
        && HasField(document, fields[i]) == Returned(false)
        && forall j :: 0 <= j < i ==> HasField(document, fields[j]) == Returned(true)
    ensures r != Some(PublicNotBoolean)
  {
    if |fields| == 0 then None
    else match HasField(document, fields[0])
      case Threw(_) => Some(NotAnObject)
      case Returned(present) =>
        if !present then Some(MissingField(fields[0]))
        else
          var r := FirstAbsent(document, fields[1..]);
          assert forall i :: 1 <= i < |fields| ==> fields[i] == fields[1..][i - 1];
          r
  }

  /** `typeof config.public === "boolean"`. */
  predicate PublicIsBoolean(document: JsValue) {
    match Member(document, "public")
    case Returned(Defined(JBool(_))) => true
    case _ => false
  }

  /** What `validate` decides for a loaded document: presence of every required
      member first, then the type of `public`. */
  function ValidateSpec(document: JsValue): Option<ConfigError>
  {
    match FirstAbsent(document, RequiredFields)
    case Some(e) => Some(e)
    case None => if PublicIsBoolean(document) then None else Some(PublicNotBoolean)
  }

  /** validate(): walks the required keys in order and stops at the first
      absent one, then checks the type of `public`. */
  method Validate(document: JsValue) returns (r: Option<ConfigError>)
    ensures r == ValidateSpec(document)
  {
    for i := 0 to |RequiredFields|
      invariant FirstAbsent(document, RequiredFields) == FirstAbsent(document, RequiredFields[i..])
    {
      var present := HasField(document, RequiredFields[i]);
      if present.Threw? {
        return Some(NotAnObject);
      }
      if !present.value {
        return Some(MissingField(RequiredFields[i]));
      }
      assert RequiredFields[i..][1..] == RequiredFields[i + 1..];
    }
    if !PublicIsBoolean(document) {
      return Some(PublicNotBoolean);
    }
    return None;
  }

  /** A document passes exactly when it is an object holding every required
      member, whatever their values, with a boolean `public`. */
  lemma ValidIff(document: JsValue)
    ensures ValidateSpec(document) == None <==>
      && document.Defined? && document.value.JObject?
      && (forall f :: f in RequiredFields ==> f in document.value.fields)
      && document.value.fields["public"].JBool?
  {
    var ok := FirstAbsent(document, RequiredFields) == None;
    if ok {
      assert HasField(document, RequiredFields[0]) == Returned(true);
      forall f | f in RequiredFields ensures f in document.value.fields {
        var i :| 0 <= i < |RequiredFields| && RequiredFields[i] == f;
        assert HasField(document, RequiredFields[i]) == Returned(true);
      }
    }
  }

  /** The error names the first absent member in list order. */
  lemma FirstMissingReported(document: JsValue, i: nat)
    requires IsContainer(document)
    requires i < |RequiredFields|
    requires HasField(document, RequiredFields[i]) == Returned(false)
    requires forall j :: 0 <= j < i ==> HasField(document, RequiredFields[j]) == Returned(true)
    ensures ValidateSpec(document) == Some(MissingField(RequiredFields[i]))
  {
    var r := FirstAbsent(document, RequiredFields);
    assert r.Some? && r.value.MissingField?;
    var k :| 0 <= k < |RequiredFields| && RequiredFields[k] == r.value.field
        && HasField(document, RequiredFields[k]) == Returned(false)
        && forall j :: 0 <= j < k ==> HasField(document, RequiredFields[j]) == Returned(true);
    assert k == i;
  }

  /** A document lacking a required member is never reported for the type of `public`. */
  lemma MissingBeforeBoolean(document: JsValue, f: string)
    requires f in RequiredFields
    requires HasField(document, f) != Returned(true)
    ensures ValidateSpec(document).Some? && ValidateSpec(document) != Some(PublicNotBoolean)
  {
    var i :| 0 <= i < |RequiredFields| && RequiredFields[i] == f;
    assert HasField(document, RequiredFields[i]) != Returned(true);
  }

  lemma {:induction false} FirstAbsentByPresence(a: map<string, JsonValue>, b: map<string, JsonValue>, fields: seq<string>)
    requires forall i :: 0 <= i < |fields| ==> (fields[i] in a <==> fields[i] in b)
    ensures FirstAbsent(Defined(JObject(a)), fields) == FirstAbsent(Defined(JObject(b)), fields)
  {
    if |fields| > 0 {
      assert forall i :: 0 <= i < |fields| - 1 ==> fields[1..][i] == fields[i + 1];
      FirstAbsentByPresence(a, b, fields[1..]);
      assert HasField(Defined(JObject(a)), fields[0]) == HasField(Defined(JObject(b)), fields[0]);
    }
  }

  /** Only presence of the required members and the type of `public` matter:
      their values (null included) and every other member (apiKey,
      systemMessage, dataCollectionEnabled, maxConnections, name, ...) are
      never looked at. */
  lemma PresenceOnly(a: map<string, JsonValue>, b: map<string, JsonValue>)
    requires forall f :: f in RequiredFields ==> (f in a <==> f in b)
    requires PublicIsBoolean(Defined(JObject(a))) == PublicIsBoolean(Defined(JObject(b)))
    ensures ValidateSpec(Defined(JObject(a))) == ValidateSpec(Defined(JObject(b)))
  {
    FirstAbsentByPresence(a, b, RequiredFields);
  }

  datatype Loaded = Loaded(manager: ConfigManager) | Invalid(error: ConfigError)

  /** ConfigManager: holds the validated document. The field is a constant, so
      no method can change the configuration after construction. */
  class ConfigManager {
    const config: map<string, JsonValue>

    ghost predicate Valid() {
      ValidateSpec(Defined(JObject(config))) == None
    }

    constructor (document: map<string, JsonValue>)
      requires ValidateSpec(Defined(JObject(document))) == None
      ensures config == document && Valid()
    {
      config := document;
    }

    /** `new ConfigManager(path)` once the file is read: assign, validate, and
        throw on the first violation. */
    static method Create(document: JsValue) returns (r: Loaded)
      ensures r.Invalid? <==> ValidateSpec(document).Some?
      ensures r.Invalid? ==> r.error == ValidateSpec(document).value
      ensures r.Loaded? ==> fresh(r.manager) && r.manager.Valid()
                            && document == Defined(JObject(r.manager.config))
    {
      var e := Validate(document);
      if e.Some? {
        return Invalid(e.value);
      }
      ValidIff(document);
      var m := new ConfigManager(document.value.fields);
      return Loaded(m);
    }

    /** getAll(). */
    function GetAll(): (all: map<string, JsonValue>)
      ensures forall k :: Get(k) == (if k in all then Defined(all[k]) else Undefined)
    {
      config
    }

    /** get(key): the stored value, `undefined` for an absent key. */
    function Get(key: string): (v: JsValue)
      ensures v.Defined? <==> key in config
      ensures v.Defined? ==> v.value == config[key]
    {
      if key in config then Defined(config[key]) else Undefined
    }
  }
}
