/** The marketplace's checks on a skill's `skill.json` manifest
    (`validateSkillJson`): the manifest must exist, parse, be checked against
    an installed v2.0 schema, carry the four required fields, and have an
    allowed type, a lower-case name and a short description with trigger
    context. The first rule broken decides the error. */
module SkillManifest {
  import opened Wrappers
  import opened Text

  /** The fields of a parsed manifest the checks look at, each `None` when the
      key is absent. */
  datatype Manifest = Manifest(
    name: Option<string>,
    version: Option<string>,
    skillType: Option<string>,
    description: Option<string>,
    capabilities: Option<seq<string>>)

  /** What reading `skill.json` gives: no file, text `JSON.parse` rejects
      (with the parser's message), the JSON value `null`, or any other value.
      A number, string or array has none of the keys, so it appears as a
      manifest with every field `None`. */
  datatype SkillJson = Absent | Unparsable(message: string) | Null | Parsed(manifest: Manifest)

  datatype ManifestError =
    | NotFound
    | ParseError(message: string)
    | SchemaMissing
    | MissingRequired(fields: seq<string>)
    | InvalidType
    | InvalidName
    | DescriptionTooLong
    | NoTriggerContext

  const RequiredFields: seq<string> := ["name", "version", "type", "description"]
  const SkillTypes: seq<string> := ["base", "meta", "composite"]
  const MaxDescription := 1024
  /** The alternatives of the trigger-context pattern, matched without regard
      to ASCII case. */
  const Triggers: seq<string> := ["what", "when", "use", "if", "when user", "when task"]
  /** The engine's message for reading the first required key of `null`. */
  const NullAccess := "Cannot read properties of null (reading 'name')"

  /** JavaScript truthiness of a string-valued field. */
  predicate Truthy(f: Option<string>) {
    f.Some? && f.value != []
  }

  function Field(m: Manifest, key: string): Option<string> {
    if key == "name" then m.name
    else if key == "version" then m.version
    else if key == "type" then m.skillType
    else if key == "description" then m.description
    else None
  }

  /** The keys of `keys` whose field is not truthy, in the given order. */
  function MissingOf(m: Manifest, keys: seq<string>): (r: seq<string>)
    ensures forall k :: k in r <==> k in keys && !Truthy(Field(m, k))
    ensures |r| <= |keys|
  {
    if keys == [] then []
    else
      var rest := MissingOf(m, keys[1..]);
      assert forall k :: k in keys <==> k == keys[0] || k in keys[1..];
      if Truthy(Field(m, keys[0])) then rest else [keys[0]] + rest
  }

  /** `required.filter(field => !skillJson[field])`: empty exactly when all
      four required fields are truthy. */
  function MissingFields(m: Manifest): (r: seq<string>)
    ensures r == [] <==>
      Truthy(m.name) && Truthy(m.version) && Truthy(m.skillType) && Truthy(m.description)
    ensures forall k :: k in r <==> k in RequiredFields && !Truthy(Field(m, k))
  {
    var r := MissingOf(m, RequiredFields);
    assert "name" in RequiredFields && "version" in RequiredFields;
    assert "type" in RequiredFields && "description" in RequiredFields;
    assert r != [] ==> r[0] in r;
    r
  }

  predicate NameChar(c: char) {
    ('a' <= c <= 'z') || ('0' <= c <= '9') || c == '-'
  }

  /** `/^[a-z0-9-]+$/` */
  predicate ValidName(s: string) {
    |s| > 0 && forall i :: 0 <= i < |s| ==> NameChar(s[i])
  }

  predicate HasTrigger(d: string) {
    exists k :: 0 <= k < |Triggers| && Contains(Lower(d), Triggers[k])
  }

  /** The four required fields are all present and non-empty. */
  predicate FieldsPresent(m: Manifest) {
    Truthy(m.name) && Truthy(m.version) && Truthy(m.skillType) && Truthy(m.description)
  }

  /** Every content rule at once, for a manifest whose fields are strings. */
  predicate Conforms(m: Manifest) {
    && FieldsPresent(m)
    && m.skillType.value in SkillTypes
    && ValidName(m.name.value)
    && |m.description.value| <= MaxDescription
    && HasTrigger(m.description.value)
  }

  /** `validateSkillJson` on the manifest as read and on whether the v2.0
      schema file could be read. */
  function ValidateSkillJson(json: SkillJson, schemaFound: bool): Result<Manifest, ManifestError> {
    match json
    case Absent => Err(NotFound)
    case Unparsable(msg) => Err(ParseError(msg))
    case Null => if !schemaFound then Err(SchemaMissing) else Err(ParseError(NullAccess))
    case Parsed(m) =>
      if !schemaFound then Err(SchemaMissing)
      else if MissingFields(m) != [] then Err(MissingRequired(MissingFields(m)))
      else if m.skillType.value !in SkillTypes then Err(InvalidType)
      else if !ValidName(m.name.value) then Err(InvalidName)
      else if |m.description.value| > MaxDescription then Err(DescriptionTooLong)
      else if !HasTrigger(m.description.value) then Err(NoTriggerContext)
      else Ok(m)
  }

  /** The `error` text the tools report. */
  function Message(e: ManifestError): string {
    match e
    case NotFound => "skill.json not found"
    case ParseError(msg) => "Parse error: " + msg
    case SchemaMissing => "v2.0 schema not found"
    case MissingRequired(fs) => "Missing required fields: " + Join(fs, ", ")
    case InvalidType => "Invalid type (must be base, meta, or composite)"
    case InvalidName => "Name must be lowercase, digits, hyphens only"
    case DescriptionTooLong => "Description too long (>1024 chars)"
    case NoTriggerContext => "Description must include trigger context (what/when)"
  }

  /** Which situation each error reports: the rule it names is broken and,
      for a content rule, the fields are present and every content rule
      checked before it (type, name, description length, trigger) holds. */
  predicate Reports(json: SkillJson, schemaFound: bool, e: ManifestError) {
    match e
    case NotFound => json.Absent?
    case ParseError(msg) =>
      (json.Unparsable? && msg == json.message) || (json.Null? && schemaFound && msg == NullAccess)
    case SchemaMissing => !json.Absent? && !json.Unparsable? && !schemaFound
    case MissingRequired(fs) =>
      json.Parsed? && fs != [] && fs == MissingFields(json.manifest)
    case InvalidType =>
      json.Parsed? && FieldsPresent(json.manifest)
      && json.manifest.skillType.value !in SkillTypes
    case InvalidName =>
      json.Parsed? && FieldsPresent(json.manifest)
      && json.manifest.skillType.value in SkillTypes
      && !ValidName(json.manifest.name.value)
    case DescriptionTooLong =>
      json.Parsed? && FieldsPresent(json.manifest)
      && json.manifest.skillType.value in SkillTypes
      && ValidName(json.manifest.name.value)
      && |json.manifest.description.value| > MaxDescription
    case NoTriggerContext =>
      json.Parsed? && FieldsPresent(json.manifest)
      && json.manifest.skillType.value in SkillTypes
      && ValidName(json.manifest.name.value)
      && |json.manifest.description.value| <= MaxDescription
      && !HasTrigger(json.manifest.description.value)
  }

  /** A manifest is accepted exactly when it parsed to an object, the schema
      is present and every content rule holds; the accepted manifest is the
      one read; a rejection names a rule that is broken, and a content rule is
      reported only once the fields are all present and the content rules
      before it hold. */
  lemma ValidateSkillJsonMeaning(json: SkillJson, schemaFound: bool)
    ensures ValidateSkillJson(json, schemaFound).Ok? <==>
      json.Parsed? && schemaFound && Conforms(json.manifest)
    ensures ValidateSkillJson(json, schemaFound).Ok? ==>
      ValidateSkillJson(json, schemaFound).value == json.manifest
    ensures ValidateSkillJson(json, schemaFound).Err? ==>
      Reports(json, schemaFound, ValidateSkillJson(json, schemaFound).error)
    ensures ValidateSkillJson(json, schemaFound).Err? ==>
      var e := ValidateSkillJson(json, schemaFound).error;
      (e.InvalidType? || e.InvalidName? || e.DescriptionTooLong? || e.NoTriggerContext?) ==>
        MissingFields(json.manifest) == []
  {
  }

  /** A missing file is reported before anything else, and a parse failure
      before a missing schema. */
  lemma ValidateSkillJsonOrder(json: SkillJson, schemaFound: bool)
    ensures json.Absent? ==> ValidateSkillJson(json, schemaFound) == Err(NotFound)
    ensures json.Unparsable? ==> ValidateSkillJson(json, schemaFound) == Err(ParseError(json.message))
    ensures !json.Absent? && !json.Unparsable? && !schemaFound ==>
      ValidateSkillJson(json, schemaFound) == Err(SchemaMissing)
  {
  }

  /** The missing-field error names the fields in the order name, version,
      type, description. */
  lemma MissingFieldsOrdered(m: Manifest)
    ensures forall i, j :: 0 <= i < j < |MissingFields(m)| ==>
      IndexIn(RequiredFields, MissingFields(m)[i]) < IndexIn(RequiredFields, MissingFields(m)[j])
  {
    MissingOfOrdered(m, RequiredFields);
  }

  function IndexIn(keys: seq<string>, k: string): int {
    if keys == [] then 0 else if keys[0] == k then 0 else 1 + IndexIn(keys[1..], k)
  }

  lemma {:induction false} MissingOfOrdered(m: Manifest, keys: seq<string>)
    requires forall i, j :: 0 <= i < j < |keys| ==> keys[i] != keys[j]
    ensures forall i, j :: 0 <= i < j < |MissingOf(m, keys)| ==>
      IndexIn(keys, MissingOf(m, keys)[i]) < IndexIn(keys, MissingOf(m, keys)[j])
    ensures forall k :: k in MissingOf(m, keys) ==> 0 <= IndexIn(keys, k) < |keys|
  {
    if keys != [] {
      var tail := keys[1..];
      MissingOfOrdered(m, tail);
      forall k | k in MissingOf(m, tail)
        ensures IndexIn(keys, k) == 1 + IndexIn(tail, k)
      {
        assert k in tail;
        var t :| 0 <= t < |tail| && tail[t] == k;
        assert keys[t + 1] == k;
      }
    }
  }
}
