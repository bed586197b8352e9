/** The marketplace registry (`components.skills` of `registry.yaml`): an
    ordered list of skill entries, at most one per name when built by these
    operations. Installing a skill and publishing one locally both replace the
    entry with the same name where there is one and append otherwise. */
module SkillRegistry {
  import opened Wrappers
  import opened SkillManifest

  /** How the entry got into the registry: installed from a source at a time,
      or published locally at a time. */
  datatype Origin = Installed(source: string, installed: string) | PublishedLocally(published: string)

  datatype Entry = Entry(
    name: string,
    version: string,
    skillType: Option<string>,
    description: Option<string>,
    capabilities: seq<string>,
    path: string,
    origin: Origin)

  /** `x || fallback` for an optional string. */
  function OrElse(x: Option<string>, fallback: string): (r: string)
    ensures (x.Some? && x.value != []) ==> r == x.value
    ensures !(x.Some? && x.value != []) ==> r == fallback
  {
    if x.Some? && x.value != [] then x.value else fallback
  }

  /** `findIndex(s => s.name === name)`: the first position holding `name`,
      or -1. */
  function IndexOf(s: seq<Entry>, name: string): (r: int)
    ensures -1 <= r < |s|
    ensures r >= 0 ==> s[r].name == name && forall j :: 0 <= j < r ==> s[j].name != name
    ensures r < 0 ==> forall j :: 0 <= j < |s| ==> s[j].name != name
  {
    if s == [] then -1
    else if s[0].name == name then 0
    else
      var k := IndexOf(s[1..], name);
      if k < 0 then -1 else k + 1
  }

  /** The registry after storing `e`: in place of the first entry with its
      name, or at the end. */
  function Upserted(s: seq<Entry>, e: Entry): seq<Entry> {
    var i := IndexOf(s, e.name);
    if i >= 0 then s[i := e] else s + [e]
  }

  predicate HasName(s: seq<Entry>, name: string) {
    exists j :: 0 <= j < |s| && s[j].name == name
  }

  /** No two entries share a name. */
  predicate UniqueNames(s: seq<Entry>) {
    forall i, j :: 0 <= i < j < |s| ==> s[i].name != s[j].name
  }

  /** What storing an entry does: the list grows by one exactly when the name
      was new, the entry is then the one found under its name, every other
      entry keeps its place, and unique names stay unique. */
  lemma UpsertedMeaning(s: seq<Entry>, e: Entry)
    ensures HasName(s, e.name) ==> |Upserted(s, e)| == |s|
    ensures !HasName(s, e.name) ==> |Upserted(s, e)| == |s| + 1 && Upserted(s, e)[|s|] == e
    ensures var i := IndexOf(Upserted(s, e), e.name); i >= 0 && Upserted(s, e)[i] == e
    ensures forall j :: 0 <= j < |s| && s[j].name != e.name ==> Upserted(s, e)[j] == s[j]
    ensures forall n :: n != e.name ==> IndexOf(Upserted(s, e), n) == IndexOf(s, n)
    ensures UniqueNames(s) ==> UniqueNames(Upserted(s, e))
  {
    var r := Upserted(s, e);
    var i := IndexOf(s, e.name);
    assert HasName(s, e.name) <==> i >= 0;
    if i >= 0 {
      assert r[i] == e;
      assert IndexOf(r, e.name) == i;
    } else {
      assert r[|s|] == e;
      assert IndexOf(r, e.name) == |s|;
    }
    forall n | n != e.name
      ensures IndexOf(r, n) == IndexOf(s, n)
    {
      IndexOfUnchanged(s, r, n, e.name);
    }
  }

  /** Looking up another name sees the same entries before and after, so it
      finds the same position. */
  lemma IndexOfUnchanged(s: seq<Entry>, r: seq<Entry>, n: string, other: string)
    requires n != other
    requires |s| <= |r|
    requires forall j :: 0 <= j < |s| ==> (r[j] == s[j] || (r[j].name == other && s[j].name == other))
    requires forall j :: |s| <= j < |r| ==> r[j].name == other
    ensures IndexOf(r, n) == IndexOf(s, n)
  {
    var k := IndexOf(s, n);
    if k >= 0 {
      assert r[k] == s[k];
    }
  }

  /** Storing the same entry twice is storing it once. */
  lemma UpsertedIdempotent(s: seq<Entry>, e: Entry)
    ensures Upserted(Upserted(s, e), e) == Upserted(s, e)
  {
    UpsertedMeaning(s, e);
  }

  /** A later entry under the same name replaces an earlier one entirely. */
  lemma UpsertedLastWins(s: seq<Entry>, e1: Entry, e2: Entry)
    requires e1.name == e2.name
    ensures Upserted(Upserted(s, e1), e2) == Upserted(s, e2)
  {
    UpsertedMeaning(s, e1);
    var i := IndexOf(s, e1.name);
    if i < 0 {
      assert IndexOf(Upserted(s, e1), e2.name) == |s|;
    } else {
      var r := Upserted(s, e1);
      assert r[i].name == e2.name;
      assert forall j :: 0 <= j < i ==> r[j] == s[j];
      assert IndexOf(r, e2.name) == i;
    }
  }

  /** The entry `updateRegistry` builds for an installed skill: the given
      version or "latest", the type and capabilities of its manifest, and its
      directory under the skills directory. */
  function InstallEntry(name: string, source: string, version: Option<string>, now: string,
                        skillsDir: string, m: Manifest): (e: Entry)
    ensures e.name == name && e.origin == Installed(source, now)
    ensures version.Some? && version.value != [] ==> e.version == version.value
    ensures version.None? || version.value == [] ==> e.version == "latest"
    ensures e.capabilities == (if m.capabilities.Some? then m.capabilities.value else [])
    ensures e.skillType == m.skillType && e.description == None
    ensures e.path == skillsDir + "/" + name
  {
    Entry(name, OrElse(version, "latest"), m.skillType, None,
          if m.capabilities.Some? then m.capabilities.value else [],
          skillsDir + "/" + name, Installed(source, now))
  }

  /** The entry local publishing builds: the given version or the manifest's,
      the manifest's type, description and capabilities, and the skill's own
      directory. */
  function PublishEntry(name: string, version: Option<string>, m: Manifest, skillPath: string,
                        now: string): (e: Entry)
    requires Truthy(m.version)
    ensures e.name == name && e.origin == PublishedLocally(now) && e.path == skillPath
    ensures e.version != []
    ensures version.None? || version.value == [] ==> e.version == m.version.value
    ensures version.Some? && version.value != [] ==> e.version == version.value
    ensures e.skillType == m.skillType && e.description == m.description
    ensures e.capabilities == (if m.capabilities.Some? then m.capabilities.value else [])
  {
    Entry(name, OrElse(version, m.version.value), m.skillType, m.description,
          if m.capabilities.Some? then m.capabilities.value else [],
          skillPath, PublishedLocally(now))
  }

  /** Why `mas_publish_skill` refuses: "Skill not found: <name>" when the
      skill directory is missing, "Cannot publish - validation failed: ..."
      when its manifest is invalid. */
  datatype PublishRefusal = SkillNotFound(name: string) | ValidationFailed(error: ManifestError)

  function RefusalText(e: PublishRefusal): string {
    match e
    case SkillNotFound(name) => "Skill not found: " + name
    case ValidationFailed(error) => "Cannot publish - validation failed: " + Message(error)
  }

  /** The registry as the marketplace keeps it between calls. */
  class Registry {
    var version: string
    var skills: seq<Entry>

    /** The registry used when none can be read. */
    constructor()
      ensures version == "2.0.0" && skills == []
    {
      version := "2.0.0";
      skills := [];
    }

    /** The position of the skill called `name`, or -1. */
    method FindSkill(name: string) returns (i: int)
      ensures i == IndexOf(skills, name)
    {
      i := 0;
      while i < |skills| && skills[i].name != name
        invariant 0 <= i <= |skills|
        invariant forall j :: 0 <= j < i ==> skills[j].name != name
      {
        i := i + 1;
      }
      if i == |skills| {
        i := -1;
      }
    }

    /** Replace the entry at the index found, or append. */
    method Store(e: Entry)
      modifies this
      ensures skills == Upserted(old(skills), e)
      ensures version == old(version)
    {
      var i := FindSkill(e.name);
      if i >= 0 {
        skills := skills[i := e];
      } else {
        skills := skills + [e];
      }
    }

    /** The registry step of `mas_install_skill` once the skill is copied:
        an invalid manifest fails the install and leaves the registry alone,
        a valid one is recorded by `updateRegistry`. */
    method RecordInstall(name: string, source: string, requested: Option<string>, now: string,
                         skillsDir: string, json: SkillJson, schemaFound: bool)
      returns (r: Result<Entry, ManifestError>)
      modifies this
      ensures r.Err? <==> ValidateSkillJson(json, schemaFound).Err?
      ensures r.Err? ==> r.error == ValidateSkillJson(json, schemaFound).error && skills == old(skills)
      ensures r.Ok? ==> json.Parsed? && Conforms(json.manifest)
      ensures r.Ok? ==> r.value == InstallEntry(name, source, requested, now, skillsDir, json.manifest)
      ensures r.Ok? ==> skills == Upserted(old(skills), r.value)
      ensures version == old(version)
    {
      var v := ValidateSkillJson(json, schemaFound);
      ValidateSkillJsonMeaning(json, schemaFound);
      if v.Err? {
        return Err(v.error);
      }
      var e := InstallEntry(name, source, requested, now, skillsDir, v.value);
      Store(e);
      r := Ok(e);
    }

    /** `mas_publish_skill` in local mode: a skill directory that does not
        exist is refused before anything is read, an invalid manifest stops
        the publication, and a valid one is stored as a local entry. */
    method PublishLocal(name: string, found: bool, requested: Option<string>, skillPath: string, now: string,
                        json: SkillJson, schemaFound: bool)
      returns (r: Result<Entry, PublishRefusal>)
      modifies this
      ensures !found ==> r == Err(SkillNotFound(name))
      ensures found ==> (r.Err? <==> ValidateSkillJson(json, schemaFound).Err?)
      ensures found && r.Err? ==> r.error == ValidationFailed(ValidateSkillJson(json, schemaFound).error)
      ensures r.Err? ==> skills == old(skills)
      ensures r.Ok? ==> found && json.Parsed? && Conforms(json.manifest)
      ensures r.Ok? ==> r.value == PublishEntry(name, requested, json.manifest, skillPath, now)
      ensures r.Ok? ==> skills == Upserted(old(skills), r.value)
      ensures version == old(version)
    {
      if !found {
        return Err(SkillNotFound(name));
      }
      var v := ValidateSkillJson(json, schemaFound);
      ValidateSkillJsonMeaning(json, schemaFound);
      if v.Err? {
        return Err(ValidationFailed(v.error));
      }
      var e := PublishEntry(name, requested, v.value, skillPath, now);
      Store(e);
      r := Ok(e);
    }
  }
}
