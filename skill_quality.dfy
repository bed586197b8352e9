/** The quality report of `mas_validate_skill`: a list of checks on a skill
    directory, points earned out of points available, the percentage and a
    quality grade. */
module SkillQuality {
  import opened Wrappers
  import opened Text
  import opened Rounding
  import opened SkillManifest

  /** What the validator finds in a skill directory: the manifest as read,
      whether the v2.0 schema could be read, the text of `SKILL.md` (`None`
      when there is no such file), and whether `scripts/` and `tests/` or
      `test/` exist. */
  datatype SkillDir = SkillDir(
    json: SkillJson,
    schemaFound: bool,
    skillMd: Option<string>,
    scripts: bool,
    tests: bool)

  /** The status column: ✅, ❌ and ⚠️. */
  datatype Mark = Pass | Fail | Warn

  datatype QualityCheck = QualityCheck(check: string, status: Mark, points: nat, error: Option<string>)

  datatype Assessment = Assessment(
    checks: seq<QualityCheck>,
    score: nat,
    maxScore: nat,
    percentage: int,
    quality: string)

  const ExistsName := "skill.json exists"
  const JsonName := "skill.json valid JSON"
  const SchemaName := "v2.0 schema compliance"
  const FieldsName := "All required fields"
  const SkillMdName := "SKILL.md exists"
  const ScriptsName := "scripts/ directory"
  const TestsName := "Test coverage"
  const PathsName := "No absolute paths"

  /** The points the listed checks carry. */
  function Earned(cs: seq<QualityCheck>): nat {
    if cs == [] then 0 else cs[0].points + Earned(cs[1..])
  }

  lemma {:induction false} EarnedConcat(a: seq<QualityCheck>, b: seq<QualityCheck>)
    ensures Earned(a + b) == Earned(a) + Earned(b)
  {
    if a == [] {
      assert a + b == b;
    } else {
      assert (a + b)[1..] == a[1..] + b;
      EarnedConcat(a[1..], b);
    }
  }

  lemma EarnedSnoc(cs: seq<QualityCheck>, c: QualityCheck)
    ensures Earned(cs + [c]) == Earned(cs) + c.points
  {
    EarnedConcat(cs, [c]);
  }

  lemma EarnedPair(a: QualityCheck, b: QualityCheck)
    ensures Earned([a, b]) == a.points + b.points
  {
    assert [a][1..] == [];
    assert Earned([a]) == a.points;
    EarnedSnoc([a], b);
    assert [a] + [b] == [a, b];
  }

  /** A check result worth `points` when it holds, and marked `miss` with no
      points otherwise. */
  function Scored(name: string, holds: bool, points: nat, miss: Mark, error: Option<string>): QualityCheck {
    if holds then QualityCheck(name, Pass, points, None) else QualityCheck(name, miss, 0, error)
  }

  /** `SKILL.md` exists, is not empty and names no absolute Windows or home
      path. */
  predicate CleanPaths(md: Option<string>) {
    md.Some? && md.value != [] && !Contains(md.value, "C:\\") && !Contains(md.value, "/home/")
  }

  function SchemaChecks(d: SkillDir, strict: bool): seq<QualityCheck> {
    if !strict then []
    else
      var v := ValidateSkillJson(d.json, d.schemaFound);
      [Scored(SchemaName, v.Ok?, 20, Fail, if v.Err? then Some(Message(v.error)) else None)]
  }

  /** The checks on a manifest that parsed to an object. */
  function ContentChecks(d: SkillDir, m: Manifest, checkTests: bool): seq<QualityCheck> {
    var missing := MissingFields(m);
    [ Scored(FieldsName, missing == [], 15, Fail, Some("Missing: " + Join(missing, ", "))),
      Scored(SkillMdName, d.skillMd.Some?, 10, Warn, None),
      Scored(ScriptsName, d.scripts, 5, Warn, None) ]
    + (if checkTests then [Scored(TestsName, d.tests, 15, Warn, None)] else [])
    + [Scored(PathsName, CleanPaths(d.skillMd), 5, Warn, None)]
  }

  /** The checks listed, in order. For the JSON value `null` the validator
      passes the JSON check, then fails reading the fields and lists the JSON
      check a second time as failed. */
  function ChecksOf(d: SkillDir, strict: bool, checkTests: bool): seq<QualityCheck> {
    match d.json
    case Absent => [QualityCheck(ExistsName, Fail, 0, None)]
    case Unparsable(msg) =>
      [QualityCheck(ExistsName, Pass, 10, None), QualityCheck(JsonName, Fail, 0, Some(msg))]
    case Null =>
      [QualityCheck(ExistsName, Pass, 10, None), QualityCheck(JsonName, Pass, 10, None)]
      + SchemaChecks(d, strict) + [QualityCheck(JsonName, Fail, 0, Some(NullAccess))]
    case Parsed(m) =>
      [QualityCheck(ExistsName, Pass, 10, None), QualityCheck(JsonName, Pass, 10, None)]
      + SchemaChecks(d, strict) + ContentChecks(d, m, checkTests)
  }

  /** The points on offer: each check reached adds its points, and reading a
      `null` manifest's fields adds the 15 of the required-fields check before
      it fails. */
  function Available(d: SkillDir, strict: bool, checkTests: bool): nat {
    var schema := if strict then 20 else 0;
    var tests := if checkTests then 15 else 0;
    match d.json
    case Absent => 10
    case Unparsable(_) => 20
    case Null => 20 + schema + 15
    case Parsed(_) => 20 + schema + 15 + 10 + 5 + tests + 5
  }

  /** Every check the validator can run passes. */
  predicate Flawless(d: SkillDir, strict: bool, checkTests: bool) {
    && d.json.Parsed?
    && (strict ==> ValidateSkillJson(d.json, d.schemaFound).Ok?)
    && MissingFields(d.json.manifest) == []
    && d.skillMd.Some? && d.scripts && (checkTests ==> d.tests)
    && CleanPaths(d.skillMd)
  }

  /** `maxScore > 0 ? Math.round(score / maxScore * 100) : 0` */
  function Percentage(score: nat, maxScore: nat): int {
    if maxScore > 0 then RoundRatio(100 * score, maxScore) else 0
  }

  function Grade(percentage: int): string {
    if percentage >= 90 then "Excellent"
    else if percentage >= 75 then "Good"
    else if percentage >= 60 then "Fair"
    else "Poor"
  }

  /** One check as the validator pushes it: its points when it holds, the
      mark `miss` and no points otherwise. */
  method Judge(name: string, holds: bool, points: nat, miss: Mark, error: Option<string>)
    returns (c: QualityCheck)
    ensures c == Scored(name, holds, points, miss, error)
  {
    if holds {
      c := QualityCheck(name, Pass, points, None);
    } else {
      c := QualityCheck(name, miss, 0, error);
    }
  }

  /** The checks that follow the required-fields lookup of a manifest that
      parsed to an object, with the points they earn and offer. */
  method CheckContents(d: SkillDir, m: Manifest, checkTests: bool)
    returns (checks: seq<QualityCheck>, score: nat, maxScore: nat)
    ensures checks == ContentChecks(d, m, checkTests)
    ensures score == Earned(checks)
    ensures maxScore == 35 + (if checkTests then 15 else 0)
  {
    var missing := MissingFields(m);
    maxScore := 15;
    var c1 := Judge(FieldsName, missing == [], 15, Fail, Some("Missing: " + Join(missing, ", ")));
    checks, score := [c1], c1.points;
    assert Earned([c1]) == c1.points;
    maxScore := maxScore + 10;
    var c2 := Judge(SkillMdName, d.skillMd.Some?, 10, Warn, None);
    EarnedSnoc(checks, c2);
    checks, score := checks + [c2], score + c2.points;
    maxScore := maxScore + 5;
    var c3 := Judge(ScriptsName, d.scripts, 5, Warn, None);
    EarnedSnoc(checks, c3);
    checks, score := checks + [c3], score + c3.points;
    assert checks == [c1, c2, c3];
    var tests: seq<QualityCheck> := [];
    if checkTests {
      maxScore := maxScore + 15;
      var c4 := Judge(TestsName, d.tests, 15, Warn, None);
      EarnedSnoc(checks, c4);
      checks, score := checks + [c4], score + c4.points;
      tests := [c4];
    }
    assert checks == [c1, c2, c3] + tests;
    maxScore := maxScore + 5;
    var c5 := Judge(PathsName, CleanPaths(d.skillMd), 5, Warn, None);
    EarnedSnoc(checks, c5);
    checks, score := checks + [c5], score + c5.points;
  }

  /** The schema check of strict mode, in order after the two file checks. */
  method CheckSchema(d: SkillDir, strict: bool) returns (checks: seq<QualityCheck>, score: nat, maxScore: nat)
    ensures checks == SchemaChecks(d, strict)
    ensures score == Earned(checks)
    ensures maxScore == (if strict then 20 else 0)
  {
    checks, score, maxScore := [], 0, 0;
    if strict {
      maxScore := 20;
      var v := ValidateSkillJson(d.json, d.schemaFound);
      var c := Judge(SchemaName, v.Ok?, 20, Fail, if v.Err? then Some(Message(v.error)) else None);
      checks, score := [c], c.points;
      assert Earned([c]) == c.points;
    }
  }

  /** The checks on a manifest that parsed as JSON, to an object or to `null`. */
  method CheckParsed(d: SkillDir, strict: bool, checkTests: bool)
    returns (checks: seq<QualityCheck>, score: nat, maxScore: nat)
    requires d.json.Null? || d.json.Parsed?
    ensures checks == ChecksOf(d, strict, checkTests)
    ensures score == Earned(checks)
    ensures maxScore == Available(d, strict, checkTests)
  {
    var head := [QualityCheck(ExistsName, Pass, 10, None), QualityCheck(JsonName, Pass, 10, None)];
    EarnedPair(head[0], head[1]);
    var schema, points, offered := CheckSchema(d, strict);
    EarnedConcat(head, schema);
    checks, score, maxScore := head + schema, 20 + points, 20 + offered;
    maxScore := maxScore + 15;
    if d.json.Null? {
      var failed := QualityCheck(JsonName, Fail, 0, Some(NullAccess));
      EarnedSnoc(checks, failed);
      checks := checks + [failed];
    } else {
      var rest, earned, more := CheckContents(d, d.json.manifest, checkTests);
      EarnedConcat(checks, rest);
      checks, score := checks + rest, score + earned;
      maxScore := maxScore + more - 15;
    }
  }

  /** The checks of `mas_validate_skill` with the points earned and offered. */
  method CheckSkill(d: SkillDir, strict: bool, checkTests: bool)
    returns (checks: seq<QualityCheck>, score: nat, maxScore: nat)
    ensures checks == ChecksOf(d, strict, checkTests)
    ensures score == Earned(checks)
    ensures maxScore == Available(d, strict, checkTests)
  {
    if d.json.Absent? {
      checks, score, maxScore := [QualityCheck(ExistsName, Fail, 0, None)], 0, 10;
      assert Earned(checks) == 0;
    } else if d.json.Unparsable? {
      checks := [QualityCheck(ExistsName, Pass, 10, None), QualityCheck(JsonName, Fail, 0, Some(d.json.message))];
      score, maxScore := 10, 20;
      EarnedPair(checks[0], checks[1]);
    } else {
      checks, score, maxScore := CheckParsed(d, strict, checkTests);
    }
  }

  /** `mas_validate_skill` on a skill directory, or the not-found error when
      neither the name as a path nor the skills directory entry exists. */
  method ValidateSkill(skillName: string, found: bool, d: SkillDir, strict: bool, checkTests: bool)
    returns (r: Result<Assessment, string>)
    ensures !found ==> r == Err("Skill not found: " + skillName)
    ensures found ==> r.Ok?
    ensures r.Ok? ==> r.value.checks == ChecksOf(d, strict, checkTests)
    ensures r.Ok? ==> r.value.score == Earned(r.value.checks)
    ensures r.Ok? ==> r.value.maxScore == Available(d, strict, checkTests)
    ensures r.Ok? ==> r.value.percentage == Percentage(r.value.score, r.value.maxScore)
    ensures r.Ok? ==> r.value.quality == Grade(r.value.percentage)
  {
    if !found {
      return Err("Skill not found: " + skillName);
    }
    var checks, score, maxScore := CheckSkill(d, strict, checkTests);
    var percentage := if maxScore > 0 then RoundRatio(100 * score, maxScore) else 0;
    var quality := if percentage >= 90 then "Excellent"
      else if percentage >= 75 then "Good"
      else if percentage >= 60 then "Fair"
      else "Poor";
    r := Ok(Assessment(checks, score, maxScore, percentage, quality));
  }

  /** The points of the listed checks, each check's points shown. */
  function PointsOf(d: SkillDir, strict: bool, checkTests: bool): nat {
    var schema := if strict && ValidateSkillJson(d.json, d.schemaFound).Ok? then 20 else 0;
    match d.json
    case Absent => 0
    case Unparsable(_) => 10
    case Null => 20 + schema
    case Parsed(m) =>
      20 + schema + (if MissingFields(m) == [] then 15 else 0) + (if d.skillMd.Some? then 10 else 0)
      + (if d.scripts then 5 else 0) + (if checkTests && d.tests then 15 else 0)
      + (if CleanPaths(d.skillMd) then 5 else 0)
  }

  lemma ChecksPoints(d: SkillDir, strict: bool, checkTests: bool)
    ensures Earned(ChecksOf(d, strict, checkTests)) == PointsOf(d, strict, checkTests)
  {
    match d.json
    case Absent =>
    case Unparsable(msg) =>
      EarnedPair(QualityCheck(ExistsName, Pass, 10, None), QualityCheck(JsonName, Fail, 0, Some(msg)));
    case Null =>
      NullPoints(d, strict, checkTests);
    case Parsed(m) =>
      ParsedPoints(d, strict, checkTests);
  }

  lemma NullPoints(d: SkillDir, strict: bool, checkTests: bool)
    requires d.json.Null?
    ensures Earned(ChecksOf(d, strict, checkTests)) == PointsOf(d, strict, checkTests)
  {
    var opening := [QualityCheck(ExistsName, Pass, 10, None), QualityCheck(JsonName, Pass, 10, None)]
      + SchemaChecks(d, strict);
    OpeningPoints(d, strict);
    EarnedSnoc(opening, QualityCheck(JsonName, Fail, 0, Some(NullAccess)));
  }

  lemma ParsedPoints(d: SkillDir, strict: bool, checkTests: bool)
    requires d.json.Parsed?
    ensures Earned(ChecksOf(d, strict, checkTests)) == PointsOf(d, strict, checkTests)
  {
    var m := d.json.manifest;
    var opening := [QualityCheck(ExistsName, Pass, 10, None), QualityCheck(JsonName, Pass, 10, None)]
      + SchemaChecks(d, strict);
    OpeningPoints(d, strict);
    EarnedConcat(opening, ContentChecks(d, m, checkTests));
    ContentPoints(d, m, checkTests);
  }

  /** The two file checks and the schema check earn 20 points and 20 more
      for a manifest conforming in strict mode. */
  lemma OpeningPoints(d: SkillDir, strict: bool)
    ensures Earned([QualityCheck(ExistsName, Pass, 10, None), QualityCheck(JsonName, Pass, 10, None)]
      + SchemaChecks(d, strict)) == 20 + (if strict && ValidateSkillJson(d.json, d.schemaFound).Ok? then 20 else 0)
  {
    var head := [QualityCheck(ExistsName, Pass, 10, None), QualityCheck(JsonName, Pass, 10, None)];
    EarnedPair(head[0], head[1]);
    SchemaPoints(d, strict);
    EarnedConcat(head, SchemaChecks(d, strict));
  }

  lemma SchemaPoints(d: SkillDir, strict: bool)
    ensures Earned(SchemaChecks(d, strict)) ==
      (if strict && ValidateSkillJson(d.json, d.schemaFound).Ok? then 20 else 0)
  {
    if strict {
      var c := SchemaChecks(d, strict)[0];
      assert SchemaChecks(d, strict) == [c];
      assert Earned([c]) == c.points;
    }
  }

  lemma ContentPoints(d: SkillDir, m: Manifest, checkTests: bool)
    ensures Earned(ContentChecks(d, m, checkTests)) ==
      (if MissingFields(m) == [] then 15 else 0) + (if d.skillMd.Some? then 10 else 0)
      + (if d.scripts then 5 else 0) + (if checkTests && d.tests then 15 else 0)
      + (if CleanPaths(d.skillMd) then 5 else 0)
  {
    var missing := MissingFields(m);
    var c1 := Scored(FieldsName, missing == [], 15, Fail, Some("Missing: " + Join(missing, ", ")));
    var c2 := Scored(SkillMdName, d.skillMd.Some?, 10, Warn, None);
    var c3 := Scored(ScriptsName, d.scripts, 5, Warn, None);
    var c4 := Scored(TestsName, d.tests, 15, Warn, None);
    var c5 := Scored(PathsName, CleanPaths(d.skillMd), 5, Warn, None);
    var head := [c1, c2, c3];
    assert Earned(head) == c1.points + c2.points + c3.points by {
      EarnedSnoc([c1], c2);
      assert [c1] + [c2] == [c1, c2];
      EarnedSnoc([c1, c2], c3);
      assert [c1, c2] + [c3] == head;
    }
    if checkTests {
      assert ContentChecks(d, m, checkTests) == (head + [c4]) + [c5];
      EarnedSnoc(head, c4);
      EarnedSnoc(head + [c4], c5);
    } else {
      assert ContentChecks(d, m, checkTests) == head + [c5];
      EarnedSnoc(head, c5);
    }
  }

  /** The percentage is 0 when nothing is on offer, lies between 0 and 100
      when the score does not exceed the maximum, and for the maxima this
      validator can reach (below 200 points) is 100 only for full marks. */
  lemma PercentageMeaning(score: nat, maxScore: nat)
    ensures maxScore == 0 ==> Percentage(score, maxScore) == 0
    ensures score <= maxScore ==> 0 <= Percentage(score, maxScore) <= 100
    ensures 0 < maxScore < 200 && score <= maxScore ==>
      (Percentage(score, maxScore) == 100 <==> score == maxScore)
  {
    if maxScore > 0 && score <= maxScore {
      var p := Percentage(score, maxScore);
      var m := maxScore;
      assert 2 * m * p <= 200 * score + m < 2 * m * (p + 1);
      if p < 0 {
        assert 2 * m * (p + 1) <= 0 by {
          assert p + 1 <= 0;
          MulNonPositive(2 * m, p + 1);
        }
      }
      if p > 100 {
        assert 2 * m * p >= 2 * m * 101 by {
          MulMonotone(2 * m, 101, p);
        }
      }
      if m < 200 && score < m {
        assert 200 * score + m <= 200 * m - 200 + m;
      }
      if score == m && p < 100 {
        MulMonotone(2 * m, p + 1, 100);
      }
    }
  }

  lemma MulNonPositive(a: nat, b: int)
    requires b <= 0
    ensures a * b <= 0
  {
  }

  lemma MulMonotone(a: nat, b: int, c: int)
    requires b <= c
    ensures a * b <= a * c
  {
    assert a * c - a * b == a * (c - b);
  }

  lemma GradeBands(percentage: int)
    ensures Grade(percentage) == "Excellent" <==> percentage >= 90
    ensures Grade(percentage) == "Good" <==> 75 <= percentage < 90
    ensures Grade(percentage) == "Fair" <==> 60 <= percentage < 75
    ensures Grade(percentage) == "Poor" <==> percentage < 60
  {
  }

  /** The score never exceeds the maximum; full marks and a 100% report
      happen exactly when every check the validator runs passes. */
  lemma FullMarksMeaning(d: SkillDir, strict: bool, checkTests: bool)
    ensures Earned(ChecksOf(d, strict, checkTests)) <= Available(d, strict, checkTests)
    ensures Earned(ChecksOf(d, strict, checkTests)) == Available(d, strict, checkTests) <==>
      Flawless(d, strict, checkTests)
    ensures var p := Percentage(Earned(ChecksOf(d, strict, checkTests)), Available(d, strict, checkTests));
      0 <= p <= 100 && (p == 100 <==> Flawless(d, strict, checkTests))
  {
    ChecksPoints(d, strict, checkTests);
    assert Available(d, strict, checkTests) <= 90;
    PercentageMeaning(Earned(ChecksOf(d, strict, checkTests)), Available(d, strict, checkTests));
  }

  /** A manifest holding the JSON value `null` is listed as valid JSON and
      then as invalid JSON, the required-fields check is never listed though
      its 15 points are on offer, and the grade is Poor. */
  lemma NullManifestListedTwice(d: SkillDir, strict: bool, checkTests: bool)
    requires d.json.Null?
    ensures QualityCheck(JsonName, Pass, 10, None) in ChecksOf(d, strict, checkTests)
    ensures QualityCheck(JsonName, Fail, 0, Some(NullAccess)) in ChecksOf(d, strict, checkTests)
    ensures forall c :: c in ChecksOf(d, strict, checkTests) ==> c.check != FieldsName
    ensures Available(d, strict, checkTests) == Earned(ChecksOf(d, strict, checkTests)) + 15 + (if strict then 20 else 0)
    ensures Grade(Percentage(Earned(ChecksOf(d, strict, checkTests)), Available(d, strict, checkTests))) == "Poor"
  {
    ChecksPoints(d, strict, checkTests);
    var cs := ChecksOf(d, strict, checkTests);
    assert cs[1] == QualityCheck(JsonName, Pass, 10, None);
    assert cs[|cs| - 1] == QualityCheck(JsonName, Fail, 0, Some(NullAccess));
    var v := ValidateSkillJson(d.json, d.schemaFound);
    assert v.Err?;
    if strict {
      assert Percentage(20, 55) == 36;
    } else {
      assert Percentage(20, 35) == 57;
    }
  }
}
