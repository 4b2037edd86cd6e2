/** The structured record the formatter agent produces
    (`AlumniResearcherOutputSchema`): nine string fields, each defaulting to
    the empty string, and its validation from a decoded JSON value.
    Decoding JSON text is not modelled; a decoded value is taken as given. */
module OutputSchema {
  import opened Wrappers

  datatype AlumniRecord = AlumniRecord(
    currentPracticesNames: string,
    currentPracticesUrls: string,
    currentPracticeNarrative: string,
    additionalInformation: string,
    xTwitterLink: string,
    linkedinLink: string,
    doximityLink: string,
    googleScholarLink: string,
    facebookLink: string)

  /** The JSON field names, in declaration order. */
  const FieldNames: seq<string> := [
    "current_practices_names", "current_practices_urls", "current_practice_narrative",
    "additional_information", "x_twitter_link", "linkedin_link", "doximity_link",
    "google_scholar_link", "facebook_link"
  ]

  /** Field `i` of a record, in declaration order. */
  function FieldAt(r: AlumniRecord, i: nat): string
    requires i < |FieldNames|
  {
    if i == 0 then r.currentPracticesNames
    else if i == 1 then r.currentPracticesUrls
    else if i == 2 then r.currentPracticeNarrative
    else if i == 3 then r.additionalInformation
    else if i == 4 then r.xTwitterLink
    else if i == 5 then r.linkedinLink
    else if i == 6 then r.doximityLink
    else if i == 7 then r.googleScholarLink
    else r.facebookLink
  }

  /** A decoded JSON value: an object, a string, or anything else (number,
      boolean, null, array). */
  datatype Json = JObject(members: map<string, Json>) | JString(text: string) | JOther

  /** Why building the record failed: the decoded value is not a mapping, so
      `**` raises a TypeError; or some fields hold a non-string, so
      validation raises, naming them in declaration order. */
  datatype SchemaError = NotAMapping | InvalidFields(names: seq<string>)

  /** A member may fill field `name`: it is absent, or a string. */
  predicate FieldOk(members: map<string, Json>, name: string) {
    name !in members || members[name].JString?
  }

  /** The value of field `name`: the member's string, or the default "". */
  function FieldValue(members: map<string, Json>, name: string): string {
    if name in members && members[name].JString? then members[name].text else ""
  }

  /** The fields among `names` that hold a non-string, in order. */
  function BadFields(members: map<string, Json>, names: seq<string>): seq<string>
    decreases |names|
  {
    if names == [] then []
    else (if FieldOk(members, names[0]) then [] else [names[0]]) + BadFields(members, names[1..])
  }

  lemma {:induction false} BadFieldsEmpty(members: map<string, Json>, names: seq<string>)
    ensures BadFields(members, names) == [] <==> forall i :: 0 <= i < |names| ==> FieldOk(members, names[i])
    decreases |names|
  {
    if names != [] {
      BadFieldsEmpty(members, names[1..]);
      assert forall i :: 1 <= i < |names| ==> names[1..][i - 1] == names[i];
    }
  }

  /** `AlumniResearcherOutputSchema(**parsed_data)`. Members that are not
      fields are ignored. */
  function Validate(v: Json): Result<AlumniRecord, SchemaError> {
    match v
    case JObject(m) =>
      var bad := BadFields(m, FieldNames);
      if bad != [] then Failure(InvalidFields(bad))
      else
        Success(AlumniRecord(
          FieldValue(m, FieldNames[0]), FieldValue(m, FieldNames[1]), FieldValue(m, FieldNames[2]),
          FieldValue(m, FieldNames[3]), FieldValue(m, FieldNames[4]), FieldValue(m, FieldNames[5]),
          FieldValue(m, FieldNames[6]), FieldValue(m, FieldNames[7]), FieldValue(m, FieldNames[8])))
    case _ => Failure(NotAMapping)
  }

  /** A decoded object becomes a record exactly when every field it holds is
      a string; each field of the record is then the member's string, or ""
      when the member is absent. Anything but an object is refused. */
  lemma ValidateFields(v: Json)
    ensures !v.JObject? ==> Validate(v) == Failure(NotAMapping)
    ensures v.JObject? ==>
      (Validate(v).Success? <==> forall i :: 0 <= i < |FieldNames| ==> FieldOk(v.members, FieldNames[i]))
    ensures Validate(v).Success? ==>
      forall i :: 0 <= i < |FieldNames| ==> FieldAt(Validate(v).value, i) == FieldValue(v.members, FieldNames[i])
  {
    if v.JObject? {
      BadFieldsEmpty(v.members, FieldNames);
    }
  }

  /** The empty object gives the all-defaults record. */
  lemma EmptyObjectDefaults()
    ensures Validate(JObject(map[])) == Success(AlumniRecord("", "", "", "", "", "", "", "", ""))
  {
    BadFieldsEmpty(map[], FieldNames);
  }

  /** The JSON object of a record, each field under its name. */
  function ToJson(r: AlumniRecord): Json {
    JObject(map i | 0 <= i < |FieldNames| :: FieldNames[i] := JString(FieldAt(r, i)))
  }

  /** Validation reads back every record written as its JSON object. */
  lemma RoundTrip(r: AlumniRecord)
    ensures Validate(ToJson(r)) == Success(r)
  {
    var m := ToJson(r).members;
    forall i | 0 <= i < |FieldNames| ensures FieldNames[i] in m && m[FieldNames[i]] == JString(FieldAt(r, i)) {
      assert FieldNames[i] in m;
      FieldNamesDistinct(i);
    }
    BadFieldsEmpty(m, FieldNames);
  }

  lemma FieldNamesDistinct(i: nat)
    requires i < |FieldNames|
    ensures forall j :: 0 <= j < |FieldNames| && FieldNames[j] == FieldNames[i] ==> j == i
  {
  }

  /** Members that are not fields do not matter: keeping only the fields
      gives the same outcome. */
  lemma ExtraMembersIgnored(m: map<string, Json>)
    ensures Validate(JObject(m)) == Validate(JObject(map k | k in m && k in FieldNames :: m[k]))
  {
    var f := map k | k in m && k in FieldNames :: m[k];
    assert forall k :: k in FieldNames ==> (k in m <==> k in f) && (k in m ==> m[k] == f[k]);
    FieldsAgree(m, f, FieldNames);
    forall i | 0 <= i < |FieldNames| ensures FieldValue(m, FieldNames[i]) == FieldValue(f, FieldNames[i]) {
      assert FieldNames[i] in FieldNames;
    }
    SameFieldsSameRecord(m, f);
  }

  lemma SameFieldsSameRecord(m: map<string, Json>, f: map<string, Json>)
    requires BadFields(m, FieldNames) == BadFields(f, FieldNames)
    requires forall i :: 0 <= i < |FieldNames| ==> FieldValue(m, FieldNames[i]) == FieldValue(f, FieldNames[i])
    ensures Validate(JObject(m)) == Validate(JObject(f))
  {
    assert FieldValue(m, FieldNames[0]) == FieldValue(f, FieldNames[0]);
    assert FieldValue(m, FieldNames[1]) == FieldValue(f, FieldNames[1]);
    assert FieldValue(m, FieldNames[2]) == FieldValue(f, FieldNames[2]);
    assert FieldValue(m, FieldNames[3]) == FieldValue(f, FieldNames[3]);
    assert FieldValue(m, FieldNames[4]) == FieldValue(f, FieldNames[4]);
    assert FieldValue(m, FieldNames[5]) == FieldValue(f, FieldNames[5]);
    assert FieldValue(m, FieldNames[6]) == FieldValue(f, FieldNames[6]);
    assert FieldValue(m, FieldNames[7]) == FieldValue(f, FieldNames[7]);
    assert FieldValue(m, FieldNames[8]) == FieldValue(f, FieldNames[8]);
  }

  lemma {:induction false} FieldsAgree(m: map<string, Json>, f: map<string, Json>, names: seq<string>)
    requires forall k :: k in names ==> (k in m <==> k in f) && (k in m ==> m[k] == f[k])
    ensures BadFields(m, names) == BadFields(f, names)
    ensures forall k :: k in names ==> FieldValue(m, k) == FieldValue(f, k)
    decreases |names|
  {
    if names != [] {
      FieldsAgree(m, f, names[1..]);
    }
  }
}
