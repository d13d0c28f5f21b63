/** The validation node: the questionnaire answers checked for required
    fields, a known project type, the scale details each type needs,
    positive whole numbers in the numeric scale fields and a known plan
    level. Every check contributes its messages in a fixed order. */
module Validation {
  import opened Wrappers
  import opened Text
  import opened Values
  import opened State
  import opened Config

  /** `v in names` for a list of strings: only a `str` equal to one of them
      is in it (a date string "YYYY-MM-DD" equals none of the names the
      pipeline checks against). */
  predicate IsOneOf(v: Value, names: seq<string>)
  {
    v.Str? && v.s in names
  }

  const LocationRequired: string := "Location is required (Question 1)"
  const TypeRequired: string := "Project type is required (Question 2)"
  const InvalidType: string := "Invalid project type. Must be one of: " + Join(ProjectTypes, ", ")
  const InvalidPlanLevel: string := "Invalid plan level. Must be one of: " + Join(PlanLevels, ", ")

  // ---------------------------------------------------------------------
  // Required fields

  /** `validate_required_fields`: a missing location, then a missing or
      unknown project type. */
  function RequiredFieldErrors(responses: map<string, Value>): (errors: seq<string>)
    ensures errors == [] <==>
      Truthy(Get(responses, "location", Null)) && IsOneOf(Get(responses, "project_type", Null), ProjectTypes)
    ensures LocationRequired in errors <==> !Truthy(Get(responses, "location", Null))
    ensures TypeRequired in errors <==> !Truthy(Get(responses, "project_type", Null))
    ensures InvalidType in errors <==>
      Truthy(Get(responses, "project_type", Null)) && !IsOneOf(Get(responses, "project_type", Null), ProjectTypes)
  {
    var location := if !Truthy(Get(responses, "location", Null)) then [LocationRequired] else [];
    var projectType := Get(responses, "project_type", Null);
    var typeErrors :=
      if !Truthy(projectType) then [TypeRequired]
      else if !IsOneOf(projectType, ProjectTypes) then [InvalidType]
      else [];
    assert LocationRequired != TypeRequired && LocationRequired != InvalidType;
    assert TypeRequired != InvalidType by { assert TypeRequired[0] != InvalidType[0]; }
    assert IsOneOf(projectType, ProjectTypes) ==> Truthy(projectType);
    location + typeErrors
  }

  /** At most one of the two project-type messages is reported. */
  lemma OneTypeError(responses: map<string, Value>)
    ensures !(TypeRequired in RequiredFieldErrors(responses) && InvalidType in RequiredFieldErrors(responses))
  {
  }

  // ---------------------------------------------------------------------
  // Scale details per project type

  /** The message for a missing scale field of a project type. */
  function RequiredMessage(name: string, projectType: string): string
  {
    name + " is required for " + projectType + " projects"
  }

  /** `[message]` when the scale lacks a truthy `field`. */
  function Missing(scale: seq<(string, Value)>, field: string, message: string): seq<string>
  {
    if Truthy(ObjGet(scale, field, Null)) then [] else [message]
  }

  /** `validate_project_scale`. An empty scale gets one message naming the
      type; otherwise each type checks its own fields in a fixed order, and
      an unknown type checks none. */
  function ScaleErrors(projectType: Value, scale: seq<(string, Value)>): (errors: seq<string>)
    ensures |errors| <= 2
    ensures scale == [] ==> errors == ["Project scale details are required for " + Display(projectType) + " projects"]
  {
    if scale == [] then ["Project scale details are required for " + Display(projectType) + " projects"]
    else if projectType == Str("Highrise") then
      Missing(scale, "total_land_area", RequiredMessage("Total land area", "Highrise")) +
      Missing(scale, "number_of_towers", RequiredMessage("Number of towers", "Highrise"))
    else if projectType == Str("Standalone Building") then
      Missing(scale, "total_built_up_area", RequiredMessage("Total built-up area", "Standalone Building")) +
      Missing(scale, "number_of_floors", RequiredMessage("Number of floors", "Standalone Building"))
    else if projectType == Str("Villa") then
      Missing(scale, "number_of_villas", RequiredMessage("Number of villas", "Villa"))
    else if projectType == Str("Commercial") then
      Missing(scale, "total_built_up_area", RequiredMessage("Total built-up area", "Commercial")) +
      Missing(scale, "usage_type", RequiredMessage("Usage type", "Commercial"))
    else if projectType == Str("Infrastructure") then
      Missing(scale, "infrastructure_type", RequiredMessage("Infrastructure type", "Infrastructure"))
    else []
  }

  /** The scale fields each project type requires, with the words that
      name them in a message. Types outside the list require none. */
  function ScaleRequirements(projectType: string): seq<(string, string)>
  {
    if projectType == "Highrise" then
      [("total_land_area", "Total land area"), ("number_of_towers", "Number of towers")]
    else if projectType == "Standalone Building" then
      [("total_built_up_area", "Total built-up area"), ("number_of_floors", "Number of floors")]
    else if projectType == "Villa" then
      [("number_of_villas", "Number of villas")]
    else if projectType == "Commercial" then
      [("total_built_up_area", "Total built-up area"), ("usage_type", "Usage type")]
    else if projectType == "Infrastructure" then
      [("infrastructure_type", "Infrastructure type")]
    else []
  }

  /** "<Label> is required for <type> projects" for each requirement whose
      field is not truthy, in table order. */
  function MissingMessages(scale: seq<(string, Value)>, projectType: string, reqs: seq<(string, string)>): (errors: seq<string>)
    ensures |errors| <= |reqs|
  {
    if reqs == [] then []
    else Missing(scale, reqs[0].0, RequiredMessage(reqs[0].1, projectType)) +
         MissingMessages(scale, projectType, reqs[1..])
  }

  /** No message is left exactly when every required field is truthy. */
  lemma {:induction false} MissingMessagesEmpty(scale: seq<(string, Value)>, projectType: string, reqs: seq<(string, string)>)
    ensures MissingMessages(scale, projectType, reqs) == [] <==>
      forall i :: 0 <= i < |reqs| ==> Truthy(ObjGet(scale, reqs[i].0, Null))
  {
    if reqs != [] {
      MissingMessagesEmpty(scale, projectType, reqs[1..]);
      assert forall i :: 1 <= i < |reqs| ==> reqs[1..][i - 1] == reqs[i];
    }
  }

  /** A non-empty scale gets one message per required field that is
      missing, as the table of requirements says; a value that is not a
      `str` names no known type and gets none. */
  lemma ScaleErrorsMatchTable(projectType: Value, scale: seq<(string, Value)>)
    requires scale != []
    ensures ScaleErrors(projectType, scale) ==
      if projectType.Str? then MissingMessages(scale, projectType.s, ScaleRequirements(projectType.s)) else []
  {
    if projectType == Str("Highrise") {
      TwoRequirements(scale, "Highrise", "total_land_area", "Total land area", "number_of_towers", "Number of towers");
    } else if projectType == Str("Standalone Building") {
      TwoRequirements(scale, "Standalone Building", "total_built_up_area", "Total built-up area", "number_of_floors", "Number of floors");
    } else if projectType == Str("Villa") {
      OneRequirement(scale, "Villa", "number_of_villas", "Number of villas");
    } else if projectType == Str("Commercial") {
      TwoRequirements(scale, "Commercial", "total_built_up_area", "Total built-up area", "usage_type", "Usage type");
    } else if projectType == Str("Infrastructure") {
      OneRequirement(scale, "Infrastructure", "infrastructure_type", "Infrastructure type");
    }
  }

  lemma OneRequirement(scale: seq<(string, Value)>, t: string, f: string, name: string)
    ensures MissingMessages(scale, t, [(f, name)]) == Missing(scale, f, RequiredMessage(name, t))
  {
    assert [(f, name)][1..] == [];
  }

  lemma TwoRequirements(scale: seq<(string, Value)>, t: string, f: string, name: string, g: string, name2: string)
    ensures MissingMessages(scale, t, [(f, name), (g, name2)]) ==
      Missing(scale, f, RequiredMessage(name, t)) +
      Missing(scale, g, RequiredMessage(name2, t))
  {
    assert [(f, name), (g, name2)][1..] == [(g, name2)];
    OneRequirement(scale, t, g, name2);
  }

  // ---------------------------------------------------------------------
  // Numeric fields

  /** The scale fields that must hold positive whole numbers. */
  const NumericFields: seq<string> :=
    ["number_of_towers", "floors_per_tower", "number_of_floors", "number_of_villas", "estimated_duration_months"]

  /** Python `int(text)`: white space around an optional sign and a run of
      decimal digits. */
  function ParseInt(text: string): (r: Option<int>)
    ensures r.Some? ==> Strip(text) != ""
  {
    ParseNumeral(Strip(text))
  }

  /** An optional sign and a run of decimal digits, with nothing around
      them. */
  function ParseNumeral(t: string): (r: Option<int>)
    ensures r.Some? ==> t != ""
  {
    if t == [] then None
    else
      var negative := t[0] == '-';
      var digits := if t[0] == '-' || t[0] == '+' then t[1..] else t;
      if digits == [] || !AllDigits(digits) then None
      else
        var value: int := DigitsValue(digits);
        Some(if negative then -value else value)
  }

  /** A numeral written by `str()` reads back as its number. */
  lemma ParseIntOfNumeral(i: int)
    ensures ParseInt(IntToString(i)) == Some(i)
  {
    var s := NatToString(if i < 0 then -i else i);
    NatToStringRoundTrip(if i < 0 then -i else i);
    if i < 0 {
      NegativeNumeral(i, s);
    } else {
      UnsignedNumeral(s);
    }
  }

  /** `str()` of a negative number is a minus sign and the digits of its
      magnitude. */
  lemma NegativeNumeral(i: int, s: string)
    requires i < 0 && s == NatToString(-i) && DigitsValue(s) == -i
    ensures ParseInt(IntToString(i)) == Some(i)
  {
    assert IntToString(i) == "-" + s;
    SignedNumeral(s);
  }

  /** Digits alone parse as their value. */
  lemma UnsignedNumeral(s: string)
    requires s != [] && AllDigits(s)
    ensures ParseInt(s) == Some(DigitsValue(s) as int)
  {
    NoSpaceInDigits(s);
    NoSpaceEnds(s);
    ParseUnsigned(s);
  }

  /** A minus sign and digits parse as the negated value. */
  lemma SignedNumeral(s: string)
    requires s != [] && AllDigits(s)
    ensures ParseInt("-" + s) == Some(-(DigitsValue(s) as int))
  {
    var t := "-" + s;
    assert t[1..] == s;
    NoSpaceInDigits(s);
    assert t[|t| - 1] == s[|s| - 1];
    NoSpaceEnds(t);
    ParseSigned(t);
  }

  /** Digits with nothing around them read as their value. */
  lemma ParseUnsigned(t: string)
    requires t != [] && AllDigits(t)
    ensures ParseNumeral(t) == Some(DigitsValue(t) as int)
  {
    assert IsDigit(t[0]);
  }

  /** A minus sign before digits negates their value. */
  lemma ParseSigned(t: string)
    requires |t| > 1 && t[0] == '-' && AllDigits(t[1..])
    ensures ParseNumeral(t) == Some(-(DigitsValue(t[1..]) as int))
  {
  }

  /** Digits are not white space. */
  lemma NoSpaceInDigits(s: string)
    requires AllDigits(s)
    ensures forall k :: 0 <= k < |s| ==> !IsSpace(s[k])
  {
  }

  /** A string that starts and ends with a non-space character is its own
      strip. */
  lemma NoSpaceEnds(s: string)
    requires s != [] && !IsSpace(s[0]) && !IsSpace(s[|s| - 1])
    ensures Strip(s) == s
  {
    assert StripLeft(s) == s;
    assert StripRight(s) == s;
  }

  /** Python `int(value)`, or `None` where it raises ValueError or
      TypeError: integers are themselves, booleans 0 and 1, strings are
      parsed, and lists, dicts and dates do not convert. */
  function IntOf(v: Value): (r: Option<int>)
    ensures v.Int? ==> r == Some(v.i)
    ensures r.Some? ==> v.Int? || v.Bool? || (v.Str? && Strip(v.s) != "")
  {
    match v
    case Int(i) => Some(i)
    case Bool(b) => Some(if b then 1 else 0)
    case Str(s) => ParseInt(s)
    case _ => None
  }

  /** A numeric field passes when it is `None` or a whole number above
      zero. */
  predicate PositiveOrAbsent(v: Value)
  {
    v == Null || (IntOf(v).Some? && IntOf(v).value > 0)
  }

  /** The message for one numeric field holding `value`, if any: `None`
      and a missing field pass, a value `int()` rejects is not a valid
      number, and one that is not above zero is not positive. */
  function NumericError(field: string, value: Value): (errors: seq<string>)
    ensures |errors| <= 1
    ensures errors == [] <==> PositiveOrAbsent(value)
  {
    if value == Null then []
    else match IntOf(value)
      case None => [FieldLabel(field) + " must be a valid number"]
      case Some(n) => if n <= 0 then [FieldLabel(field) + " must be a positive number"] else []
  }

  /** `project_scale.get(field)` for each field. */
  function FieldValues(scale: seq<(string, Value)>, fields: seq<string>): (values: seq<Value>)
    ensures |values| == |fields|
  {
    seq(|fields|, i requires 0 <= i < |fields| => ObjGet(scale, fields[i], Null))
  }

  /** The messages `check` gives for each field and its value, in order. */
  function FieldMessages(check: (string, Value) -> seq<string>, fields: seq<string>, values: seq<Value>): (errors: seq<string>)
    requires |values| == |fields|
  {
    if fields == [] then []
    else
      var n := |fields| - 1;
      FieldMessages(check, fields[..n], values[..n]) + check(fields[n], values[n])
  }

  /** One more field adds its own messages at the end. */
  lemma FieldMessagesStep(check: (string, Value) -> seq<string>, fields: seq<string>, values: seq<Value>, i: nat)
    requires |values| == |fields| && i < |fields|
    ensures FieldMessages(check, fields[..i + 1], values[..i + 1]) ==
      FieldMessages(check, fields[..i], values[..i]) + check(fields[i], values[i])
  {
    assert fields[..i + 1][..i] == fields[..i] && values[..i + 1][..i] == values[..i];
  }


  lemma {:induction false} FieldMessagesEmpty(check: (string, Value) -> seq<string>, fields: seq<string>, values: seq<Value>)
    requires |values| == |fields|
    ensures FieldMessages(check, fields, values) == [] <==>
      forall i :: 0 <= i < |fields| ==> check(fields[i], values[i]) == []
    decreases |fields|
  {
    if fields != [] {
      var n := |fields| - 1;
      var fs, vs := fields[..n], values[..n];
      FieldMessagesEmpty(check, fs, vs);
      var prefix := FieldMessages(check, fs, vs);
      var last := check(fields[n], values[n]);
      assert FieldMessages(check, fields, values) == prefix + last;
      assert |prefix + last| == |prefix| + |last|;
      if forall i :: 0 <= i < |fields| ==> check(fields[i], values[i]) == [] {
        forall i | 0 <= i < n ensures check(fs[i], vs[i]) == [] {
          assert fs[i] == fields[i] && vs[i] == values[i];
        }
      }
      if prefix + last == [] {
        forall i | 0 <= i < |fields| ensures check(fields[i], values[i]) == [] {
          if i < n {
            assert fs[i] == fields[i] && vs[i] == values[i];
          }
        }
      }
    }
  }

  /** No numeric message means every field is missing, `None` or a
      positive whole number. */
  lemma NumericErrorsEmpty(fields: seq<string>, values: seq<Value>)
    requires |values| == |fields|
    ensures FieldMessages(NumericError, fields, values) == [] <==>
      forall i :: 0 <= i < |values| ==> PositiveOrAbsent(values[i])
  {
    FieldMessagesEmpty(NumericError, fields, values);
    assert forall i :: 0 <= i < |fields| ==>
      (NumericError(fields[i], values[i]) == [] <==> PositiveOrAbsent(values[i]));
  }

  /** `validate_numeric_fields`: the loop over the numeric fields. */
  method ValidateNumericFields(scale: seq<(string, Value)>) returns (errors: seq<string>)
    ensures errors == FieldMessages(NumericError, NumericFields, FieldValues(scale, NumericFields))
  {
    ghost var values := FieldValues(scale, NumericFields);
    errors := [];
    for i := 0 to |NumericFields|
      invariant errors == FieldMessages(NumericError, NumericFields[..i], values[..i])
    {
      var field := NumericFields[i];
      FieldMessagesStep(NumericError, NumericFields, values, i);
      var value := ObjGet(scale, field, Null);
      assert value == values[i];
      ghost var before := errors;
      if value != Null {
        match IntOf(value)
        case None =>
          errors := errors + [FieldLabel(field) + " must be a valid number"];
        case Some(intValue) =>
          if intValue <= 0 {
            errors := errors + [FieldLabel(field) + " must be a positive number"];
          }
      }
      assert errors == before + NumericError(field, value);
    }
    assert NumericFields[..|NumericFields|] == NumericFields && values[..|NumericFields|] == values;
  }

  // ---------------------------------------------------------------------
  // Plan level

  /** `validate_plan_level`: a given plan level must be a known one. */
  function PlanLevelErrors(planLevel: Value): (errors: seq<string>)
    ensures errors == [] <==> !Truthy(planLevel) || IsOneOf(planLevel, PlanLevels)
    ensures errors != [] ==> errors == [InvalidPlanLevel]
  {
    if Truthy(planLevel) && !IsOneOf(planLevel, PlanLevels) then [InvalidPlanLevel] else []
  }

  // ---------------------------------------------------------------------
  // The node

  /** Every message of the checks, in the order the node gathers them. */
  function Validate(responses: map<string, Value>): (errors: seq<string>)
    requires ScaleIsDict(responses)
    ensures !Truthy(Get(responses, "location", Null)) ==> LocationRequired in errors
    ensures !IsOneOf(Get(responses, "project_type", Null), ProjectTypes) ==> errors != []
  {
    RequiredFieldErrors(responses) +
    ScaleErrors(Get(responses, "project_type", Str("")), ScaleOf(responses)) +
    FieldMessages(NumericError, NumericFields, FieldValues(ScaleOf(responses), NumericFields)) +
    PlanLevelErrors(Get(responses, "plan_level", Str("")))
  }

  /** The answers pass exactly when every check passes: a location, a known
      project type, a non-empty scale with the type's fields, numeric
      fields that are missing or positive whole numbers, and no unknown plan
      level. */
  lemma ValidIff(responses: map<string, Value>)
    requires ScaleIsDict(responses)
    ensures var projectType := Get(responses, "project_type", Null);
      var scale := ScaleOf(responses);
      Validate(responses) == [] <==>
        Truthy(Get(responses, "location", Null)) &&
        IsOneOf(projectType, ProjectTypes) &&
        scale != [] &&
        (forall i :: 0 <= i < |ScaleRequirements(projectType.s)| ==>
           Truthy(ObjGet(scale, ScaleRequirements(projectType.s)[i].0, Null))) &&
        (forall i :: 0 <= i < |NumericFields| ==> PositiveOrAbsent(ObjGet(scale, NumericFields[i], Null))) &&
        (!Truthy(Get(responses, "plan_level", Null)) || IsOneOf(Get(responses, "plan_level", Null), PlanLevels))
  {
    var projectType := Get(responses, "project_type", Null);
    var scale := ScaleOf(responses);
    assert Validate(responses) ==
      RequiredFieldErrors(responses) +
      ScaleErrors(Get(responses, "project_type", Str("")), scale) +
      FieldMessages(NumericError, NumericFields, FieldValues(scale, NumericFields)) +
      PlanLevelErrors(Get(responses, "plan_level", Str("")));
    NumbersValid(scale);
    if IsOneOf(projectType, ProjectTypes) {
      assert Get(responses, "project_type", Str("")) == projectType;
      ScaleComplete(projectType.s, scale);
    }
    assert PlanLevelErrors(Get(responses, "plan_level", Str(""))) == [] <==>
      !Truthy(Get(responses, "plan_level", Null)) || IsOneOf(Get(responses, "plan_level", Null), PlanLevels);
  }

  /** The scale check of a known type passes exactly when the scale is
      non-empty and holds every field the type requires. */
  lemma ScaleComplete(projectType: string, scale: seq<(string, Value)>)
    ensures ScaleErrors(Str(projectType), scale) == [] <==>
      scale != [] &&
      forall i :: 0 <= i < |ScaleRequirements(projectType)| ==> Truthy(ObjGet(scale, ScaleRequirements(projectType)[i].0, Null))
  {
    if scale != [] {
      ScaleErrorsMatchTable(Str(projectType), scale);
      MissingMessagesEmpty(scale, projectType, ScaleRequirements(projectType));
    }
  }

  /** The numeric check passes exactly when every numeric field of the
      scale is missing, `None` or a positive whole number. */
  lemma NumbersValid(scale: seq<(string, Value)>)
    ensures FieldMessages(NumericError, NumericFields, FieldValues(scale, NumericFields)) == [] <==>
      forall i :: 0 <= i < |NumericFields| ==> PositiveOrAbsent(ObjGet(scale, NumericFields[i], Null))
  {
    var values := FieldValues(scale, NumericFields);
    NumericErrorsEmpty(NumericFields, values);
    assert forall i :: 0 <= i < |NumericFields| ==> values[i] == ObjGet(scale, NumericFields[i], Null);
  }

  /** When no message holds a ';', the reported error text splits back into
      the messages. */
  lemma ErrorMessageSplits(errors: seq<string>)
    requires errors != []
    requires forall i, k :: 0 <= i < |errors| && 0 <= k < |errors[i]| ==> errors[i][k] != ';'
    ensures Split(Join(errors, "; "), "; ") == errors
  {
    SplitJoin(errors, "; ");
  }

  /** `validation_node`. Without answers the result is invalid with one
      message, which is also the error; otherwise the result lists every
      message, is valid exactly when there is none, and the error is the
      messages joined by "; " when there is one. */
  method ValidationNode(state: GraphState)
    requires !NoResponses(state.questionnaireResponses) ==> ScaleIsDict(state.questionnaireResponses.value)
    modifies state
    ensures NoResponses(old(state.questionnaireResponses)) ==>
      state.Now() == old(state.Now()).(
        validationResult := Some(ValidationResult(false, ["No questionnaire responses found"])),
        errorMessage := Some("No questionnaire responses found"))
    ensures !NoResponses(old(state.questionnaireResponses)) ==>
      var errors := Validate(old(state.questionnaireResponses).value);
      state.Now() == old(state.Now()).(
        validationResult := Some(ValidationResult(errors == [], errors)),
        errorMessage := if errors == [] then old(state.errorMessage) else Some(Join(errors, "; ")))
  {
    if NoResponses(state.questionnaireResponses) {
      state.validationResult := Some(ValidationResult(false, ["No questionnaire responses found"]));
      state.errorMessage := Some("No questionnaire responses found");
      return;
    }
    var responses := state.questionnaireResponses.value;
    var allErrors := RequiredFieldErrors(responses);
    var projectType := Get(responses, "project_type", Str(""));
    var projectScale := ScaleOf(responses);
    allErrors := allErrors + ScaleErrors(projectType, projectScale);
    var numericErrors := ValidateNumericFields(projectScale);
    allErrors := allErrors + numericErrors;
    var planLevel := Get(responses, "plan_level", Str(""));
    allErrors := allErrors + PlanLevelErrors(planLevel);
    var isValid := |allErrors| == 0;
    state.validationResult := Some(ValidationResult(isValid, allErrors));
    if !isValid {
      state.errorMessage := Some(Join(allErrors, "; "));
    }
  }
}
