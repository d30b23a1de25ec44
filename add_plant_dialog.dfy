/**
 * The add/edit plant form: its two text fields, the error shown under each, and
 * the validation that decides whether a save reaches the caller.
 */
module AddPlantDialog {
  import opened Wrappers
  import opened Text
  import opened PlantModel

  const NameRequired := "Plant name is required"
  const IntervalTooShort := "Interval must be at least 1 day"
  const IntervalTooLong := "Interval cannot exceed 365 days"
  const MaxIntervalDays := 365

  /** The interval field's reading, exactly as the save handler tests it. */
  function IntervalError(intervalText: string): (e: string)
    ensures e == "" <==> ParseInt(intervalText).Some? && 1 <= ParseInt(intervalText).value <= MaxIntervalDays
    ensures e == IntervalTooLong <==> ParseInt(intervalText).Some? && ParseInt(intervalText).value > MaxIntervalDays
    ensures e in {"", IntervalTooShort, IntervalTooLong}
  {
    var interval := ParseInt(intervalText);
    if intervalText == [] || interval.None? || interval.value < 1 then IntervalTooShort
    else if interval.value > MaxIntervalDays then IntervalTooLong
    else ""
  }

  /** The outcome of one save: both error messages, and the draft handed on if there is none. */
  datatype Validation = Validation(nameError: string, intervalError: string, saved: Option<PlantDraft>)

  /**
   * Both checks always run, each setting its own message; the trimmed name and the
   * parsed interval are handed on only when neither fails.
   */
  function Validate(name: string, intervalText: string): (v: Validation)
    ensures v.nameError == NameRequired <==> AllWhitespace(name)
    ensures v.nameError in {"", NameRequired}
    ensures v.intervalError == IntervalError(intervalText)
    ensures v.saved.Some? <==> !AllWhitespace(name) && v.intervalError == ""
    ensures v.saved.Some? ==>
      v.saved.value.name == Trim(name) && v.saved.value.name != []
      && ParseInt(intervalText) == Some(v.saved.value.intervalDays)
      && 1 <= v.saved.value.intervalDays <= MaxIntervalDays
  {
    TrimEmptyIff(name);
    var nameError := if Trim(name) == [] then NameRequired else "";
    var intervalError := IntervalError(intervalText);
    Validation(nameError, intervalError,
      if nameError == "" && intervalError == ""
      then Some(PlantDraft(Trim(name), ParseInt(intervalText).value))
      else None)
  }

  /** Validation, field by field, as the save handler computes it. */
  lemma ValidateUnfolded(name: string, intervalText: string)
    ensures Validate(name, intervalText) == Validation(
      if Trim(name) == [] then NameRequired else "",
      IntervalError(intervalText),
      if Trim(name) != [] && IntervalError(intervalText) == ""
      then Some(PlantDraft(Trim(name), ParseInt(intervalText).value))
      else None)
  {
  }

  /** The form pre-filled from a plant saves that plant's trimmed name and its interval unchanged. */
  lemma EditRoundTrip(p: Plant)
    requires !AllWhitespace(p.name) && 1 <= p.intervalDays <= MaxIntervalDays
    ensures Validate(p.name, IntToDecimal(p.intervalDays)).saved == Some(PlantDraft(Trim(p.name), p.intervalDays))
  {
    ParseIntOfDecimal(p.intervalDays);
  }

  /** A blank name and an interval of 0 report both errors from one save, and nothing is saved. */
  lemma BothErrorsAtOnce()
    ensures Validate(" ", "0") == Validation(NameRequired, IntervalTooShort, None)
  {
    assert AllWhitespace(" ") by {
      assert " "[0] == ' ';
    }
    assert ParseInt("0") == Some(0) by {
      ParseIntOfDecimal(0);
      assert IntToDecimal(0) == "0";
    }
    assert IntervalError("0") == IntervalTooShort;
  }

  /**
   * The interval is read the way `parseInt` reads it: the leading digits count and
   * whatever follows them ("7 days", "7.5") is ignored.
   */
  lemma TrailingTextIgnored(name: string, n: nat, rest: string)
    requires !AllWhitespace(name) && 1 <= n <= MaxIntervalDays
    requires rest == [] || !IsDigit(rest[0])
    ensures Validate(name, NatToDecimal(n) + rest).saved == Some(PlantDraft(Trim(name), n))
  {
    ParseIntStopsAtNonDigit(NatToDecimal(n), rest);
    DigitsValueOfDecimal(n);
  }

  class PlantForm {
    var name: string
    var intervalText: string
    var nameError: string
    var intervalError: string

    /** An empty name, a seven-day interval, no errors. */
    constructor ()
      ensures name == "" && intervalText == "7" && nameError == "" && intervalError == ""
    {
      name := "";
      intervalText := "7";
      nameError := "";
      intervalError := "";
    }

    /** Opening the form: the plant being edited fills it, otherwise it starts blank; errors clear. */
    method Reset(editing: Option<Plant>)
      modifies this
      ensures editing.Some? ==> name == editing.value.name && intervalText == IntToDecimal(editing.value.intervalDays)
      ensures editing.None? ==> name == "" && intervalText == "7"
      ensures nameError == "" && intervalError == ""
    {
      if editing.Some? {
        name := editing.value.name;
        intervalText := IntToDecimal(editing.value.intervalDays);
      } else {
        name := "";
        intervalText := "7";
      }
      nameError := "";
      intervalError := "";
    }

    /** Runs both checks, records both messages, and returns the draft to save if there was no error. */
    method HandleSave() returns (saved: Option<PlantDraft>)
      modifies this`nameError, this`intervalError
      ensures nameError == Validate(name, intervalText).nameError
      ensures intervalError == Validate(name, intervalText).intervalError
      ensures saved == Validate(name, intervalText).saved
    {
      ValidateUnfolded(name, intervalText);
      var hasError := false;
      if Trim(name) == [] {
        nameError := NameRequired;
        hasError := true;
      } else {
        nameError := "";
      }
      var interval := ParseInt(intervalText);
      if intervalText == [] || interval.None? || interval.value < 1 {
        intervalError := IntervalTooShort;
        hasError := true;
      } else if interval.value > MaxIntervalDays {
        intervalError := IntervalTooLong;
        hasError := true;
      } else {
        intervalError := "";
      }
      assert intervalError == IntervalError(intervalText);
      if hasError {
        return None;
      }
      saved := Some(PlantDraft(Trim(name), interval.value));
    }

    /** Typing a name clears the name error only. */
    method HandleNameChange(value: string)
      modifies this`name, this`nameError
      ensures name == value && nameError == ""
    {
      name := value;
      if nameError != "" {
        nameError := "";
      }
    }

    /** Typing an interval clears the interval error only. */
    method HandleIntervalChange(value: string)
      modifies this`intervalText, this`intervalError
      ensures intervalText == value && intervalError == ""
    {
      intervalText := value;
      if intervalError != "" {
        intervalError := "";
      }
    }
  }
}
