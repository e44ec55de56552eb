/** The validation report object (validation/report.py). Printing it is left out. */
module Report {
  class ValidationResult {
    var errors: seq<string>
    var warnings: seq<string>
    var counts: map<string, int>
    var formats: seq<string>

    constructor ()
      ensures errors == [] && warnings == [] && counts == map[] && formats == []
      ensures IsValid()
    {
      errors, warnings, counts, formats := [], [], map[], [];
    }

    /** Valid exactly while no error has been recorded; warnings play no part. */
    predicate IsValid()
      reads this
    {
      |errors| == 0
    }

    method AddError(msg: string)
      modifies this
      ensures errors == old(errors) + [msg] && !IsValid()
      ensures warnings == old(warnings) && counts == old(counts) && formats == old(formats)
    {
      errors := errors + [msg];
    }

    method AddWarning(msg: string)
      modifies this
      ensures warnings == old(warnings) + [msg]
      ensures errors == old(errors) && counts == old(counts) && formats == old(formats)
      ensures IsValid() == old(IsValid())
    {
      warnings := warnings + [msg];
    }

    /** Setting a count overwrites any earlier value under the same key. */
    method SetCount(key: string, val: int)
      modifies this
      ensures counts == old(counts)[key := val]
      ensures errors == old(errors) && warnings == old(warnings) && formats == old(formats)
    {
      counts := counts[key := val];
    }
  }
}
