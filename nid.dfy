/**
 * Bangladesh NID checks: format, uniqueness among workers, the birth year of
 * the newer formats and the consistency of a stated age with it.
 */
module NIDValidation {

  import opened Wrappers
  import opened Auth
  import opened Digits

  /** `\s` of a PCRE pattern without the `u` flag: space, tab, newline, vertical tab, form feed, return. */
  predicate IsSpace(c: char)
  {
    c == ' ' || c == '\t' || c == '\n' || c == '\U{B}' || c == '\U{C}' || c == '\r'
  }

  predicate NoSpace(s: string)
  {
    forall i :: 0 <= i < |s| ==> !IsSpace(s[i])
  }

  /** `preg_replace('/\s+/', '', $nid)`: every whitespace character removed. */
  function Clean(s: string): (r: string)
    ensures NoSpace(r) && |r| <= |s|
  {
    if s == [] then [] else (if IsSpace(s[0]) then [] else [s[0]]) + Clean(s[1..])
  }

  /** Cleaning works piece by piece. */
  lemma {:induction false} CleanAppend(a: string, b: string)
    ensures Clean(a + b) == Clean(a) + Clean(b)
  {
    if a != [] {
      assert (a + b)[1..] == a[1..] + b;
      CleanAppend(a[1..], b);
    } else {
      assert a + b == b;
    }
  }

  /** A string without whitespace is already clean, so cleaning twice is cleaning once. */
  lemma {:induction false} CleanNoSpace(s: string)
    requires NoSpace(s)
    ensures Clean(s) == s
  {
    if s != [] {
      assert NoSpace(s[1..]) by {
        assert forall i :: 0 <= i < |s| - 1 ==> s[1..][i] == s[i + 1];
      }
      CleanNoSpace(s[1..]);
      assert s == [s[0]] + s[1..];
    }
  }

  lemma CleanIdempotent(s: string)
    ensures Clean(Clean(s)) == Clean(s)
  {
    CleanNoSpace(Clean(s));
  }

  /** PHP's `empty` on a string: the empty string and "0". */
  predicate EmptyString(s: string)
  {
    s == "" || s == "0"
  }

  datatype NidType = Old | New

  datatype NidMessage = Required | DigitsOnly | BadLength | ValidFormat

  datatype NidResult = NidResult(valid: bool, message: NidMessage, nidType: Option<NidType>, length: Option<nat>)

  const NidLengths: set<int> := {10, 13, 17}

  /**
   * `validate`: required (checked on the raw input), then digits only after
   * removing whitespace, then one of the three lengths; 10 digits is the old
   * format, 13 and 17 the new one. A length failure still reports the length.
   */
  function Validate(nid: string): (r: NidResult)
    ensures r.valid <==> !EmptyString(nid) && Clean(nid) != [] && AllDigits(Clean(nid)) && |Clean(nid)| in NidLengths
    ensures r.message == Required <==> EmptyString(nid)
    ensures r.valid <==> r.message == ValidFormat
    ensures r.valid ==> r.nidType == Some(if |Clean(nid)| == 10 then Old else New)
    ensures r.message == BadLength ==> r.length == Some(|Clean(nid)|) && |Clean(nid)| !in NidLengths
    ensures r.length.Some? <==> r.message in {BadLength, ValidFormat}
  {
    if EmptyString(nid) then NidResult(false, Required, None, None)
    else
      var cleaned := Clean(nid);
      if cleaned == [] || !AllDigits(cleaned) then NidResult(false, DigitsOnly, None, None)
      else if |cleaned| !in NidLengths then NidResult(false, BadLength, None, Some(|cleaned|))
      else NidResult(true, ValidFormat, Some(if |cleaned| == 10 then Old else New), Some(|cleaned|))
  }

  /** An input of whitespace only passes the required check and fails the digits check. */
  lemma WhitespaceOnlyFailsDigits(s: string)
    requires s != [] && forall i :: 0 <= i < |s| ==> IsSpace(s[i])
    ensures Validate(s).message == DigitsOnly
  {
    if Clean(s) != [] {
      WhitespaceOnlyCleansEmpty(s);
    }
  }

  lemma {:induction false} WhitespaceOnlyCleansEmpty(s: string)
    requires forall i :: 0 <= i < |s| ==> IsSpace(s[i])
    ensures Clean(s) == []
  {
    if s != [] {
      WhitespaceOnlyCleansEmpty(s[1..]);
    }
  }

  /** Whitespace inside a non-empty NID changes nothing about the verdict. */
  lemma WhitespaceIgnored(a: string, c: char, b: string)
    requires IsSpace(c) && !EmptyString(a + b)
    ensures Validate(a + [c] + b) == Validate(a + b)
  {
    CleanAppend(a + [c], b);
    CleanAppend(a, [c]);
    CleanAppend(a, b);
    assert Clean([c]) == [] by {
      assert [c][1..] == [];
    }
    assert Clean(a + [c] + b) == Clean(a + b) by {
      assert Clean(a + [c]) == Clean(a);
    }
  }

  /** A worker's id and stored NID. */
  datatype WorkerNid = WorkerNid(id: Id, nid: Option<string>)

  /** `if ($excludeWorkerId)`: null and 0 exclude nobody. */
  predicate Excludes(exclude: Option<int>)
  {
    exclude.Some? && exclude.value != 0
  }

  /** No worker row matches the query: the NID, and an id other than the excluded one. */
  function NoOtherHolder(cleaned: string, exclude: Option<int>, workers: seq<WorkerNid>): (r: bool)
    ensures r <==> forall w :: w in workers && w.nid == Some(cleaned) ==> Excludes(exclude) && w.id == exclude.value
  {
    if workers == [] then true
    else
      var w := workers[0];
      var matches := w.nid == Some(cleaned) && !(Excludes(exclude) && w.id == exclude.value);
      !matches && NoOtherHolder(cleaned, exclude, workers[1..])
  }

  /**
   * `isUnique`: no worker but the excluded one holds the cleaned NID.
   */
  function IsUnique(nid: string, exclude: Option<int>, workers: seq<WorkerNid>): (r: bool)
    ensures r <==> forall w :: w in workers && w.nid == Some(Clean(nid)) ==> Excludes(exclude) && w.id == exclude.value
  {
    NoOtherHolder(Clean(nid), exclude, workers)
  }

  /** Uniqueness ignores whitespace: a NID and its cleaned form are equally unique. */
  lemma UniqueUpToWhitespace(nid: string, exclude: Option<int>, workers: seq<WorkerNid>)
    ensures IsUnique(nid, exclude, workers) == IsUnique(Clean(nid), exclude, workers)
  {
    CleanIdempotent(nid);
  }

  /**
   * `extractBirthYear`: for 13 and 17 characters after cleaning, PHP's
   * `(int)` of the first four characters, when it lies in 1900..currentYear.
   * The cast reads any leading number, so a prefix such as `19e2` gives 1900.
   */
  function ExtractBirthYear(nid: string, currentYear: int): (r: Option<int>)
    ensures r.Some? <==> |Clean(nid)| in {13, 17} && 1900 <= IntCast(Clean(nid)[..4]) <= currentYear
    ensures r.Some? ==> r.value == IntCast(Clean(nid)[..4])
    ensures |Clean(nid)| in {13, 17} && AllDigits(Clean(nid)[..4]) ==>
      && (r.Some? <==> 1900 <= DigitsValue(Clean(nid)[..4]) <= currentYear)
      && (r.Some? ==> r.value == DigitsValue(Clean(nid)[..4]))
    ensures |Clean(nid)| == 10 ==> r.None?
  {
    var cleaned := Clean(nid);
    if |cleaned| in {13, 17} then
      var year := IntCast(cleaned[..4]);
      assert AllDigits(cleaned[..4]) ==> year == DigitsValue(cleaned[..4]) by {
        if AllDigits(cleaned[..4]) {
          IntCastFourDigits(cleaned[..4]);
        }
      }
      if 1900 <= year <= currentYear then Some(year) else None
    else None
  }

  /** The default allowance, in years, either side of the window. */
  const DefaultTolerance: int := 2

  /** The message of an age check; a mismatch reports a birth year, an age range and the given age. */
  datatype AgeMessage = NoBirthYear | Consistent | Mismatch(birthYear: int, low: int, high: int, age: int)

  datatype AgeCheck = AgeCheck(valid: bool, message: AgeMessage, calculatedAge: Option<int>)

  /**
   * `validateAgeConsistency` as written: without a birth year every age is
   * accepted; otherwise the age must lie in years-1-tol .. years+tol, and a
   * mismatch reports the range widened by the tolerance once more.
   */
  function ValidateAgeConsistency(nid: string, age: int, tolerance: int, currentYear: int): (r: AgeCheck)
    ensures ExtractBirthYear(nid, currentYear).None? ==> r == AgeCheck(true, NoBirthYear, None)
    ensures ExtractBirthYear(nid, currentYear).Some? ==>
      var years := currentYear - ExtractBirthYear(nid, currentYear).value;
      && r.calculatedAge == Some(years)
      && (r.valid <==> years - 1 - tolerance <= age <= years + tolerance)
      && (r.valid <==> r.message == Consistent)
  {
    match ExtractBirthYear(nid, currentYear)
    case None => AgeCheck(true, NoBirthYear, None)
    case Some(birthYear) =>
      var calculatedAge := currentYear - birthYear;
      var minAge := calculatedAge - 1 - tolerance;
      var maxAge := calculatedAge + tolerance;
      if minAge <= age <= maxAge then AgeCheck(true, Consistent, Some(calculatedAge))
      else AgeCheck(false, Mismatch(birthYear, minAge - tolerance, maxAge + tolerance, age), Some(calculatedAge))
  }

  /** With the default tolerance an age is consistent exactly when it is between three below and two above the year difference. */
  lemma DefaultToleranceWindow(nid: string, age: int, currentYear: int)
    requires ExtractBirthYear(nid, currentYear).Some?
    ensures var years := currentYear - ExtractBirthYear(nid, currentYear).value;
      ValidateAgeConsistency(nid, age, DefaultTolerance, currentYear).valid <==> years - 3 <= age <= years + 2
  {
  }

  /**
   * The reported range is wider than the one checked: in 2026, a 13-digit NID
   * of 1996 and age 33 is rejected with the range 25-34, which holds 33.
   */
  lemma MismatchReportsRejectedAgeInRange()
    ensures var r := ValidateAgeConsistency("1996123456789", 33, 2, 2026);
      && !r.valid && r.message == Mismatch(1996, 25, 34, 33)
      && r.message.low <= r.message.age <= r.message.high
  {
    BirthYearOfSample();
  }

  lemma BirthYearOfSample()
    ensures ExtractBirthYear("1996123456789", 2026) == Some(1996)
  {
    var nid := "1996123456789";
    SampleIsClean(nid);
    SampleYear(nid[..4]);
    BirthYearOfCleanNid(nid, nid[..4], 2026);
  }

  lemma BirthYearOfCleanNid(nid: string, prefix: string, currentYear: int)
    requires Clean(nid) == nid && |nid| == 13 && nid[..4] == prefix
    requires 1900 <= IntCast(prefix) <= currentYear
    ensures ExtractBirthYear(nid, currentYear) == Some(IntCast(prefix))
  {
  }

  lemma SampleIsClean(nid: string)
    requires nid == "1996123456789"
    ensures Clean(nid) == nid && |nid| == 13 && nid[..4] == "1996"
  {
    assert AllDigits(nid);
    CleanNoSpace(nid);
  }

  lemma SampleYear(s: string)
    requires s == "1996"
    ensures IntCast(s) == 1996
  {
    assert AllDigits(s);
    assert DigitsValue(s) == 1996 by {
      assert s[..3] == "199" && "199"[..2] == "19" && "19"[..1] == "1" && "1"[..0] == "";
    }
    IntCastFourDigits(s);
  }

  /**
   * A 13-character NID whose first four characters are a number with an
   * exponent: `(int)` reads `19e2` as 1900, so in 2026 the NID is taken to be
   * of 1900 and a stated age of 30 is rejected against 126 years.
   */
  lemma ExponentPrefixBirthYear(nid: string)
    requires nid == "19e2123456789"
    ensures ExtractBirthYear(nid, 2026) == Some(1900)
    ensures var r := ValidateAgeConsistency(nid, 30, DefaultTolerance, 2026);
      !r.valid && r.calculatedAge == Some(126)
  {
    assert NoSpace(nid);
    CleanNoSpace(nid);
    IntCastExponent(nid[..4]);
    BirthYearOfCleanNid(nid, nid[..4], 2026);
  }

  /**
   * Corrected: a mismatch reports the range that was actually checked; the
   * verdict is the same as before.
   */
  function ValidateAgeConsistencyCorrected(nid: string, age: int, tolerance: int, currentYear: int): (r: AgeCheck)
    ensures r.valid == ValidateAgeConsistency(nid, age, tolerance, currentYear).valid
    ensures r.calculatedAge == ValidateAgeConsistency(nid, age, tolerance, currentYear).calculatedAge
  {
    match ExtractBirthYear(nid, currentYear)
    case None => AgeCheck(true, NoBirthYear, None)
    case Some(birthYear) =>
      var calculatedAge := currentYear - birthYear;
      var minAge := calculatedAge - 1 - tolerance;
      var maxAge := calculatedAge + tolerance;
      if minAge <= age <= maxAge then AgeCheck(true, Consistent, Some(calculatedAge))
      else AgeCheck(false, Mismatch(birthYear, minAge, maxAge, age), Some(calculatedAge))
  }

  /** The corrected message's range is exactly the accepted ages, so a rejected age is never inside it. */
  lemma CorrectedRangeIsAcceptedRange(nid: string, age: int, tolerance: int, currentYear: int, other: int)
    requires ValidateAgeConsistencyCorrected(nid, age, tolerance, currentYear).message.Mismatch?
    ensures var m := ValidateAgeConsistencyCorrected(nid, age, tolerance, currentYear).message;
      && !(m.low <= age <= m.high)
      && (m.low <= other <= m.high <==> ValidateAgeConsistencyCorrected(nid, other, tolerance, currentYear).valid)
  {
  }
}
