/**
  `calculateAge`: whole years between the birth instant and now, counting a
  year as 365.25 days and rounding toward minus infinity. An empty date of
  birth gives 0; a date the runtime cannot parse gives NaN (`None`).
 */
module Age {
  import opened Js

  /** `1000 * 60 * 60 * 24 * 365.25` milliseconds. */
  const MsPerYear: int := 31557600000

  /** `Math.floor((now - birth) / MsPerYear)` on integer milliseconds. */
  function AgeAt(birth: int, now: int): (age: int)
    ensures age * MsPerYear <= now - birth < (age + 1) * MsPerYear
  {
    (now - birth) / MsPerYear
  }

  function CalculateAge(dob: string, env: Env): (r: Option<int>)
    ensures dob == "" ==> r == Some(0)
    ensures dob != "" ==> (r.Some? <==> env.parseDate(dob).Some?)
    ensures dob != "" && r.Some? ==>
      r.value * MsPerYear <= env.now - env.parseDate(dob).value < (r.value + 1) * MsPerYear
  {
    if dob == "" then Some(0)
    else match env.parseDate(dob)
      case None => None
      case Some(birth) => Some(AgeAt(birth, now := env.now))
  }

  /** The age never drops as time passes. */
  lemma AgeMonotoneInNow(birth: int, now1: int, now2: int)
    requires now1 <= now2
    ensures AgeAt(birth, now1) <= AgeAt(birth, now2)
  {
    var a1, a2 := AgeAt(birth, now1), AgeAt(birth, now2);
    assert a1 * MsPerYear < (a2 + 1) * MsPerYear;
  }

  /** A later birth never gives a greater age. */
  lemma AgeAntitoneInBirth(birth1: int, birth2: int, now: int)
    requires birth1 <= birth2
    ensures AgeAt(birth2, now) <= AgeAt(birth1, now)
  {
    var a1, a2 := AgeAt(birth1, now), AgeAt(birth2, now);
    assert a2 * MsPerYear < (a1 + 1) * MsPerYear;
  }

  /** Born this instant: age 0. */
  lemma AgeAtBirthIsZero(t: int)
    ensures AgeAt(t, t) == 0
  {
  }

  /** A birth date in the future gives a negative age, because the floor rounds down. */
  lemma FutureBirthIsNegative(birth: int, now: int)
    requires now < birth
    ensures AgeAt(birth, now) < 0
  {
  }

  /** Born 2000-01-01T00:00Z, age on 2024-01-01T00:00Z: 8766 days, exactly 24 years of 365.25 days. */
  lemma AgeExample()
    ensures AgeAt(946684800000, 1704067200000) == 24
  {
  }
}
