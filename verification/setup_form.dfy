/** The setup form of components/SetupForm.tsx: its initial state, taken
    from a stored profile or from defaults, and the submit handler that
    stamps the computed daily goal onto the submitted fields. */
module SetupForm {
  import opened Types
  import opened HydrationGoal

  /** The form's fields; the numeric ones are whole numbers (parseInt). */
  datatype FormData = FormData(
    name: string,
    age: int,
    weight: int,
    height: int,
    gender: Gender,
    activityLevel: ActivityLevel)

  const DefaultAge: int := 25
  const DefaultWeight: int := 70
  const DefaultHeight: int := 170

  /** The initial form state. Each field is `initialProfile?.field || default`:
      a missing profile, an empty name or a numeric field equal to 0 falls
      back to the default. The enumerations are non-empty strings in the
      source, hence always truthy, so a stored profile's gender and activity
      level are always kept. */
  function InitialFormData(initial: Option<UserProfile>): (form: FormData)
    ensures initial.None? ==> form == FormData("", DefaultAge, DefaultWeight, DefaultHeight, Male, Light)
    ensures initial.Some? ==>
      && form.name == initial.value.name
      && form.gender == initial.value.gender
      && form.activityLevel == initial.value.activityLevel
    ensures initial.Some? && initial.value.age != 0 ==> form.age == initial.value.age
    ensures initial.Some? && initial.value.weight != 0 ==> form.weight == initial.value.weight
    ensures initial.Some? && initial.value.height != 0 ==> form.height == initial.value.height
    ensures initial.Some? && initial.value.age == 0 ==> form.age == DefaultAge
    ensures initial.Some? && initial.value.weight == 0 ==> form.weight == DefaultWeight
    ensures initial.Some? && initial.value.height == 0 ==> form.height == DefaultHeight
  {
    match initial
    case None => FormData("", DefaultAge, DefaultWeight, DefaultHeight, Male, Light)
    case Some(p) =>
      FormData(
        p.name,
        if p.age != 0 then p.age else DefaultAge,
        if p.weight != 0 then p.weight else DefaultWeight,
        if p.height != 0 then p.height else DefaultHeight,
        p.gender,
        p.activityLevel)
  }

  /** The form fields of a profile, i.e. the profile without its goal. */
  function FieldsOf(profile: UserProfile): FormData
  {
    FormData(profile.name, profile.age, profile.weight, profile.height, profile.gender, profile.activityLevel)
  }

  /** handleSubmit: the form's fields plus the goal computed from the
      weight, height, gender and activity level. */
  function HandleSubmit(form: FormData): (profile: UserProfile)
    ensures FieldsOf(profile) == form
    ensures profile.dailyGoal
         == MlPerKg * form.weight
          + (if form.height > TallThreshold then TallBonus else 0)
          + (if form.gender == Male then MaleBonus else 0)
          + ActivityBonus(form.activityLevel)
  {
    var dailyGoal := CalculateHydrationGoal(form.weight, form.height, form.gender, form.activityLevel);
    UserProfile(form.name, form.age, form.weight, form.height, form.gender, form.activityLevel, dailyGoal)
  }

  /** Submitting the untouched defaults gives 70 * 35 + 300 (male) + 300
      (light activity) = 3050 ml; 170 cm earns no height bonus. */
  lemma DefaultGoal()
    ensures HandleSubmit(InitialFormData(None)).dailyGoal == 3050
  {
  }

  /** Re-opening the form on a submitted profile whose numeric fields are
      non-zero and submitting it unchanged gives back the same profile. */
  lemma ResubmitKeepsProfile(profile: UserProfile)
    requires profile.age != 0 && profile.weight != 0 && profile.height != 0
    requires profile == HandleSubmit(FieldsOf(profile))
    ensures HandleSubmit(InitialFormData(Some(profile))) == profile
  {
  }
}
