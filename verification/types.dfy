/** The records and enumerations of the hydration tracker (types.ts). */
module Types {

  /** A value that may be absent, used for the optional stored profile. */
  datatype Option<+T> = None | Some(value: T)

  datatype Gender = Male | Female | Other

  /** Activity levels, in the order of the form's drop-down. */
  datatype ActivityLevel = Sedentary | Light | Moderate | VeryActive

  /** The profile the setup form hands to the app once the goal is computed.
      Weight is in kilograms and height in centimetres; the form reads both
      with parseInt, so they are whole numbers. */
  datatype UserProfile = UserProfile(
    name: string,
    age: int,
    weight: int,
    height: int,
    gender: Gender,
    activityLevel: ActivityLevel,
    dailyGoal: int)

  /** One logged drink. The timestamp is in epoch milliseconds; `kind` is the
      free-form label ("Water", "Coffee", ...). The amount is in millilitres
      and never negative: the app logs only its positive preset amounts and
      the rounded amounts of the other drinks. */
  datatype IntakeLog = IntakeLog(id: string, amount: nat, timestamp: int, kind: string)

  /** One day of the history window; `date` is a UTC day number. */
  datatype DailySummary = DailySummary(date: int, total: int, goal: int)

  datatype StreakStats = StreakStats(currentStreak: nat, bestStreak: nat)
}
