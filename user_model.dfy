/**
 * The user document: required identity fields, the menstrual-cycle enum with its
 * default, and the per-symptom lists of dates on which a symptom was reported.
 */
module UserModel {
  import opened Wrappers
  import opened ChatModel

  type UserId = string

  datatype CycleType = Regular | Irregular | Unknown

  /** One key of the symptoms map with the dates recorded under it, oldest first. */
  datatype SymptomEntry = SymptomEntry(symptom: string, dates: seq<Date>)

  /**
   * The symptoms map kept as its entries in the order their keys were first
   * recorded. A JavaScript `Map` iterates in insertion order; a document loaded
   * from the database rebuilds its map from an object, which lists keys that are
   * array indices first, so a loaded map can iterate in another order.
   */
  type Symptoms = seq<SymptomEntry>

  datatype UserRecord = UserRecord(
    name: string,
    email: string,
    password: string,
    age: int,
    cycleType: CycleType,
    createdAt: Date,
    symptoms: Symptoms)

  /** The enum's default. */
  const DefaultCycleType: CycleType := Unknown

  function CycleTypeName(c: CycleType): string
  {
    match c
    case Regular => "regular"
    case Irregular => "irregular"
    case Unknown => "unknown"
  }

  /** The enum validator for `menstruationCycleType`. */
  function ParseCycleType(name: string): (r: Option<CycleType>)
  {
    if name == "regular" then Some(Regular)
    else if name == "irregular" then Some(Irregular)
    else if name == "unknown" then Some(Unknown)
    else None
  }

  /**
   * Every cycle type survives storage and the validator accepts only the three
   * names; the sign-up form's "Menopause" option is not one of them.
   */
  lemma CycleTypeRoundTrip(c: CycleType, name: string)
    ensures ParseCycleType(CycleTypeName(c)) == Some(c)
    ensures ParseCycleType(name) == Some(c) <==> name == CycleTypeName(c)
    ensures ParseCycleType("Menopause") == None
  {
  }

  /** No key appears twice in the entry list. */
  predicate UniqueKeys(s: Symptoms)
  {
    forall i, j :: 0 <= i < j < |s| ==> s[i].symptom != s[j].symptom
  }

  /** The keys of the symptoms map, in iteration order. */
  function Keys(s: Symptoms): (ks: seq<string>)
    ensures |ks| == |s|
    ensures forall i :: 0 <= i < |s| ==> ks[i] == s[i].symptom
  {
    if |s| == 0 then [] else [s[0].symptom] + Keys(s[1..])
  }

  /** A user the schema accepts: the required strings are present and non-empty. */
  predicate ValidUser(u: UserRecord)
  {
    && u.name != ""
    && u.email != ""
    && u.password != ""
    && UniqueKeys(u.symptoms)
  }

  /** The unique index on `email`: no two stored users share an address. */
  predicate UniqueEmails(users: map<UserId, UserRecord>)
  {
    forall a, b :: a in users && b in users && a != b ==> users[a].email != users[b].email
  }
}
