/** The records exchanged with the backend (src/types/user.ts and
    src/types/property.ts). Optional fields are `Option`s; `Partial<User>`
    is `UserPatch`, whose every field is optional. */
module Types {
  import opened Wrappers
  import opened Numerals

  /** Client routes that several pages navigate to. */
  const DashboardRoute := "/dashboard"
  const MyPropertiesRoute := "/my-properties"

  datatype User = User(
    id: string,
    username: string,
    email: string,
    password: Option<string>,
    role: string,
    phoneNumber: Option<string>,
    preferredLocation: Option<string>,
    budget: Option<Number>,
    preferredGender: Option<string>)

  /** `Partial<User>`: a key that is absent, or present with the value
      `undefined`, is `None`. */
  datatype UserPatch = UserPatch(
    id: Option<string>,
    username: Option<string>,
    email: Option<string>,
    password: Option<string>,
    role: Option<string>,
    phoneNumber: Option<string>,
    preferredLocation: Option<string>,
    budget: Option<Number>,
    preferredGender: Option<string>)

  const EmptyPatch := UserPatch(None, None, None, None, None, None, None, None, None)

  datatype Property = Property(
    id: string,
    title: string,
    description: string,
    location: string,
    budget: int,
    preferredGender: string,
    userId: string)

  /** The sparse listing filter: a key is present only when it is `Some`. */
  datatype PropertyFilter = PropertyFilter(
    location: Option<string>,
    minBudget: Option<Number>,
    maxBudget: Option<Number>,
    preferredGender: Option<string>)

  const NoFilter := PropertyFilter(None, None, None, None)

  /** `Object.keys(filter).length`. */
  function KeyCount(f: PropertyFilter): (n: nat)
    ensures n <= 4
    ensures n == 0 <==> f == NoFilter
  {
    (if f.location.Some? then 1 else 0) + (if f.minBudget.Some? then 1 else 0)
    + (if f.maxBudget.Some? then 1 else 0) + (if f.preferredGender.Some? then 1 else 0)
  }

  /** The `Partial<Property>` edited by the property form; it always holds these five keys. */
  datatype PropertyDraft = PropertyDraft(
    title: string,
    description: string,
    location: string,
    budget: Number,
    preferredGender: string)
}
