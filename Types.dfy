/** The data shapes of src/types/index.ts that the router and the auth store use. */
module Types {
  import opened Wrappers

  /** `UserRole`: the two roles a profile can carry. */
  datatype UserRole = Student | Teacher

  /** The auth provider's user object; the store only ever reads its `id`. */
  datatype User = User(id: string)

  /** A row of the `profiles` table. */
  datatype Profile = Profile(
    id: string,
    role: UserRole,
    fullName: string,
    email: string,
    studentId: Option<string>,
    phone: Option<string>,
    avatarUrl: Option<string>,
    createdAt: string,
    updatedAt: string)
}
