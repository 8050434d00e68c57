/** The records that travel through the system.

    Identifiers are canonical UUID strings. Times in a table row are microseconds, the
    resolution of the database column; a DTO carries them to the second only, because
    RFC 3339 without a fraction drops the rest. They count from the zero time of the language,
    which is what a time never set shows. */
module Users {
  type Id = string

  datatype Option<+T> = None | Some(value: T)

  const MICROS_PER_SECOND := 1_000_000

  /** The fields a caller chooses. */
  datatype Profile = Profile(
    firstName: string,
    lastName: string,
    email: string,
    phone: Option<string>,
    age: Option<int>,
    status: string)

  /** A row of the users table. A deleted row stays, marked with the time of deletion. */
  datatype Row = Row(profile: Profile, createdAt: nat, updatedAt: nat, deletedAt: Option<nat>) {
    predicate Live() {
      deletedAt.None?
    }
  }

  /** A user value that nobody has filled in. */
  const NIL_ID: Id := "00000000-0000-0000-0000-000000000000"
  const BLANK_ROW := Row(Profile("", "", "", None, None, ""), 0, 0, None)

  datatype UserDTO = UserDTO(userId: Id, profile: Profile, createdAt: nat, updatedAt: nat)

  function ToDTO(id: Id, row: Row): UserDTO {
    UserDTO(id, row.profile, row.createdAt / MICROS_PER_SECOND, row.updatedAt / MICROS_PER_SECOND)
  }
}
