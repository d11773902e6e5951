/** The user record persisted in the users table (models/user.go). */
module Models {

  /** `models.User`: eight string fields, stored and returned as one record. */
  datatype User = User(
    address: string,
    createdAt: string,
    email: string,
    firstName: string,
    id: string,
    lastName: string,
    phoneNumber: string,
    updatedAt: string)

  /** Go's zero value `models.User{}`: every field is the empty string. */
  const ZeroUser := User("", "", "", "", "", "", "", "")

  predicate IsZero(u: User) {
    u.address == "" && u.createdAt == "" && u.email == "" && u.firstName == "" &&
    u.id == "" && u.lastName == "" && u.phoneNumber == "" && u.updatedAt == ""
  }
}
