/** The domain representation of a user, as business logic sees it. */
module DomainModel {

  datatype User = User(id: string, name: string, email: string)
}
