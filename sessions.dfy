/** The authenticated session and the role names the application knows. */
module Sessions {

  /** The role names of the application's role constants. */
  const Admin: string := "ADMIN"
  const Externo: string := "EXTERNO"

  /**
   * The session object the provider builds on login and keeps in the "user" entry:
   * the token, the role the server replied with and the token's subject claim.
   * The role is a string: the server may reply with any role.
   */
  datatype Session = Session(token: string, role: string, email: string)
}
