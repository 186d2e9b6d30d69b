/** The chat messages a conversation holds and a request carries. */
module Messages {

  /**
   * The `role` of a message. The chat pipeline only writes `User` and
   * `Assistant`, requests start with `System`, and an imported conversation
   * may carry any other role, which is kept as written.
   */
  datatype Role = User | Assistant | System | Other(name: OtherRoleName)

  /** A role name other than the three the page knows, which have their own constructors. */
  type OtherRoleName = name: string | name != "user" && name != "assistant" && name != "system"

  /** A `{"role": ..., "content": ...}` message. */
  datatype Message = Message(role: Role, content: string)
}
