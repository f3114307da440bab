/** Conversation turns as the agent keeps them: a role and the text. */
module Messages {

  datatype Role = User | Assistant

  datatype Turn = Turn(role: Role, content: string)
}
