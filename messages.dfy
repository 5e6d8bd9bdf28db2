/** A chat message `{"role": role, "content": content}` as the agents store it. */
module Messages {
  datatype Message = Message(role: string, content: string)
}
