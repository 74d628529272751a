/** A chat message as the agent passes it to the model: `{"role": ..., "content": ...}`. */
module Messages {

  datatype Message = Message(role: string, content: string)
}
