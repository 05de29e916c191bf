/** The chat transcript's shapes. Message ids and timestamps are clock values
    and are not part of the model. */
module Types {

  datatype Role = User | Model

  datatype Message = Message(role: Role, content: string, isError: bool)

  datatype LoadingState = Idle | Loading

  datatype Topic = Topic(id: string, title: string, prompt: string)
}
