/** The shared message records of the application (types.ts). */
module Messages {
  import opened Wrappers

  /** The three screens the sidebar switches between. */
  datatype AppMode = CHAT | VOICE | SEARCH

  datatype Role = User | Assistant

  /** A citation attached to a search-grounded answer. */
  datatype GroundingSource = GroundingSource(title: string, uri: string)

  /** One entry of a conversation history. The `id` and `timestamp` fields of the
      source record are clock readings and are not modelled. */
  datatype Message = Message(role: Role, content: string, sources: Option<seq<GroundingSource>>)
}
