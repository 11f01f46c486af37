/** What a resource operation hands back to Terraform: the statements it
    issued, and either an error diagnostic, the instruction to forget the
    resource, or the state to store. */
module Framework {
  import opened Engine

  datatype Response<S> =
    | Failed(summary: string, detail: string)
    | Removed
    | Saved(state: S)

  datatype Reply<S> = Reply(issued: seq<Command>, response: Response<S>)
}
