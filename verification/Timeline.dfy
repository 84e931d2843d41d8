/** The items of a chat timeline (src/lib/items.ts). */
module Timeline {
  import opened Options

  datatype Role = User | Assistant

  datatype Image = Image(mediaType: string, data: string)

  datatype Account = NoAccount | NullAccount | Account(name: string)

  datatype Model = Model(provider: string, name: string, account: Account)

  datatype Item =
    | Msg(
        role: Role,
        content: string,
        reasoning: Option<string>,
        images: Option<seq<Image>>,
        messageId: Option<string>,
        context: Option<seq<string>>,      // quoted references, compared but never inspected
        sendError: Option<string>,
        model: Option<Model>,
        source: Option<string>,
        contextUnavailable: Option<bool>,
        rest: string)                      // stats, error, send outcome: compared, never inspected
    | Tool(name: string, call: string, args: Option<string>, result: Option<string>, messageId: Option<string>, partIndex: Option<nat>)
    | Phase(name: string, index: Option<int>, total: Option<int>, workflow: Option<string>)
    | Compacted(summary: string)
    | Approval(approvalId: string, command: string, reason: string, sessionId: Option<string>, resolved: Option<string>)

  /** JavaScript truthiness of an optional string. */
  predicate Truthy(s: Option<string>) {
    s.Some? && s.value != ""
  }
}
