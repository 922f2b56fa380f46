/** Values shared by the wizard's stages: the optional value, the settled
    outcome of a call into the AI service or the proxy, the copy pair, the
    tab of an input panel and the proxy's reply. */
module Common {

  datatype Option<+T> = None | Some(value: T)

  /** How a promise settled: resolved with a value or rejected with an error message. */
  datatype Outcome<+T> = Ok(value: T) | Err(msg: string)

  /** A title and body of marketing copy (SocialCopy in types.ts). */
  datatype SocialCopy = SocialCopy(title: string, content: string)

  /** The two input panels of the Upload and Copywrite stages. */
  datatype Tab = Manual | Link

  /** What a `fetch('/extract-body')` gives the client: the request or the
      JSON decoding threw, the response was not 2xx, or a decoded body
      `{content, elements: {detailTitle, detailDesc}}` whose fields may be null. */
  datatype ProxyReply =
    | ProxyThrew
    | ProxyNotOk
    | ProxyOk(content: Option<string>, detailTitle: Option<string>, detailDesc: Option<string>)

  /** JavaScript truthiness of a `string | null`: present and non-empty. */
  predicate Truthy(o: Option<string>)
  {
    o.Some? && o.value != ""
  }

  /** The one copy-generation request `generateSocialCopy(title, content)`. */
  datatype CopyRequest = CopyRequest(title: string, content: string)
}
