/** The ticket record shared by the mock backend and the MCP tool server. */
module Tickets {
  import opened Wrappers

  /**
   * A Jira issue as the backend serves it and the MCP tools receive it:
   * `{ id, key, fields: { summary, status: { name }, created, rootCause } }`.
   * `created` is an ISO-8601 timestamp kept as text; `rootCause` is absent
   * (JavaScript `undefined`) in the smaller fixture.
   */
  datatype Issue = Issue(
    id: string,
    key: string,
    summary: string,
    status: string,
    created: string,
    rootCause: Option<string>)
}
