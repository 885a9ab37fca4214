/**
 * Rows of the remote `documents` and `citations` tables as the readers see
 * them: every column the writers may leave empty is optional.
 */
module Store {
  import opened Wrappers

  /**
   * A `documents` row. `createdAt` stands for the `created_at` timestamp,
   * compared as an instant; the epoch is 0.
   */
  datatype RemoteDoc = RemoteDoc(
    id: string,
    title: Option<string>,
    url: Option<string>,
    content: Option<string>,
    projectId: Option<string>,
    sourceType: Option<string>,
    score: Option<real>,
    createdAt: int)

  /** A `citations` row. */
  datatype RemoteCitation = RemoteCitation(
    source: string,
    target: string,
    weight: Option<real>,
    citationType: Option<string>)

  /** `x || 0` for an optional number (0 is falsy, so it stays 0). */
  function OrZero(x: Option<real>): (r: real)
    ensures x.Some? ==> r == x.value
    ensures x.None? ==> r == 0.0
  {
    if x.Some? then x.value else 0.0
  }
}
