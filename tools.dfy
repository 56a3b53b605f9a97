/** What both tool dispatchers read: the `arguments` dict of a call, and the
    answers of the outside world during that call. */
module Tools {

  import opened Wrappers
  import opened Pulsar
  import Admin
  import Session

  /** The `arguments` dict, one field per key a tool reads; None where the key
      is absent. */
  datatype Args = Args(
    topic: Option<string>,
    message: Option<string>,
    properties: Option<Props>,
    subscriptionName: Option<string>,
    maxMessages: Option<int>,
    partitions: Option<int>,
    connectorType: Option<string>,
    connectorName: Option<string>)

  /** `{}`. */
  const NoArgs := Args(None, None, None, None, None, None, None, None)

  /** Which library calls raise, what the receives deliver, and how the admin
      endpoints answer. */
  datatype Env = Env(faults: Session.Faults, receipts: seq<Receipt>, http: Admin.Http)

  /** `f"'{s}'"`. */
  function Quoted(s: string): string
  {
    "'" + s + "'"
  }
}
