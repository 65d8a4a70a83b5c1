/** The two collaborators every resource callback talks to: the resource's
    state (Terraform's `*schema.ResourceData`, updated in place through
    `SetId` and `Set`) and the remote API, whose calls are not modelled but
    whose outcomes are passed in and whose requests are recorded. */
module Resource {
  import opened Values

  /** The resource's state: its id ("" once removed from state) and the
      attributes set so far. */
  class ResourceData {
    var id: string
    var attrs: map<string, Value>

    method SetId(v: string)
      modifies this
      ensures id == v && attrs == old(attrs)
    {
      id := v;
    }

    method Set(key: string, v: Value)
      modifies this
      ensures attrs == old(attrs)[key := v] && id == old(id)
    {
      attrs := attrs[key := v];
    }
  }

  /** Setting an attribute on top of attributes merged into the state is
      the same as merging the updated attributes. */
  lemma UpdateUnion(m: map<string, Value>, n: map<string, Value>, k: string, v: Value)
    ensures (m + n)[k := v] == m + n[k := v]
  {
  }

  /** An error returned by the API client, with the HTTP status it carries. */
  datatype ApiError = ApiError(message: string, status: int) {
    /** `util.Is404`. */
    predicate Is404() {
      status == 404
    }
  }

  /** The outcome of a call that returns only an error. */
  datatype CallOutcome = Done | CallFailed(cause: ApiError)

  /** The outcome of `client.Logical().Read`: a secret, a nil secret, or an error. */
  datatype ReadOutcome = Found(data: map<string, Value>) | NotFound | ReadFailed(cause: ApiError)

  /** A request sent through `client.Logical()`. */
  datatype Request =
    | LogicalWrite(path: string, data: map<string, Value>)
    | LogicalRead(path: string)
    | LogicalDelete(path: string)
}
