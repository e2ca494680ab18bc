/** Shared vocabulary of the client: resources, watch events, label selectors
    and the option records passed to the object APIs. */
module Types {

  datatype Option<+T> = None | Some(value: T)

  datatype Result<+T, +E> = Ok(value: T) | Err(error: E)

  /** The four event types a watch stream may carry. The wire format carries
      them as plain strings, so an event keeps its type as a string. */
  const EventTypeAdded: string := "ADDED"
  const EventTypeModified: string := "MODIFIED"
  const EventTypeDeleted: string := "DELETED"
  const EventTypeError: string := "ERROR"

  /** Selector operators, written as they appear in a query string:
      `=` and `!=` are already percent-encoded. */
  const Equals: string := "%3D"
  const Exists: string := "Exists"
  const LessThan: string := "lt"
  const GreaterThan: string := "gt"
  const NotEquals: string := "%21%3D"

  /** The capability every resource kind offers: identity, labels and the
      server-assigned resume token. */
  datatype Obj = Obj(
    namespace: string,
    name: string,
    labels: map<string, string>,
    resourceVersion: string)

  /** The value of an object the source obtains as Go's zero value. */
  const ZeroObj: Obj := Obj("", "", map[], "")

  datatype Event = Event(eventType: string, obj: Obj)

  /** A selector on one label; `key` is the label the selector reads. */
  datatype LabelSelector = LabelSelector(key: string, value: string, operator: string)

  datatype ListOptions = ListOptions(labelSelector: seq<LabelSelector>, resourceVersion: string)

  /** The result of a List call: the items and the collection's resume token. */
  datatype ObjectList = ObjectList(items: seq<Obj>, resourceVersion: string)

  datatype GroupVersionResource = GroupVersionResource(group: string, version: string, resource: string)
}
