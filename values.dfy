/**
  The value types of the event-log tool: the event type label, the
  credentials a run is given, and the event record (`Result`) that every
  parser emits and the merged log is made of.
*/
module Values {

  /** An event category label, such as a rebalance or a bucket creation. */
  type EventType = string

  /**
    Where the raw logs come from. Node mode fills in all four fields; an
    offline cbcollect run fills in only the node name.
  */
  datatype Credentials = Credentials(user: string, password: string, cluster: string, nodeName: string)

  /**
    One event of the log. `time` stands for the Go `time.Time` as an integer
    instant; `settings` is the string-keyed map of the source.
  */
  datatype Result = Result(
    time: int,
    event: EventType,
    successful: bool,
    bucket: string,
    bucketType: string,
    node: string,
    service: string,
    dataset: string,
    index: string,
    functionName: string,
    task: string,
    group: string,
    groups: seq<string>,
    sourceBucket: string,
    targetBucket: string,
    cluster: string,
    ticks: int,
    reason: string,
    nodesIn: seq<string>,
    nodesOut: seq<string>,
    repo: string,
    backup: string,
    user: string,
    dataLost: int,
    plan: string,
    oldRepository: string,
    newRepository: string,
    operationId: string,
    settings: map<string, string>)
}
