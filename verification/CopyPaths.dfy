/** What happens to one message along every path through the retry queue, the error
    queue and a replay: its content never changes, its header counts the retries. */
module CopyPaths {
  import opened Common
  import opened Envelope
  import opened Topology
  import opened Connection

  /** A hop of one copy: rescheduled or parked by a worker, expired out of the retry
      queue, or republished from the error queue. */
  datatype Hop =
    | Retried(worker: BrokerTopology)
    | Parked(worker: BrokerTopology, failures: seq<Failure>)
    | Expired
    | Replayed

  function Step(c: Copy, hop: Hop): Copy {
    match hop
    case Retried(t) => RetryCopy(t, c)
    case Parked(t, failures) => DeadCopy(t, c, failures)
    case Expired => c
    case Replayed => c
  }

  function Follow(c: Copy, hops: seq<Hop>): Copy {
    if hops == [] then c else Step(Follow(c, hops[..|hops| - 1]), hops[|hops| - 1])
  }

  function Retries(hops: seq<Hop>): nat {
    if hops == [] then 0
    else Retries(hops[..|hops| - 1]) + if hops[|hops| - 1].Retried? then 1 else 0
  }

  /** The endpoint that scheduled the latest retry, if any did. */
  function LastRetrier(hops: seq<Hop>): Option<string> {
    if hops == [] then None
    else if hops[|hops| - 1].Retried? then Some(hops[|hops| - 1].worker.appName)
    else LastRetrier(hops[..|hops| - 1])
  }

  /** Along every path: id, type and body as published; the counter is the starting
      count plus the retries taken; the retry endpoint names the last retrier, and
      without a retry is whatever it was. */
  lemma {:induction false} AlongEveryPath(c: Copy, hops: seq<Hop>)
    ensures Follow(c, hops).content == c.content
    ensures ReadCount(Follow(c, hops).headers) == ReadCount(c.headers) + Retries(hops)
    ensures match LastRetrier(hops)
            case Some(app) => RetryEndpoint in Follow(c, hops).headers &&
                              Follow(c, hops).headers[RetryEndpoint] == Words(app)
            case None => Retries(hops) == 0 &&
                         (RetryEndpoint in Follow(c, hops).headers <==> RetryEndpoint in c.headers) &&
                         (RetryEndpoint in c.headers ==>
                            Follow(c, hops).headers[RetryEndpoint] == c.headers[RetryEndpoint])
  {
    if hops != [] {
      AlongEveryPath(c, hops[..|hops| - 1]);
    }
  }

  /** After any path from a freshly published copy, an endpoint accepts the copy if
      and only if it scheduled the last retry, or nobody has retried it. */
  lemma {:induction false} AcceptedByItsRetrier(c: Copy, hops: seq<Hop>, app: string)
    requires ReadCount(c.headers) == 0
    ensures BelongsTo(Follow(c, hops).headers, app) <==> LastRetrier(hops) in {None, Some(app)}
  {
    AlongEveryPath(c, hops);
    RetriedIffRetrier(hops);
  }

  lemma {:induction false} RetriedIffRetrier(hops: seq<Hop>)
    ensures Retries(hops) > 0 <==> LastRetrier(hops).Some?
  {
    if hops != [] {
      RetriedIffRetrier(hops[..|hops| - 1]);
    }
  }

  /** A parked copy keeps naming the way back through every later replay. */
  lemma {:induction false} WayBackSurvives(c: Copy, hops: seq<Hop>, t: BrokerTopology, failures: seq<Failure>)
    requires forall h :: h in hops ==> !h.Parked?
    ensures var r := Follow(DeadCopy(t, c, failures), hops);
            EndpointDescriptor in r.headers &&
            r.headers[EndpointDescriptor] == Describes(DescriptorOf(t, c.content.mtype))
  {
    if hops != [] {
      WayBackSurvives(c, hops[..|hops| - 1], t, failures);
    }
  }

  /** What a rescheduled copy says: one redelivery more, whose retry it is, and everything
      else as it came. */
  lemma {:induction false} RetryHeaders(t: BrokerTopology, c: Copy)
    ensures var r := RetryCopy(t, c);
            r.content == c.content && r.headers.Keys == c.headers.Keys + {RedeliveryCount, RetryEndpoint} &&
            r.headers[RedeliveryCount] == Number(ReadCount(c.headers) + 1) &&
            r.headers[RetryEndpoint] == Words(t.appName) &&
            forall name :: name in c.headers && name != RedeliveryCount && name != RetryEndpoint ==>
              r.headers[name] == c.headers[name]
  {
  }

  /** What a parked copy says: every failure, who failed it, of which type it is and the
      pair that leads back - as configured, or the retry exchange and the queue's own return
      key - and everything else as it came. */
  lemma {:induction false} ParkedHeaders(t: BrokerTopology, c: Copy, failures: seq<Failure>)
    ensures var r := DeadCopy(t, c, failures);
            r.content == c.content && r.headers.Keys == c.headers.Keys + {ExceptionDetails, EndpointDescriptor} &&
            r.headers[ExceptionDetails] == Failures(failures) && r.headers[EndpointDescriptor].Describes? &&
            var d := r.headers[EndpointDescriptor].descriptor;
            d.app == t.appName && d.mtype == c.content.mtype &&
            d.exchange == (if t.retryDeadLetterExchange != "" then t.retryDeadLetterExchange else t.retryExchange) &&
            d.routingKey == (if t.retryDeadLetterRoutingKey != "" then t.retryDeadLetterRoutingKey
                             else t.primaryQueue + ".retry") &&
            forall name :: name in c.headers && name != ExceptionDetails && name != EndpointDescriptor ==>
              r.headers[name] == c.headers[name]
  {
  }
}
