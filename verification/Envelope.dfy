/** Messages as they cross the broker: the identity and body nobody changes, and
    the headers the recovery path writes. */
module Envelope {
  import Text

  type MessageId = nat

  /** The message types the two modules exchange, and any other. */
  datatype MessageType =
    | ShipmentManifestFinalized
    | DocumentVerificationCompleted
    | OtherType(name: string)

  datatype Field = ShipmentIdField | WaybillNumberField | CommodityCodeField | CaseIdField | OtherField(name: string)

  /** A JSON object with text members, which is all the events carry. */
  type Body = map<Field, string>

  /** The part of a message that must survive every hop unchanged. */
  datatype Content = Content(id: MessageId, mtype: MessageType, body: Body)

  datatype HeaderName =
    | RedeliveryCount
    | RetryEndpoint
    | ExceptionDetails
    | EndpointDescriptor
    | Custom(name: string)

  datatype Failure = Failure(exceptionType: string, message: string)

  /** Who failed a message, and the pair that leads back into its queue. */
  datatype Descriptor = Descriptor(app: string, mtype: MessageType, exchange: string, routingKey: string)

  datatype HeaderValue =
    | Null
    | Number(n: int)
    | Words(text: string)
    | Failures(failures: seq<Failure>)
    | Describes(descriptor: Descriptor)

  type Headers = map<HeaderName, HeaderValue>

  /** One physical copy of a message in some queue. */
  datatype Copy = Copy(content: Content, headers: Headers)

  /** The redelivery counter, with a missing or odd header reading as zero. The
      consumer, the connection and the envelope each carry this same reader. */
  function ReadCount(headers: Headers): int {
    if RedeliveryCount !in headers then 0
    else match headers[RedeliveryCount]
      case Number(n) => n
      case Words(text) =>
        (match Text.ParseInt(text)
         case Some(n) => n
         case None => 0)
      case _ => 0
  }

  /** A counter that arrives as text reads like the number it spells, and anything
      that spells none reads as no retry at all. */
  lemma {:induction false} TextCountsReadAlike(headers: Headers, n: nat, text: string)
    ensures Text.Trim(text) == Text.Decimal(n) ==>
              ReadCount(headers[RedeliveryCount := Words(text)]) == ReadCount(headers[RedeliveryCount := Number(n)])
               == n
    ensures Text.ParseInt(text).None? ==>
              ReadCount(headers[RedeliveryCount := Words(text)]) == ReadCount(headers - {RedeliveryCount}) == 0
  {
    Text.ParsesWhatIsPrinted(n, text);
  }

  /** A number is the counter itself; no counter, or anything but a number or text, counts
      as no retry. */
  lemma {:induction false} OddCountersReadAsNone(headers: Headers, n: int, value: HeaderValue)
    ensures ReadCount(headers[RedeliveryCount := Number(n)]) == n
    ensures ReadCount(headers - {RedeliveryCount}) == 0
    ensures !value.Number? && !value.Words? ==> ReadCount(headers[RedeliveryCount := value]) == 0
  {
  }

  function WithRetry(headers: Headers, app: string): Headers {
    headers[RedeliveryCount := Number(ReadCount(headers) + 1)][RetryEndpoint := Words(app)]
  }

  function WithFailure(headers: Headers, failures: seq<Failure>, descriptor: Descriptor): Headers {
    headers[ExceptionDetails := Failures(failures)][EndpointDescriptor := Describes(descriptor)]
  }

  /** A retry belongs to the endpoint that scheduled it. */
  predicate BelongsTo(headers: Headers, app: string) {
    ReadCount(headers) > 0 ==>
      RetryEndpoint in headers && headers[RetryEndpoint] == Words(app)
  }
}
