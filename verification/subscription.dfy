/** A subscription as the component registers it; the handler is represented by its verdicts. */
module Subscriptions {
  import opened Wrappers
  import opened Amqp
  import opened RetryPolicies

  datatype Subscription = Subscription(
    exchange: string,
    queue: string,
    routingKey: string,
    queueArgs: Table,
    retry: Option<RetryPolicy>)
  {
    /** The three queue names of a retry topology do not coincide; trivially so without a policy. */
    predicate NamesDistinct() {
      retry.Some? ==>
        && queue != retry.value.RetryQueueFor(queue)
        && queue != retry.value.DlqFor(queue)
        && retry.value.RetryQueueFor(queue) != retry.value.DlqFor(queue)
    }

    /** The retry counter, stored as int32, can hold every retry number of the policy. */
    predicate CounterFits() {
      retry.Some? ==> retry.value.MaxRetries() <= INT32_MAX
    }
  }
}
