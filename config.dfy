/** The hub's configuration parameters and protocol constants (times in seconds). */
module Config {

  /** Subscribers contacted per delivery task. */
  const EVENT_SUBSCRIBER_CHUNK_SIZE: nat := 50
  /** Subscription confirmation attempts before giving up. */
  const MAX_SUBSCRIPTION_CONFIRM_FAILURES: int := 4
  const SUBSCRIPTION_RETRY_PERIOD: int := 30
  /** Feed pull attempts before a work item is marked totally failed. */
  const MAX_FEED_PULL_FAILURES: int := 4
  const FEED_PULL_RETRY_PERIOD: int := 30
  /** Delivery passes before an event is marked totally failed. */
  const MAX_DELIVERY_FAILURES: int := 4
  const DELIVERY_RETRY_PERIOD: int := 30
  const DEFAULT_LEASE_SECONDS: int := 5 * 24 * 60 * 60
  const MAX_LEASE_SECONDS: int := 10 * 24 * 60 * 60
  const POLLING_BOOTSTRAP_PERIOD: int := 10800
  /** Fetches allowed for one feed pull, redirects included. */
  const MAX_REDIRECTS: int := 7
  /** Attempts at committing the entities of one parsed feed. */
  const PUT_SPLITTING_ATTEMPTS: nat := 10
  /** Entry records looked up per datastore batch. */
  const MAX_FEED_ENTRY_RECORD_LOOKUPS: nat := 500
  /** Entities written per datastore batch. */
  const MAX_FEED_RECORD_SAVES: nat := 100
  /** New entry records processed per parse; the rest wait for a re-fetch. */
  const MAX_NEW_FEED_ENTRY_RECORDS: nat := 200
  /** A feed identity younger than this is not looked up again. */
  const FEED_IDENTITY_UPDATE_PERIOD: int := 20 * 24 * 60 * 60
  /** More aliases than this and a feed identity is not expanded. */
  const MAX_IDENTITY_EXPANSION: nat := 25

  /** Ports a callback or topic URL may name outside the development server. */
  const VALID_PORTS: set<string> := {
    "80", "443", "4443", "8080", "8081", "8082", "8083", "8084", "8085",
    "8086", "8087", "8088", "8089", "8188", "8444", "8990"}

  // Task queue names.
  const EVENT_QUEUE := "event-delivery"
  const EVENT_RETRIES_QUEUE := "event-delivery-retries"
  const FEED_QUEUE := "feed-pulls"
  const FEED_RETRIES_QUEUE := "feed-pulls-retries"
  const POLLING_QUEUE := "polling"
  const SUBSCRIPTION_QUEUE := "subscriptions"
  const MAPPINGS_QUEUE := "mappings"

  /** The three payload formats a feed can be parsed as. */
  datatype Format = Atom | Rss | Arbitrary

  /** The stored name of a format ('atom', 'rss', 'arbitrary'). */
  function FormatName(f: Format): string
  {
    match f
    case Atom => "atom"
    case Rss => "rss"
    case Arbitrary => "arbitrary"
  }
}
