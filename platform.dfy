/** The browser services the core talks to: the two storage areas, the
    outcome of a storage write and the outcome of an HTTP request. */
module Platform {
  import opened Types

  /** What the extension keeps in `browser.storage.local`. */
  datatype LocalValue = CachedItem(item: CacheItem) | HistoryList(entries: seq<TranslationResult>)

  /** `browser.storage.local`: cache entries and the history list. */
  class LocalArea {
    var items: map<string, LocalValue>

    constructor (initial: map<string, LocalValue>)
      ensures items == initial
    {
      items := initial;
    }
  }

  /** `browser.storage.sync`: the stored (partial) configuration record. */
  class SyncArea {
    var items: map<string, PartialConfig>

    constructor (initial: map<string, PartialConfig>)
      ensures items == initial
    {
      items := initial;
    }
  }

  /** Whether the storage area accepts a write, or the message it rejects it with. */
  datatype WriteOutcome = Accepted | Rejected(message: string)

  /** What `fetch` produced: a response with a status and a parsed JSON body, or a transport failure. */
  datatype HttpOutcome<B> = Response(status: int, body: B) | NetworkFailure {
    /** `response.ok`: a status in the 200-299 range. */
    predicate IsOk() {
      Response? && 200 <= status <= 299
    }
  }

  /** Why a provider adapter throws. */
  datatype ProviderError =
    | HttpStatus(status: int)    // "<Service> API error: <status>"
    | Transport                  // fetch itself rejected
    | MalformedResponse          // the body lacks a field the adapter dereferences
}
