/**
 * The random-fact widget, `fetchRandomFact` (js/comp_fact.js; script.js
 * holds an identical copy). The widget reads the cached fact and its
 * timestamp, serves the fact while it is fresh, and otherwise asks the fact
 * service. A success stores the fact with the time at which the response
 * arrived; a failure shows whatever fact is stored at that moment.
 */
module Fact {
  import opened JsValues
  import opened Cache

  const FactKey := "randomFact"
  const StampKey := "randomFactTimestamp"
  const NoFact := "Could not fetch a fact"

  /** The cache test made when the call starts. */
  predicate CacheHit(storage: map<string, string>, now: int) {
    IsFresh(GetItem(storage, FactKey), GetItem(storage, StampKey), now)
  }

  /** What the `.catch` branch shows: the fact stored at that moment, or the
      fixed error text. */
  function Fallback(storage: map<string, string>): string {
    if Truthy(GetItem(storage, FactKey)) then storage[FactKey] else NoFact
  }

  /** Storage and shown text after the request completes. The success branch
      wraps both `setItem` calls in try/catch, so the fact is shown whether
      or not they threw; `doneAt` is the clock read when the response
      arrived. */
  datatype Completion = Completion(storage: map<string, string>, shown: string)

  function Complete(storage: map<string, string>, response: Fetched<string>,
                    doneAt: int, writes: Writes): Completion
  {
    match response
    case Loaded(fact) =>
      Completion(Persist(storage, FactKey, StampKey, fact, IntToString(doneAt), writes), fact)
    case Failed =>
      Completion(storage, Fallback(storage))
  }

  /** One whole call with nothing else touching storage in between. */
  datatype Call = Call(fetched: bool, storage: map<string, string>, shown: string)

  function Invoke(storage: map<string, string>, now: int, response: Fetched<string>,
                  doneAt: int, writes: Writes): Call
  {
    if CacheHit(storage, now) then Call(false, storage, storage[FactKey])
    else
      var c := Complete(storage, response, doneAt, writes);
      Call(true, c.storage, c.shown)
  }

  /** A fresh cache is served as it is: no request, no write. */
  lemma HitServesCache(storage: map<string, string>, now: int, response: Fetched<string>,
                       doneAt: int, writes: Writes)
    requires CacheHit(storage, now)
    ensures var c := Invoke(storage, now, response, doneAt, writes);
      !c.fetched && c.storage == storage && FactKey in storage &&
      c.shown == storage[FactKey] && c.shown != ""
  {
  }

  /** A successful request stores the fact and the completion time, leaves
      every other key alone and shows the fact. */
  lemma SuccessStoresFact(storage: map<string, string>, now: int, fact: string, doneAt: int)
    requires !CacheHit(storage, now)
    ensures var c := Invoke(storage, now, Loaded(fact), doneAt, BothStored);
      c.fetched && c.shown == fact &&
      GetItem(c.storage, FactKey) == Some(fact) &&
      GetItem(c.storage, StampKey) == Some(IntToString(doneAt)) &&
      forall k :: k != FactKey && k != StampKey ==> GetItem(c.storage, k) == GetItem(storage, k)
  {
  }

  /** A storage error on the success path does not stop the fact from being
      shown. */
  lemma QuotaErrorStillShowsFact(storage: map<string, string>, now: int, fact: string,
                                 doneAt: int, writes: Writes)
    requires !CacheHit(storage, now)
    ensures Invoke(storage, now, Loaded(fact), doneAt, writes).shown == fact
  {
  }

  /** A failed request writes nothing and shows the stored fact, however old,
      or the error text when there is none. */
  lemma FailureFallsBack(storage: map<string, string>, now: int, doneAt: int, writes: Writes)
    requires !CacheHit(storage, now)
    ensures var c := Invoke(storage, now, Failed, doneAt, writes);
      c.fetched && c.storage == storage &&
      (Truthy(GetItem(storage, FactKey)) ==> c.shown == storage[FactKey]) &&
      (!Truthy(GetItem(storage, FactKey)) ==> c.shown == NoFact)
  {
  }

  /** The failure branch reads storage again when the response fails, so a
      fact stored by another call in the meantime is the one shown. */
  lemma FailureReadsStorageAtCompletion(after: map<string, string>, doneAt: int, writes: Writes)
    requires Truthy(GetItem(after, FactKey))
    ensures Complete(after, Failed, doneAt, writes).shown == after[FactKey]
  {
  }

  /** Two calls less than 300000 ms after a successful, fully stored fetch of
      a non-empty fact make one request in all, show the same text, and the
      second writes nothing. */
  lemma {:induction false} SecondCallServedFromCache(
    storage: map<string, string>, now1: int, fact: string, doneAt: int,
    now2: int, response2: Fetched<string>, doneAt2: int, writes2: Writes)
    requires !CacheHit(storage, now1)
    requires fact != ""
    requires now2 - doneAt < StalenessWindow
    ensures var first := Invoke(storage, now1, Loaded(fact), doneAt, BothStored);
      var second := Invoke(first.storage, now2, response2, doneAt2, writes2);
      first.fetched && !second.fetched &&
      second.storage == first.storage && second.shown == first.shown
  {
    var first := Invoke(storage, now1, Loaded(fact), doneAt, BothStored);
    assert GetItem(first.storage, FactKey) == Some(fact);
    assert GetItem(first.storage, StampKey) == Some(IntToString(doneAt));
    StoredStampFreshness(fact, doneAt, now2);
  }

  /** An empty fact is stored but reads as "no cached fact", so the next call
      requests again however soon it comes. */
  lemma EmptyFactIsRequestedAgain(storage: map<string, string>, now1: int, doneAt: int, now2: int)
    requires !CacheHit(storage, now1)
    ensures var first := Invoke(storage, now1, Loaded(""), doneAt, BothStored);
      !CacheHit(first.storage, now2)
  {
    var first := Invoke(storage, now1, Loaded(""), doneAt, BothStored);
    assert GetItem(first.storage, FactKey) == Some("");
  }

  /** The widget: the page's localStorage, the text of `#random-fact`, and
      the number of requests made to the fact service. */
  class FactWidget {
    var storage: map<string, string>
    var text: string
    var requests: nat
    const hasElement: bool

    constructor (storage: map<string, string>, text: string, hasElement: bool)
      ensures this.storage == storage && this.text == text
      ensures this.hasElement == hasElement && requests == 0
    {
      this.storage := storage;
      this.text := text;
      this.hasElement := hasElement;
      requests := 0;
    }

    /** The synchronous part of the call: the cache test, and either the
        cached fact shown or a request sent. */
    method Begin(now: int) returns (fetching: bool)
      modifies this
      ensures fetching == !CacheHit(old(storage), now)
      ensures storage == old(storage)
      ensures requests == old(requests) + (if fetching then 1 else 0)
      ensures text == if !fetching && hasElement then storage[FactKey] else old(text)
    {
      var cachedFact := GetItem(storage, FactKey);
      var cachedStamp := GetItem(storage, StampKey);
      if IsFresh(cachedFact, cachedStamp, now) {
        if hasElement {
          text := cachedFact.value;
        }
        return false;
      }
      requests := requests + 1;
      return true;
    }

    /** The completion callback, run on whatever storage holds when the
        response settles. */
    method Finish(response: Fetched<string>, doneAt: int, writes: Writes)
      modifies this
      ensures var c := Complete(old(storage), response, doneAt, writes);
        storage == c.storage && text == (if hasElement then c.shown else old(text))
      ensures requests == old(requests)
    {
      match response {
        case Loaded(fact) =>
          storage := Persist(storage, FactKey, StampKey, fact, IntToString(doneAt), writes);
          if hasElement {
            text := fact;
          }
        case Failed =>
          var cachedFact := GetItem(storage, FactKey);
          if Truthy(cachedFact) {
            if hasElement {
              text := cachedFact.value;
            }
          } else if hasElement {
            text := NoFact;
          }
      }
    }

    /** `fetchRandomFact()` when nothing else runs between the request and
        its response. */
    method FetchRandomFact(now: int, response: Fetched<string>, doneAt: int, writes: Writes)
      modifies this
      ensures var c := Invoke(old(storage), now, response, doneAt, writes);
        storage == c.storage &&
        requests == old(requests) + (if c.fetched then 1 else 0) &&
        text == (if hasElement then c.shown else old(text))
    {
      var fetching := Begin(now);
      if fetching {
        Finish(response, doneAt, writes);
      }
    }
  }
}
