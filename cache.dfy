/**
 * The cache slot of the service: the global `cache` of main.go, which is
 * either nil (no successful rebuild yet) or the forecasts of the last
 * successful rebuild, possibly an empty list.  `Fetch` is `fetchCache`;
 * `Rebuild` is `rebuildCache` with the page fetch given as its outcome.
 */
module ForecastCache {
  import opened Wrappers
  import opened Extraction

  class Cache {
    /** `cache`: `None` is Go's nil slice; `Some([])` is an empty, non-nil one. */
    var slot: Option<seq<Forecast>>

    /** The blocks of the rebuild that produced the slot's contents. */
    ghost var source: seq<Block>

    /** Only a complete, successful extraction is ever published. */
    ghost predicate Valid()
      reads this
    {
      slot.Some? ==> Extract(source) == Success(slot.value)
    }

    /** The process starts with a nil cache. */
    constructor ()
      ensures Valid() && slot == None
    {
      slot := None;
      source := [];
    }

    /**
     * `fetchCache`: a nil cache is an error and asks for a rebuild (the
     * `go rebuildCache()` of main.go, returned here as a flag); otherwise
     * the cached list itself is returned.  Nothing is changed.
     */
    method Fetch() returns (r: Result<seq<Forecast>, Error>, rebuildRequested: bool)
      ensures slot.None? ==> r == Failure(CacheEmpty) && rebuildRequested
      ensures slot.Some? ==> r == Success(slot.value) && !rebuildRequested
    {
      if slot.None? {
        rebuildRequested := true;
        r := Failure(CacheEmpty);
        return;
      }
      rebuildRequested := false;
      r := Success(slot.value);
    }

    /**
     * `rebuildCache`, given the outcome of fetching the page (its forecast
     * blocks, or the fetch error).  The slot is replaced only when both the
     * fetch and the extraction succeed; otherwise it keeps its old contents
     * and the error is returned.
     */
    method Rebuild(fetched: Result<seq<Block>, string>) returns (err: Option<Error>)
      requires Valid()
      modifies this
      ensures Valid()
      ensures fetched.Failure? ==> err == Some(FetchError(fetched.error)) && slot == old(slot)
      ensures fetched.Success? && Extract(fetched.value).Failure? ==>
        err == Some(Extract(fetched.value).error) && slot == old(slot)
      ensures fetched.Success? && Extract(fetched.value).Success? ==>
        err == None && slot == Some(Extract(fetched.value).value)
    {
      if fetched.Failure? {
        return Some(FetchError(fetched.error));
      }
      var forecasts := ExtractForecasts(fetched.value);
      if forecasts.Failure? {
        return Some(forecasts.error);
      }
      slot := Some(forecasts.value);
      source := fetched.value;
      return None;
    }
  }

  /** Two reads with no rebuild between them return the same outcome. */
  method ReadTwice(c: Cache) returns (first: Result<seq<Forecast>, Error>, second: Result<seq<Forecast>, Error>)
    ensures first == second
    ensures first.Failure? <==> c.slot.None?
  {
    var again: bool;
    first, again := c.Fetch();
    second, again := c.Fetch();
  }

  /**
   * A successful rebuild over a page with no forecast tables leaves an empty
   * but present list, so the next read succeeds with no records.
   */
  method EmptyPageThenRead() returns (r: Result<seq<Forecast>, Error>, rebuildRequested: bool)
    ensures r == Success([]) && !rebuildRequested
  {
    var c := new Cache();
    var err := c.Rebuild(Success([]));
    r, rebuildRequested := c.Fetch();
  }

  /** A read before any rebuild fails and asks for one. */
  method ReadBeforeRebuild() returns (r: Result<seq<Forecast>, Error>, rebuildRequested: bool)
    ensures r == Failure(CacheEmpty) && rebuildRequested
  {
    var c := new Cache();
    r, rebuildRequested := c.Fetch();
  }

  /**
   * A rebuild whose page holds a malformed value leaves the previous
   * snapshot in place: the read after it still returns the Aarhus record.
   */
  method FailedRebuildKeepsSnapshot() returns (rebuildErr: Option<Error>, r: Result<seq<Forecast>, Error>)
    ensures rebuildErr.Some? && rebuildErr.value.ParseError?
    ensures r == Success([
      Forecast("Aarhus", "Lav risiko",
        [ForecastValue("Birk", 12), ForecastValue("El", 0), ForecastValue("Græs", 1)])])
  {
    var c := new Cache();
    AarhusExtracted();
    var first := c.Rebuild(Success([AarhusBlock()]));
    BrokenRejected([AarhusBlock()]);
    rebuildErr := c.Rebuild(Success([AarhusBlock(), BrokenBlock()]));
    var again: bool;
    r, again := c.Fetch();
  }
}
