/**
 * The image loader: a memory cache of decoded images and a registry of the
 * fetches in flight, both keyed by URL. `loadImage` is split at its await:
 * `Begin` answers from the cache, joins a registered fetch or starts and
 * registers a new one; `Settle` completes a started fetch with what the
 * data provider returned.
 */
module ImageLoading {
  import opened Text

  /** A decoded image; `UIImage(data:)` is the loader's `decode` function. */
  datatype Image = Image(pixels: Data)

  /** Why the data provider failed. */
  datatype FetchError = FetchError(description: string)

  /** How `loadImage` proceeds before it awaits: a cached image, a fetch already registered for the URL, or a new fetch. */
  datatype Start = Hit(image: Image) | Joined(task: nat) | Started(task: nat)

  class ImageLoader {
    /** The decoding of fetched bytes, which may fail. */
    const decode: Data -> Option<Image>
    var cache: map<string, Image>
    var runningTasks: map<string, nat>
    var nextTask: nat
    /** Fetches started and not yet settled, with their URL. */
    ghost var pending: map<nat, string>
    /** Every call to the data provider, in order. */
    ghost var fetches: seq<string>

    /** Each registered fetch is a pending one for the same URL. */
    ghost predicate Valid()
      reads this
    {
      && (forall url :: url in runningTasks ==> runningTasks[url] in pending && pending[runningTasks[url]] == url)
      && (forall task :: task in pending ==> task < nextTask)
    }

    constructor(decode: Data -> Option<Image>)
      ensures Valid()
      ensures this.decode == decode
      ensures cache == map[] && runningTasks == map[] && pending == map[] && fetches == []
    {
      this.decode := decode;
      cache := map[];
      runningTasks := map[];
      nextTask := 0;
      pending := map[];
      fetches := [];
    }

    /** The first half of `loadImage`: a cache hit, a join of the registered fetch, or a new fetch that calls the provider once and is registered. */
    method Begin(url: string) returns (start: Start)
      requires Valid()
      modifies this
      ensures Valid()
      ensures cache == old(cache)
      ensures url in old(cache) ==> start == Hit(old(cache)[url])
      ensures url !in old(cache) && url in old(runningTasks) ==> start == Joined(old(runningTasks)[url])
      ensures !start.Started? ==>
        runningTasks == old(runningTasks) && pending == old(pending) && fetches == old(fetches) && nextTask == old(nextTask)
      ensures url !in old(cache) && url !in old(runningTasks) ==>
        && start == Started(old(nextTask))
        && runningTasks == old(runningTasks)[url := old(nextTask)]
        && pending == old(pending)[old(nextTask) := url]
        && fetches == old(fetches) + [url]
        && nextTask == old(nextTask) + 1
    {
      if url in cache {
        return Hit(cache[url]);
      }
      if url in runningTasks {
        return Joined(runningTasks[url]);
      }
      start := Started(nextTask);
      fetches := fetches + [url];
      runningTasks := runningTasks[url := nextTask];
      pending := pending[nextTask := url];
      nextTask := nextTask + 1;
    }

    /** The second half, for the call that started the fetch: cache a decoded image, return nothing for bytes that do not decode, pass a provider error on; then drop the URL's registry entry. */
    method Settle(url: string, task: nat, fetched: Result<Data, FetchError>) returns (result: Result<Option<Image>, FetchError>)
      requires Valid()
      requires task in pending && pending[task] == url
      modifies this
      ensures Valid()
      ensures runningTasks == old(runningTasks) - {url}
      ensures pending == old(pending) - {task}
      ensures fetches == old(fetches) && nextTask == old(nextTask)
      ensures fetched.Failure? ==> result == Failure(fetched.error) && cache == old(cache)
      ensures fetched.Success? && decode(fetched.value).None? ==> result == Success(None) && cache == old(cache)
      ensures fetched.Success? && decode(fetched.value).Some? ==>
        result == Success(decode(fetched.value)) && cache == old(cache)[url := decode(fetched.value).value]
    {
      match fetched {
        case Failure(e) =>
          result := Failure(e);
        case Success(data) =>
          var image := decode(data);
          if image.Some? {
            cache := cache[url := image.value];
          }
          result := Success(image);
      }
      runningTasks := runningTasks - {url};
      pending := pending - {task};
    }

    /** `removeImage(for:)`: only that URL's cached image goes; the registry is untouched. */
    method RemoveImage(url: string)
      requires Valid()
      modifies this
      ensures Valid()
      ensures cache == old(cache) - {url}
      ensures runningTasks == old(runningTasks) && pending == old(pending) && fetches == old(fetches) && nextTask == old(nextTask)
    {
      cache := cache - {url};
    }

    /** `clearCache`: the cache and the registry are emptied; fetches in flight are forgotten, not cancelled. */
    method ClearCache()
      requires Valid()
      modifies this
      ensures Valid()
      ensures cache == map[] && runningTasks == map[]
      ensures pending == old(pending) && fetches == old(fetches) && nextTask == old(nextTask)
    {
      cache := map[];
      runningTasks := map[];
    }
  }

  /** Loading an image, then loading it again: the second load is a cache hit and the provider was called once. */
  method LoadTwice(loader: ImageLoader, url: string, data: Data) returns (first: Result<Option<Image>, FetchError>, second: Start)
    requires loader.Valid() && url !in loader.cache && url !in loader.runningTasks
    requires loader.decode(data).Some?
    modifies loader
    ensures first == Success(loader.decode(data))
    ensures second == Hit(loader.decode(data).value)
    ensures loader.fetches == old(loader.fetches) + [url]
  {
    var start := loader.Begin(url);
    first := loader.Settle(url, start.task, Success(data));
    second := loader.Begin(url);
  }

  /** Two loads of one URL before the first settles: the second joins the first's fetch and the provider is called once. */
  method ConcurrentLoads(loader: ImageLoader, url: string) returns (first: Start, second: Start)
    requires loader.Valid() && url !in loader.cache && url !in loader.runningTasks
    modifies loader
    ensures first.Started? && second == Joined(first.task)
    ensures loader.fetches == old(loader.fetches) + [url]
  {
    first := loader.Begin(url);
    second := loader.Begin(url);
  }

  /** A load whose bytes do not decode returns nothing and caches nothing, so the next load fetches again. */
  method UndecodableIsRefetched(loader: ImageLoader, url: string, data: Data) returns (first: Result<Option<Image>, FetchError>, second: Start)
    requires loader.Valid() && url !in loader.cache && url !in loader.runningTasks
    requires loader.decode(data).None?
    modifies loader
    ensures first == Success(None)
    ensures second.Started?
    ensures loader.fetches == old(loader.fetches) + [url, url]
  {
    var start := loader.Begin(url);
    first := loader.Settle(url, start.task, Success(data));
    second := loader.Begin(url);
  }

  /** After `clearCache` a cached URL is fetched again. */
  method ClearThenLoad(loader: ImageLoader, url: string) returns (start: Start)
    requires loader.Valid() && url in loader.cache
    modifies loader
    ensures start.Started?
    ensures loader.fetches == old(loader.fetches) + [url]
  {
    loader.ClearCache();
    start := loader.Begin(url);
  }
}
