/**
 * The process-wide loader of the Socure DocV vendor bundle: a singleton that injects
 * the bundle's script tag at most once per load, shares one pending load between
 * concurrent callers, caches the SDK object the bundle registers on `window`, and is
 * torn down by `destroy()`, after which the next load starts from scratch.
 *
 * `load()` is async. It is modelled in two steps: `Load` is everything up to the
 * first await (the reset check, the cache and pending checks, the script injection),
 * and `Settle` is the resolution of the pending load, whose outcome (the script's
 * onload/onerror, the 100 ms global check, the 30 s timer) is a parameter.
 */
module SocureSdkLoader {
  import opened Wrappers
  import opened VecuErrors
  import Text

  /** The object the vendor bundle registers as `window.SocureDocVSDK`. */
  datatype Sdk = Sdk(id: nat)

  /** `PROVIDER_CONFIGS.socure.scriptUrl`. */
  const SCRIPT_URL: string := "https://websdk.socure.com/bundle.js"
  /** The host `destroy()` matches script sources against. */
  const SCRIPT_HOST: string := "websdk.socure.com"
  const LOAD_TIMEOUT_MS: int := 30000

  const SDK_NOT_FOUND: string := "Socure DocV SDK not found at window.SocureDocVSDK"
  const LOAD_TIMEOUT_MESSAGE: string := "Socure SDK load timeout after 30000ms"

  /** A `<script>` element in the document head: its creation serial and its `src`. */
  datatype ScriptTag = ScriptTag(serial: nat, src: string)

  /** `script[src*="websdk.socure.com"]`. */
  predicate IsSocureScript(t: ScriptTag) {
    Text.Contains(t.src, SCRIPT_HOST)
  }

  /** The URL `loadSDK` injects: plain, or cache-busted with `?t=<now>` when the loader is marked destroyed. */
  function ScriptUrl(cacheBustAt: Option<int>): (u: string)
    ensures cacheBustAt.None? ==> u == SCRIPT_URL
    ensures Text.StartsWith(u, SCRIPT_URL)
  {
    match cacheBustAt
    case None => SCRIPT_URL
    case Some(t) => SCRIPT_URL + "?t=" + Text.IntToString(t)
  }

  /** How an injected bundle script ends: the browser's, the network's and the vendor's part. */
  datatype ScriptOutcome =
    | Registered(sdk: Sdk)   // onload fired and, 100 ms later, window.SocureDocVSDK is set
    | NotRegistered          // onload fired but the global is still absent 100 ms later
    | ScriptFailed           // onerror fired
    | TimedOut               // the 30 s timer won the race

  /**
   * How a load that injected the script `src` settles: the SDK the bundle registered,
   * or the error of the first of the race's branches to fail.
   */
  function InjectedLoadResult(src: string, outcome: ScriptOutcome): (r: Result<Sdk, Failure>)
    ensures r.Ok? <==> outcome.Registered?
    ensures r.Ok? ==> r.value == outcome.sdk
    ensures outcome.TimedOut? ==> r == Err(TimeoutError(LOAD_TIMEOUT_MESSAGE, LOAD_TIMEOUT_MS))
    ensures r.Err? && !outcome.TimedOut? ==> r.error.PlainError?
  {
    match outcome
    case Registered(s) => Ok(s)
    case NotRegistered => Err(PlainError(SDK_NOT_FOUND))
    case ScriptFailed => Err(PlainError("Failed to load script: " + src))
    case TimedOut => Err(TimeoutError(LOAD_TIMEOUT_MESSAGE, LOAD_TIMEOUT_MS))
  }

  /** Where a pending load takes its SDK from. */
  datatype LoadSource = ExistingGlobal(sdk: Sdk) | InjectedScript(src: string)

  /** `loadPromise`: null, pending, or resolved with the SDK. */
  datatype LoadPromise = NoPromise | Pending(source: LoadSource) | Fulfilled(sdk: Sdk)

  /** What a call of `load()` does before it first awaits. */
  datatype LoadStep =
    | Cached(sdk: Sdk)   // returned the cached instance
    | Joined             // returned the load already in flight
    | Started            // started a new load

  /** The parts of `window` and `document` that the vendor integration reads and writes. */
  class Page {
    /** `window.SocureDocVSDK`. */
    var socureDocVSDK: Option<Sdk>
    /** The `<script>` elements in the document. */
    var scripts: set<ScriptTag>
    /** How many elements have been created; serials of new elements. */
    var nodesCreated: nat
    /** `SocureSDKLoader.instance`. */
    var loaderInstance: SocureSDKLoader?

    constructor ()
      ensures socureDocVSDK == None && scripts == {} && nodesCreated == 0 && loaderInstance == null
    {
      socureDocVSDK := None;
      scripts := {};
      nodesCreated := 0;
      loaderInstance := null;
    }

    /** The singleton, when there is one, belongs to this page and is consistent. */
    ghost predicate Valid()
      reads this, loaderInstance
    {
      loaderInstance != null ==> loaderInstance.page == this && loaderInstance.Valid()
    }

    /** `document.head.appendChild(script)` of a new script with the given source. */
    method InjectScript(src: string)
      modifies this
      ensures scripts == old(scripts) + {ScriptTag(old(nodesCreated), src)}
      ensures nodesCreated == old(nodesCreated) + 1
      ensures socureDocVSDK == old(socureDocVSDK) && loaderInstance == old(loaderInstance)
    {
      scripts := scripts + {ScriptTag(nodesCreated, src)};
      nodesCreated := nodesCreated + 1;
    }
  }

  class SocureSDKLoader {
    const page: Page
    var loadPromise: LoadPromise
    var sdkInstance: Option<Sdk>
    var isDestroyed: bool

    /** The cached instance is exactly the value of a fulfilled load. */
    ghost predicate Valid()
      reads this
    {
      && (sdkInstance.Some? <==> loadPromise.Fulfilled?)
      && (loadPromise.Fulfilled? ==> sdkInstance == Some(loadPromise.sdk))
    }

    /** The condition under which `load()` discards all its state first. */
    predicate NeedsForcedReload()
      reads this, page
    {
      isDestroyed || (sdkInstance.None? && page.socureDocVSDK.Some?)
    }

    constructor (page: Page)
      ensures this.page == page && Valid()
      ensures loadPromise == NoPromise && sdkInstance == None && !isDestroyed
    {
      this.page := page;
      loadPromise := NoPromise;
      sdkInstance := None;
      isDestroyed := false;
    }

    /** `SocureSDKLoader.getInstance()`: the existing singleton, or a new one that becomes it. */
    static method GetInstance(page: Page) returns (loader: SocureSDKLoader)
      requires page.Valid()
      modifies page
      ensures page.Valid() && page.loaderInstance == loader
      ensures loader.page == page && loader.Valid()
      ensures old(page.loaderInstance) != null ==> loader == old(page.loaderInstance)
      ensures old(page.loaderInstance) == null ==>
        fresh(loader) && loader.loadPromise == NoPromise && loader.sdkInstance == None && !loader.isDestroyed
      ensures page.socureDocVSDK == old(page.socureDocVSDK) && page.scripts == old(page.scripts)
      ensures page.nodesCreated == old(page.nodesCreated)
    {
      if page.loaderInstance == null {
        loader := new SocureSDKLoader(page);
        page.loaderInstance := loader;
      } else {
        loader := page.loaderInstance;
      }
    }

    /**
     * `load()` up to its first await. After a forced reset (destroyed, or a global
     * without a cached instance) the global is gone and a fresh load starts; otherwise
     * a cached instance is returned, a pending load is joined, or a load is started.
     * A started load injects exactly one script, and always the plain URL.
     */
    method Load(now: int) returns (step: LoadStep)
      requires Valid() && page.Valid()
      modifies this, page
      ensures Valid() && page.Valid() && !isDestroyed
      ensures page.loaderInstance == old(page.loaderInstance)
      ensures step.Cached? ==> sdkInstance == Some(step.sdk) && loadPromise == Fulfilled(step.sdk)
      ensures !step.Cached? ==> loadPromise.Pending?
      ensures old(NeedsForcedReload()) || (old(sdkInstance).None? && old(loadPromise).NoPromise?) ==>
        && step == Started
        && loadPromise == Pending(InjectedScript(SCRIPT_URL)) && sdkInstance == None
        && page.socureDocVSDK == None
        && page.scripts == old(page.scripts) + {ScriptTag(old(page.nodesCreated), SCRIPT_URL)}
        && page.nodesCreated == old(page.nodesCreated) + 1
      ensures !old(NeedsForcedReload()) && old(sdkInstance).Some? ==>
        step == Cached(old(sdkInstance).value) && unchanged(this) && unchanged(page)
      ensures !old(NeedsForcedReload()) && old(sdkInstance).None? && old(loadPromise).Pending? ==>
        step == Joined && unchanged(this) && unchanged(page)
    {
      if isDestroyed || (sdkInstance.None? && page.socureDocVSDK.Some?) {
        isDestroyed := false;
        sdkInstance := None;
        loadPromise := NoPromise;
        page.socureDocVSDK := None;
      }
      if sdkInstance.Some? {
        return Cached(sdkInstance.value);
      }
      if loadPromise.Pending? {
        return Joined;
      }
      StartLoadSDK(now);
      step := Started;
    }

    /**
     * `loadSDK()` up to the point where it returns its race: a global that is already
     * present is taken as is; otherwise one script tag is injected, cache-busted only
     * when the loader is marked destroyed.
     */
    method StartLoadSDK(now: int)
      requires sdkInstance.None?
      modifies this, page
      ensures sdkInstance == None && isDestroyed == old(isDestroyed)
      ensures page.loaderInstance == old(page.loaderInstance) && page.socureDocVSDK == old(page.socureDocVSDK)
      ensures old(page.socureDocVSDK).Some? ==>
        loadPromise == Pending(ExistingGlobal(old(page.socureDocVSDK).value)) && unchanged(page)
      ensures old(page.socureDocVSDK).None? ==>
        var src := ScriptUrl(if old(isDestroyed) then Some(now) else None);
        && loadPromise == Pending(InjectedScript(src))
        && page.scripts == old(page.scripts) + {ScriptTag(old(page.nodesCreated), src)}
        && page.nodesCreated == old(page.nodesCreated) + 1
    {
      if page.socureDocVSDK.Some? {
        loadPromise := Pending(ExistingGlobal(page.socureDocVSDK.value));
        return;
      }
      var src := ScriptUrl(if isDestroyed then Some(now) else None);
      page.InjectScript(src);
      loadPromise := Pending(InjectedScript(src));
    }

    /**
     * The pending load settles: a success caches the SDK on the loader; a failure
     * clears the pending load, so the next `load()` tries again, and rejects with the
     * source's error for that outcome.
     */
    method Settle(outcome: ScriptOutcome) returns (result: Result<Sdk, Failure>)
      requires Valid() && page.Valid() && loadPromise.Pending?
      modifies this, page
      ensures Valid() && page.Valid()
      ensures isDestroyed == old(isDestroyed)
      ensures page.loaderInstance == old(page.loaderInstance) && page.scripts == old(page.scripts)
      ensures page.nodesCreated == old(page.nodesCreated)
      ensures result.Ok? ==> sdkInstance == Some(result.value) && loadPromise == Fulfilled(result.value)
      ensures result.Err? ==> sdkInstance == None && loadPromise == NoPromise
      ensures old(loadPromise).source.ExistingGlobal? ==>
        result == Ok(old(loadPromise).source.sdk) && page.socureDocVSDK == old(page.socureDocVSDK)
      ensures old(loadPromise).source.InjectedScript? ==>
        && result == InjectedLoadResult(old(loadPromise).source.src, outcome)
        && page.socureDocVSDK == (if outcome.Registered? then Some(outcome.sdk) else old(page.socureDocVSDK))
    {
      match loadPromise.source {
        case ExistingGlobal(s) =>
          result := Ok(s);
        case InjectedScript(src) =>
          match outcome {
            case Registered(s) =>
              page.socureDocVSDK := Some(s);
              result := Ok(s);
            case NotRegistered =>
              result := Err(PlainError(SDK_NOT_FOUND));
            case ScriptFailed =>
              result := Err(PlainError("Failed to load script: " + src));
            case TimedOut =>
              result := Err(TimeoutError(LOAD_TIMEOUT_MESSAGE, LOAD_TIMEOUT_MS));
          }
      }
      if result.Ok? {
        sdkInstance := Some(result.value);
        loadPromise := Fulfilled(result.value);
      } else {
        loadPromise := NoPromise;
      }
    }

    /** `isLoaded()`: in a consistent loader, exactly when a load has fulfilled. */
    function IsLoaded(): (b: bool)
      reads this
      ensures Valid() ==> (b <==> loadPromise.Fulfilled?)
    {
      sdkInstance.Some?
    }

    /**
     * `getSDK()`: an SDK exactly when the loader is loaded, and in a consistent loader
     * the SDK the fulfilled load yielded.
     */
    function GetSDK(): (r: Option<Sdk>)
      reads this
      ensures r.Some? <==> IsLoaded()
      ensures Valid() && loadPromise.Fulfilled? ==> r == Some(loadPromise.sdk)
    {
      sdkInstance
    }

    /**
     * `destroy()`: marks the loader destroyed, deletes the global, removes every
     * script whose source mentions the vendor host, drops the cached instance and
     * the pending load, and clears the singleton.
     */
    method Destroy()
      modifies this, page
      ensures isDestroyed && sdkInstance == None && loadPromise == NoPromise && Valid()
      ensures !IsLoaded() && GetSDK() == None
      ensures page.socureDocVSDK == None && page.loaderInstance == null && page.Valid()
      ensures page.scripts == set t | t in old(page.scripts) && !IsSocureScript(t)
      ensures page.nodesCreated == old(page.nodesCreated)
    {
      isDestroyed := true;
      page.socureDocVSDK := None;
      page.scripts := set t | t in page.scripts && !IsSocureScript(t);
      sdkInstance := None;
      loadPromise := NoPromise;
      page.loaderInstance := null;
    }
  }

  /** The script the loader injects is one `destroy()` removes. */
  lemma InjectedScriptIsRemovable(serial: nat, now: Option<int>)
    ensures IsSocureScript(ScriptTag(serial, ScriptUrl(now)))
  {
    var u := ScriptUrl(now);
    var rest := u[|SCRIPT_URL|..];
    assert u == SCRIPT_URL + rest;
    UrlOnHost(rest);
  }

  /** Whatever follows the loader's URL, the vendor host occurs in it. */
  lemma UrlOnHost(rest: string)
    ensures Text.Contains(SCRIPT_URL + rest, SCRIPT_HOST)
  {
    assert SCRIPT_URL == "https://" + SCRIPT_HOST + "/bundle.js";
    assert SCRIPT_URL + rest == "https://" + SCRIPT_HOST + ("/bundle.js" + rest);
    Text.ContainsInfix("https://", SCRIPT_HOST, "/bundle.js" + rest);
  }

  /**
   * Concurrent callers share one load: a second `load()` that runs before the first
   * settles joins it, so exactly one script is injected, and a load after the success
   * is served from the cache without touching the page.
   */
  method SharedLoad(page: Page, sdk: Sdk) returns (loader: SocureSDKLoader)
    requires page.Valid() && page.loaderInstance == null && page.socureDocVSDK == None
    modifies page
    ensures loader.page == page && page.loaderInstance == loader
    ensures page.scripts == old(page.scripts) + {ScriptTag(old(page.nodesCreated), SCRIPT_URL)}
    ensures loader.sdkInstance == Some(sdk) && page.socureDocVSDK == Some(sdk)
  {
    loader := SocureSDKLoader.GetInstance(page);
    var first := loader.Load(0);
    assert first == Started;
    var second := loader.Load(1);
    assert second == Joined;
    var result := loader.Settle(Registered(sdk));
    assert result == Ok(sdk);
    var third := loader.Load(2);
    assert third == Cached(sdk);
  }
}
