/**
 * `ThreadSafePlausibleConfig`: the settings the SDK reads on every delivery attempt.
 * Each atomic reference of `ThreadSafePlausibleConfig` is a plain field here.
 */
module Configuration {
  import opened Text

  const DefaultHost: string := "https://plausible.io/api"

  /**
   * Stands for `DEFAULT_USER_AGENT`, which the SDK builds once from the library version
   * and the device's build fields; only its fixed leading word is known here.
   */
  const DefaultUserAgent: string := "PlausibleAndroid"

  lemma DefaultsNotBlank()
    ensures !IsBlank(DefaultHost) && !IsBlank(DefaultUserAgent)
  {
    NotBlankAt(DefaultHost, 0);
    NotBlankAt(DefaultUserAgent, 0);
  }

  class ThreadSafeConfig {
    /** Where undelivered events are persisted; fixed at construction. */
    const eventDir: string
    /** Screen width in dp; fixed at construction. */
    const screenWidth: int
    /** `Patterns.WEB_URL.matcher(value).matches()`, a regular expression of the platform. */
    const webUrl: string -> bool

    var enable: bool
    var domain: string
    var host: string
    var retryOnFailure: bool
    var userAgent: string

    /**
     * The invariant of the configuration: host and user agent are never blank and the domain
     * passed the check. It is stated for its own sake: the constructor establishes it and every
     * setter keeps it, but no operation of the model depends on it.
     */
    ghost predicate Valid()
      reads this
    {
      && !IsBlank(host)
      && !IsBlank(userAgent)
      && (domain == "" || webUrl(domain))
    }

    constructor (eventDir: string, screenWidth: int, webUrl: string -> bool)
      ensures Valid()
      ensures this.eventDir == eventDir && this.screenWidth == screenWidth && this.webUrl == webUrl
      ensures enable && retryOnFailure
      ensures domain == "" && host == DefaultHost && userAgent == DefaultUserAgent
    {
      this.eventDir := eventDir;
      this.screenWidth := screenWidth;
      this.webUrl := webUrl;
      enable := true;
      domain := "";
      host := DefaultHost;
      retryOnFailure := true;
      userAgent := DefaultUserAgent;
      DefaultsNotBlank();
    }

    method SetEnable(value: bool)
      modifies this`enable
      ensures old(Valid()) ==> Valid()
      ensures enable == value
    {
      enable := value;
    }

    /**
     * The `domain` setter: `require(...)` throws unless the value is empty or a web URL;
     * `ok == false` stands for that exception, and then nothing is stored.
     */
    method SetDomain(value: string) returns (ok: bool)
      modifies this`domain
      ensures old(Valid()) ==> Valid()
      ensures ok <==> value == "" || webUrl(value)
      ensures domain == if ok then value else old(domain)
    {
      ok := webUrl(value) || value == "";
      if ok {
        domain := value;
      }
    }

    /** A blank host stores the default host; any other value is stored as given. */
    method SetHost(value: string)
      modifies this`host
      ensures old(Valid()) ==> Valid()
      ensures IsBlank(value) ==> host == DefaultHost
      ensures !IsBlank(value) ==> host == value
    {
      DefaultsNotBlank();
      host := IfBlank(value, DefaultHost);
    }

    method SetRetryOnFailure(value: bool)
      modifies this`retryOnFailure
      ensures old(Valid()) ==> Valid()
      ensures retryOnFailure == value
    {
      retryOnFailure := value;
    }

    /** A blank user agent stores the default one; any other value is stored as given. */
    method SetUserAgent(value: string)
      modifies this`userAgent
      ensures old(Valid()) ==> Valid()
      ensures IsBlank(value) ==> userAgent == DefaultUserAgent
      ensures !IsBlank(value) ==> userAgent == value
    {
      DefaultsNotBlank();
      userAgent := IfBlank(value, DefaultUserAgent);
    }
  }
}
