/**
 * The `Plausible` facade built with its `(client, config, domain)` constructor: it writes
 * settings through to the config and forwards every event to its client, adding the
 * config's domain and screen width. The client here records what it is given, as the
 * fake client of the SDK's unit tests does.
 */
module Facade {
  import opened Wrappers
  import opened Events
  import opened Configuration

  /** A `PlausibleClient` whose `event(event)` appends the event to a list. */
  class RecordingClient {
    var events: seq<Event>

    constructor ()
      ensures events == []
    {
      events := [];
    }

    /** `event(event: Event)`. */
    method SendEvent(e: Event)
      modifies this`events
      ensures events == old(events) + [e]
    {
      events := events + [e];
    }

    /** The default `event(domain, name, url, referrer, screenWidth, props)`: normalise, then `event(event)`. */
    method TrackEvent(domain: string, name: string, url: Uri, referrer: string, screenWidth: int,
                      props: Option<map<string, PropValue>>)
      modifies this`events
      ensures events == old(events) + [MakeEvent(domain, name, url, referrer, screenWidth, props)]
    {
      SendEvent(MakeEvent(domain, name, url, referrer, screenWidth, props));
    }
  }

  class Plausible {
    const client: RecordingClient
    const config: ThreadSafeConfig

    /** The private primary constructor. */
    constructor Init(client: RecordingClient, config: ThreadSafeConfig)
      ensures this.client == client && this.config == config
    {
      this.client := client;
      this.config := config;
    }

    /**
     * `Plausible(client, config, domain)`: sets `config.domain` to `domain.orEmpty()` and
     * wraps client and config. The domain setter throws on a value that is neither empty nor
     * a web URL; then no facade is made (None) and the config is unchanged.
     */
    static method Create(client: RecordingClient, config: ThreadSafeConfig, domain: Option<string>)
      returns (p: Option<Plausible>)
      modifies config`domain
      ensures p.Some? <==> domain.GetOr("") == "" || config.webUrl(domain.GetOr(""))
      ensures p.Some? ==> fresh(p.value) && p.value.client == client && p.value.config == config
      ensures config.domain == if p.Some? then domain.GetOr("") else old(config.domain)
      ensures old(config.Valid()) ==> config.Valid()
    {
      var ok := config.SetDomain(domain.GetOr(""));
      if !ok {
        return None;
      }
      var q := new Plausible.Init(client, config);
      p := Some(q);
    }

    /** `enable(enable)`: writes the flag to the config. */
    method Enable(value: bool)
      modifies config`enable
      ensures config.enable == value
      ensures old(config.Valid()) ==> config.Valid()
    {
      config.SetEnable(value);
    }

    /** `setUserAgent(userAgent)`: writes it to the config, which keeps its default for a blank value. */
    method SetUserAgent(value: string)
      modifies config`userAgent
      ensures Text.IsBlank(value) ==> config.userAgent == DefaultUserAgent
      ensures !Text.IsBlank(value) ==> config.userAgent == value
      ensures old(config.Valid()) ==> config.Valid()
    {
      config.SetUserAgent(value);
    }

    /** `pageView(url, referrer, props)`: exactly `event("pageview", url, referrer, props)`. */
    method PageView(url: Uri, referrer: string := "", props: Option<map<string, PropValue>> := None)
      modifies client`events
      ensures client.events
              == old(client.events) + [MakeEvent(config.domain, "pageview", url, referrer, config.screenWidth, props)]
    {
      CustomEvent("pageview", url, referrer, props);
    }

    /** `event(name, url, referrer, props)`: one client call with the config's domain and screen width. */
    method CustomEvent(name: string, url: Uri, referrer: string := "", props: Option<map<string, PropValue>> := None)
      modifies client`events
      ensures client.events
              == old(client.events) + [MakeEvent(config.domain, name, url, referrer, config.screenWidth, props)]
    {
      client.TrackEvent(config.domain, name, url, referrer, config.screenWidth, props);
    }
  }

  const ScreenWidth: int := 123

  /**
   * The shared set-up of the facade's unit tests: a fresh config of width 123 and a facade
   * for "test.example.com", which the platform's URL check accepts.
   */
  method SetUp(webUrl: string -> bool) returns (client: RecordingClient, config: ThreadSafeConfig, plausible: Plausible)
    requires webUrl("test.example.com")
    ensures fresh(client) && fresh(config) && fresh(plausible)
    ensures plausible.client == client && plausible.config == config && client.events == []
    ensures config.Valid() && config.enable && config.userAgent == DefaultUserAgent
    ensures config.domain == "test.example.com" && config.screenWidth == ScreenWidth
  {
    client := new RecordingClient();
    config := new ThreadSafeConfig("events", ScreenWidth, webUrl);
    var p := Plausible.Create(client, config, Some("test.example.com"));
    plausible := p.value;
  }

  /** "enable is set on config via Plausible": enabled by default, disabled after `enable(false)`. */
  method EnableIsSetOnConfig(webUrl: string -> bool) returns (before: bool, after: bool)
    requires webUrl("test.example.com")
    ensures before && !after
  {
    var client, config, plausible := SetUp(webUrl);
    before := config.enable;
    plausible.Enable(false);
    after := config.enable;
  }

  /** "user agent is set on config via Plausible": the new agent is stored and differs from the default. */
  method UserAgentIsSetOnConfig(webUrl: string -> bool) returns (before: string, after: string)
    requires webUrl("test.example.com")
    ensures after == "test user agent" && after != before
  {
    var client, config, plausible := SetUp(webUrl);
    before := config.userAgent;
    Text.NotBlankAt("test user agent", 0);
    plausible.SetUserAgent("test user agent");
    after := config.userAgent;
  }

  /** "events are sent to client": one event, with the domain, the completed URL and the width filled in. */
  method EventsAreSentToClient(webUrl: string -> bool) returns (events: seq<Event>)
    requires webUrl("test.example.com")
    ensures events == [Event("test.example.com", "eventName", "app://localhost/eventUrl", "referrer",
                             ScreenWidth, Some(map["prop1" := "propVal"]))]
  {
    var client, config, plausible := SetUp(webUrl);
    var ok := config.SetDomain("test.example.com");
    plausible.CustomEvent("eventName", Uri("", "", "eventUrl"), "referrer", Some(map["prop1" := PropValue.Text("propVal")]));
    events := client.events;
    BareUrlGetsAppLocalhost();
    assert StringProps(Some(map["prop1" := PropValue.Text("propVal")])).value == map["prop1" := "propVal"];
  }

  /** A page view with referrer and props omitted is sent with referrer "" and no props. */
  method PageViewDefaults(webUrl: string -> bool) returns (events: seq<Event>)
    requires webUrl("test.example.com")
    ensures events == [Event("test.example.com", "pageview", "app://localhost/home", "", ScreenWidth, None)]
  {
    var client, config, plausible := SetUp(webUrl);
    plausible.PageView(Uri("", "", "home"));
    events := client.events;
    assert Render(Normalize(Uri("", "", "home"))) == "app://localhost/home";
  }
}
