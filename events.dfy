/**
 * The event value and the normalisation that the default `PlausibleClient.event(domain, …)`
 * applies before an event reaches a client: the URL gets a scheme and an authority,
 * and prop values become strings.
 */
module Events {
  import opened Wrappers
  import opened Text

  /**
   * A URL as `android.net.Uri` splits it: scheme (without ':'), authority (without "//"),
   * and the rest (path, query and fragment, as written). An absent part is "".
   */
  datatype Uri = Uri(scheme: string, authority: string, rest: string)

  /** A prop value of type `Any?` as callers pass it: text, a whole number, a flag, or null. */
  datatype PropValue = Text(text: string) | Number(number: int) | Flag(flag: bool) | Null

  /** One tracked occurrence, as sent to the collector and persisted for retry. */
  datatype Event = Event(
    domain: string,
    name: string,
    url: string,
    referrer: string,
    screenWidth: int,
    props: Option<map<string, string>>)

  /** Kotlin's `toString()` on a prop value; a null prop value renders as "null". */
  function PropString(v: PropValue): string {
    match v
    case Text(s) => s
    case Number(n) => IntToString(n)
    case Flag(b) => if b then "true" else "false"
    case Null => "null"
  }

  /** `props?.mapValues { (_, v) -> v.toString() }`. */
  function StringProps(props: Option<map<string, PropValue>>): (r: Option<map<string, string>>)
    ensures r.None? <==> props.None?
    ensures props.Some? ==> r.value.Keys == props.value.Keys
    ensures props.Some? ==> forall k | k in props.value :: r.value[k] == PropString(props.value[k])
  {
    match props
    case None => None
    case Some(m) => Some(map k | k in m :: PropString(m[k]))
  }

  /**
   * The two conditional rebinds of `correctedUrl`: a blank scheme becomes "app",
   * a blank authority becomes "localhost"; everything else is kept.
   */
  function Normalize(u: Uri): (r: Uri)
    ensures !IsBlank(r.scheme) && !IsBlank(r.authority)
    ensures r.rest == u.rest
    ensures !IsBlank(u.scheme) ==> r.scheme == u.scheme
    ensures !IsBlank(u.authority) ==> r.authority == u.authority
    ensures IsBlank(u.scheme) ==> r.scheme == "app"
    ensures IsBlank(u.authority) ==> r.authority == "localhost"
  {
    NotBlankAt("app", 0);
    NotBlankAt("localhost", 0);
    var withScheme := if IsBlank(u.scheme) then u.(scheme := "app") else u;
    if IsBlank(withScheme.authority) then withScheme.(authority := "localhost") else withScheme
  }

  /** Normalising twice is normalising once: the boundary may apply it again without effect. */
  lemma NormalizeIdempotent(u: Uri)
    ensures Normalize(Normalize(u)) == Normalize(u)
  {
  }

  /**
   * `Uri.toString()` of a URL with an authority: "scheme://authority", then the rest,
   * whose path the builder makes absolute (a '/' is put in front of a relative path).
   */
  function Render(u: Uri): string {
    var sep := if u.rest == [] || u.rest[0] in {'/', '?', '#'} then "" else "/";
    u.scheme + "://" + u.authority + sep + u.rest
  }

  /** The default `PlausibleClient.event(domain, name, url, referrer, screenWidth, props)` builds this event. */
  function MakeEvent(domain: string, name: string, url: Uri, referrer: string, screenWidth: int,
                     props: Option<map<string, PropValue>>): (e: Event)
    ensures e.domain == domain && e.name == name && e.referrer == referrer
    ensures e.screenWidth == screenWidth
    ensures e.url == Render(Normalize(url))
    ensures e.props == StringProps(props)
  {
    Event(domain, name, Render(Normalize(url)), referrer, screenWidth, StringProps(props))
  }

  /** A bare "eventUrl" (no scheme, no authority) is sent as "app://localhost/eventUrl". */
  lemma BareUrlGetsAppLocalhost()
    ensures Render(Normalize(Uri("", "", "eventUrl"))) == "app://localhost/eventUrl"
  {
  }

  /** A URL that already has a scheme and an authority is rendered with both unchanged. */
  lemma FullUrlKept(scheme: string, authority: string, rest: string)
    requires !IsBlank(scheme) && !IsBlank(authority)
    ensures Normalize(Uri(scheme, authority, rest)) == Uri(scheme, authority, rest)
  {
  }
}
