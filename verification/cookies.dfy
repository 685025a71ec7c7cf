/**
 * The cookie adapter: translates the host's cookie records and change
 * notifications into the extension platform's cookie shape, and computes the
 * value each call settles with from the one reply the host gives it.
 *
 * The host cookie jar is not modelled: its reply to a query or a write is an
 * input of the handler that consumes it.
 */
module CookiesHandler {
  import opened Wrappers

  /** The extension platform's SameSite vocabulary. */
  datatype SameSiteStatus = NoRestriction | Lax | Strict | Unspecified

  /** A cookie as the host's store reports it (optional fields may be absent). */
  datatype HostCookie = HostCookie(
    name: string,
    value: string,
    domain: Option<string>,
    hostOnly: Option<bool>,
    path: Option<string>,
    secure: Option<bool>,
    httpOnly: Option<bool>,
    session: Option<bool>,
    expirationDate: Option<real>,
    sameSite: string)

  /** A cookie in the extension platform's shape. */
  datatype Cookie = Cookie(
    name: string,
    value: string,
    domain: Option<string>,
    hostOnly: Option<bool>,
    path: Option<string>,
    secure: Option<bool>,
    httpOnly: Option<bool>,
    sameSite: SameSiteStatus,
    session: Option<bool>,
    expirationDate: Option<real>,
    storeId: string)

  /** The arguments of a cookie call: a url and any subset of a cookie's fields. */
  datatype Details = Details(
    url: string,
    name: Option<string>,
    value: Option<string>,
    domain: Option<string>,
    hostOnly: Option<bool>,
    path: Option<string>,
    secure: Option<bool>,
    httpOnly: Option<bool>,
    sameSite: Option<SameSiteStatus>,
    session: Option<bool>,
    expirationDate: Option<real>,
    storeId: Option<string>)

  /** The filter handed to the host store's query. */
  datatype HostFilter = HostFilter(
    url: string,
    name: Option<string>,
    domain: Option<string>,
    path: Option<string>,
    secure: Option<bool>,
    session: Option<bool>)

  /** The record handed to the host store's write. */
  datatype HostWrite = HostWrite(
    url: string,
    name: Option<string>,
    value: Option<string>,
    domain: Option<string>,
    path: Option<string>,
    secure: Option<bool>,
    httpOnly: Option<bool>,
    expirationDate: Option<real>)

  /** What `set` settles with on success; `storeId: None` is the literal `null`. */
  datatype SetEcho = SetEcho(
    name: Option<string>,
    value: Option<string>,
    domain: Option<string>,
    path: Option<string>,
    secure: Option<bool>,
    httpOnly: Option<bool>,
    expirationDate: Option<real>,
    storeId: Option<string>)

  /** What `remove` settles with; `storeId: None` is the literal `null`. */
  datatype RemoveEcho = RemoveEcho(url: string, name: Option<string>, storeId: Option<string>)

  /** The payload of an `OnChanged` event; an unknown host cause becomes `None` (`undefined`). */
  datatype ChangeInfo = ChangeInfo(cookie: Cookie, cause: Option<string>, removed: bool)

  datatype Event = OnChanged(details: ChangeInfo)

  /** The store id every translated cookie carries: the one implicit store. */
  const StoreId: string := "0"

  /** The host's change causes and their extension-platform spellings. */
  const CauseTable: map<string, string> := map[
    "explicit" := "explicit",
    "overwrite" := "overwrite",
    "expired" := "expired",
    "evicted" := "evicted",
    "expired-overwrite" := "expired_overwrite"
  ]

  /** Looks a host change cause up among the table's own keys; any other cause has no spelling. */
  function RemapCause(cause: string): (r: Option<string>)
    ensures cause in {"explicit", "overwrite", "expired", "evicted"} ==> r == Some(cause)
    ensures cause == "expired-overwrite" ==> r == Some("expired_overwrite")
    ensures r.Some? <==> cause in {"explicit", "overwrite", "expired", "evicted", "expired-overwrite"}
  {
    if cause in CauseTable then Some(CauseTable[cause]) else None
  }

  /** No two host causes share an extension spelling, and no spelling uses a hyphen. */
  lemma RemapCauseInjective(a: string, b: string)
    requires RemapCause(a).Some? && RemapCause(b).Some?
    ensures RemapCause(a) == RemapCause(b) ==> a == b
    ensures '-' !in RemapCause(a).value
  {
  }

  /** The host cookie in the extension's shape. */
  function Translate(c: HostCookie): (r: Cookie)
    ensures r.name == c.name && r.value == c.value && r.domain == c.domain
    ensures r.hostOnly == c.hostOnly && r.path == c.path && r.secure == c.secure
    ensures r.httpOnly == c.httpOnly && r.session == c.session
    ensures r.expirationDate == c.expirationDate
    ensures r.sameSite == NoRestriction && r.storeId == StoreId
  {
    Cookie(c.name, c.value, c.domain, c.hostOnly, c.path, c.secure, c.httpOnly,
           NoRestriction, c.session, c.expirationDate, StoreId)
  }

  /** Translation loses exactly the host's SameSite value and nothing else. */
  lemma TranslateForgetsOnlySameSite(a: HostCookie, b: HostCookie)
    ensures Translate(a) == Translate(b) <==> a.(sameSite := b.sameSite) == b
  {
  }

  /** Every host cookie of a reply translated, in the host's order. */
  function TranslateAll(cs: seq<HostCookie>): (r: seq<Cookie>)
    ensures |r| == |cs|
    ensures forall i :: 0 <= i < |cs| ==> r[i] == Translate(cs[i])
  {
    if cs == [] then [] else [Translate(cs[0])] + TranslateAll(cs[1..])
  }

  /** The query `get` sends: only the url and the name. */
  function GetFilter(d: Details): (f: HostFilter)
    ensures f.url == d.url && f.name == d.name
    ensures f.domain.None? && f.path.None? && f.secure.None? && f.session.None?
  {
    HostFilter(d.url, d.name, None, None, None, None)
  }

  /** The query `getAll` sends: url, name, domain, path, secure and session. */
  function GetAllFilter(d: Details): (f: HostFilter)
    ensures f.url == d.url && f.name == d.name && f.domain == d.domain
    ensures f.path == d.path && f.secure == d.secure && f.session == d.session
  {
    HostFilter(d.url, d.name, d.domain, d.path, d.secure, d.session)
  }

  /** The write `set` sends; SameSite and the store id are not passed on. */
  function SetRequest(d: Details): (w: HostWrite)
    ensures w.url == d.url && w.name == d.name && w.value == d.value
    ensures w.domain == d.domain && w.path == d.path && w.secure == d.secure
    ensures w.httpOnly == d.httpOnly && w.expirationDate == d.expirationDate
  {
    HostWrite(d.url, d.name, d.value, d.domain, d.path, d.secure, d.httpOnly, d.expirationDate)
  }

  /**
   * What `get` settles with, given the cookies the host found (`None` when
   * the host reports none at all): the first one translated, or `null`.
   * The handler resolves twice when a cookie is found; only the first
   * resolution takes effect, so this is a single result.
   */
  function HandleGet(reply: Option<seq<HostCookie>>): (r: Option<Cookie>)
    ensures r.Some? <==> reply.Some? && |reply.value| > 0
    ensures r.Some? ==> r.value == Translate(reply.value[0])
  {
    match reply
    case Some(cs) => if |cs| > 0 then Some(Translate(cs[0])) else None
    case None => None
  }

  /** What `getAll` settles with: the host's list translated, or `[]` when there is none. */
  function HandleGetAll(reply: Option<seq<HostCookie>>): (r: seq<Cookie>)
    ensures reply.None? ==> r == []
    ensures reply.Some? ==> |r| == |reply.value|
    ensures reply.Some? ==> forall i :: 0 <= i < |r| ==> r[i] == Translate(reply.value[i])
  {
    match reply
    case Some(cs) => TranslateAll(cs)
    case None => []
  }

  /** For the same host reply, `get` settles with the first cookie `getAll` would list. */
  lemma GetIsFirstOfGetAll(reply: Option<seq<HostCookie>>)
    ensures HandleGet(reply) == if HandleGetAll(reply) == [] then None else Some(HandleGetAll(reply)[0])
  {
  }

  /**
   * What `set` settles with: `undefined` (`None`) when the host reports an
   * error, otherwise the written fields echoed with a `null` store id.
   */
  function HandleSet(d: Details, hostError: bool): (r: Option<SetEcho>)
    ensures r.None? <==> hostError
    ensures r.Some? ==> r.value.name == d.name && r.value.value == d.value
    ensures r.Some? ==> r.value.domain == d.domain && r.value.path == d.path
    ensures r.Some? ==> r.value.secure == d.secure && r.value.httpOnly == d.httpOnly
    ensures r.Some? ==> r.value.expirationDate == d.expirationDate
    ensures r.Some? ==> r.value.storeId.None?
  {
    if hostError then None
    else Some(SetEcho(d.name, d.value, d.domain, d.path, d.secure, d.httpOnly, d.expirationDate, None))
  }

  /** A successful `set` reports back exactly the cookie fields it wrote to the host. */
  lemma SetEchoesWrite(d: Details)
    ensures var w := SetRequest(d);
      HandleSet(d, false) == Some(SetEcho(w.name, w.value, w.domain, w.path, w.secure, w.httpOnly, w.expirationDate, None))
  {
  }

  /** What `remove` settles with, whatever the host did: url and name with a `null` store id. */
  function HandleRemove(d: Details): (r: RemoveEcho)
    ensures r.url == d.url && r.name == d.name && r.storeId.None?
  {
    RemoveEcho(d.url, d.name, None)
  }

  /** The adapter's event side: every event it emits, oldest first. */
  class Cookies {
    var events: seq<Event>

    constructor ()
      ensures events == []
    {
      events := [];
    }

    /** The host's `changed` listener: exactly one `OnChanged` per notification. */
    method OnHostChanged(cookie: HostCookie, cause: string, removed: bool)
      modifies this
      ensures events == old(events) + [OnChanged(ChangeInfo(Translate(cookie), RemapCause(cause), removed))]
    {
      var details := ChangeInfo(Translate(cookie), RemapCause(cause), removed);
      events := events + [OnChanged(details)];
    }
  }
}
