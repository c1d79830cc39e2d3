/** The browser as the page scripts see it: `localStorage`, `fetch` and
    `window.location.href`. */
module Browser {
  import opened Js
  import opened CartData

  /** A value in `localStorage`. Credentials and the role are plain text; the
      cart and its extras are JSON documents, kept here as the value they encode. */
  datatype Item = Text(s: string) | CartDoc(entries: seq<Entry>) | ExtrasDoc(extras: Extras)

  /** A request as `fetch` receives it; `body` is the JSON value the page
      serialized into it, if any. */
  datatype Request = Request(url: string, verb: string, headers: map<string, string>, credentials: string, body: Option<Val>)

  /** A response: its status and its body as `res.json()` decodes it (`None` when
      the body is not JSON and `res.json()` rejects). */
  datatype Reply = Reply(status: int, body: Option<Val>)

  /** What `fetch` resolves to, or a rejection at the transport level. */
  datatype Outcome = Received(reply: Reply) | TransportError

  /** `response.ok` */
  predicate IsOk(r: Reply) {
    200 <= r.status <= 299
  }

  /** `localStorage.getItem(key)` for a key that holds text; `None` is `null`. */
  function GetText(storage: map<string, Item>, key: string): Option<string> {
    if key in storage && storage[key].Text? then Some(storage[key].s) else None
  }

  /** The answer the network gives to the next request. A script that has run
      out stands for a network that no longer answers. */
  function NextOutcome(replies: seq<Outcome>): Outcome {
    if replies == [] then TransportError else replies[0]
  }

  function RestOf(replies: seq<Outcome>): (r: seq<Outcome>)
    ensures |r| == if replies == [] then 0 else |replies| - 1
  {
    if replies == [] then [] else replies[1..]
  }

  /** Between two states, `w` changed nothing but its storage. */
  twostate predicate OnlyStorageChanged(w: Window)
    reads w
  {
    w.replies == old(w.replies) && w.sent == old(w.sent) && w.href == old(w.href) && w.alerts == old(w.alerts)
  }

  class Window {
    /** `localStorage` */
    var storage: map<string, Item>
    /** The answers the network will give, in order. */
    var replies: seq<Outcome>
    /** Every request the page has issued, in order. */
    var sent: seq<Request>
    /** The last value assigned to `window.location.href`, if any. */
    var href: Option<string>
    /** The messages shown with `alert`, in order. */
    var alerts: seq<string>

    constructor (storage: map<string, Item>, replies: seq<Outcome>)
      ensures this.storage == storage && this.replies == replies
      ensures sent == [] && href == None && alerts == []
    {
      this.storage := storage;
      this.replies := replies;
      sent := [];
      href := None;
      alerts := [];
    }

    method SetItem(key: string, item: Item)
      modifies this
      ensures storage == old(storage)[key := item]
      ensures replies == old(replies) && sent == old(sent) && href == old(href) && alerts == old(alerts)
    {
      storage := storage[key := item];
    }

    method RemoveItem(key: string)
      modifies this
      ensures storage == old(storage) - {key}
      ensures replies == old(replies) && sent == old(sent) && href == old(href) && alerts == old(alerts)
    {
      storage := storage - {key};
    }

    /** `await fetch(...)`: records the request and takes the next answer. */
    method Fetch(req: Request) returns (o: Outcome)
      modifies this
      ensures o == NextOutcome(old(replies)) && replies == RestOf(old(replies))
      ensures sent == old(sent) + [req]
      ensures storage == old(storage) && href == old(href) && alerts == old(alerts)
    {
      o := NextOutcome(replies);
      replies := RestOf(replies);
      sent := sent + [req];
    }

    method Navigate(url: string)
      modifies this
      ensures href == Some(url)
      ensures storage == old(storage) && replies == old(replies) && sent == old(sent) && alerts == old(alerts)
    {
      href := Some(url);
    }

    method Alert(message: string)
      modifies this
      ensures alerts == old(alerts) + [message]
      ensures storage == old(storage) && replies == old(replies) && sent == old(sent) && href == old(href)
    {
      alerts := alerts + [message];
    }
  }
}
