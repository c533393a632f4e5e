/** The response-cache middleware of src/app.ts over the process-wide `memory-cache` store.
  * A GET whose path is allow-listed and whose key has a live entry is answered from the
  * store; any other GET runs the handler, whose next JSON emission is intercepted: a truthy
  * payload is stored when the route's base URL is allow-listed, a falsy one is replaced by
  * `[]`. Every other method clears the whole store. Entries are keyed by
  * `JSON.stringify(req.url)` and live for CACHE_TIME milliseconds. */
module ResponseCache {
  import opened Base
  import opened Http
  import Constants

  // ---------------------------------------------------------------- the key

  function HexDigit(d: nat): char
    requires d < 16
  {
    if d < 10 then ('0' as int + d) as char else ('a' as int + d - 10) as char
  }

  predicate IsHexDigit(c: char)
  {
    '0' <= c <= '9' || 'a' <= c <= 'f' || 'A' <= c <= 'F'
  }

  function HexValue(c: char): (v: nat)
    requires IsHexDigit(c)
    ensures v < 16
  {
    if '0' <= c <= '9' then c as int - '0' as int
    else if 'a' <= c <= 'f' then c as int - 'a' as int + 10
    else c as int - 'A' as int + 10
  }

  /** How `JSON.stringify` writes one character inside a string literal: the quote and the
    * backslash are escaped, control characters get their short escape or `\u00XX`, and
    * every other character stands for itself. */
  function EscapeChar(c: char): (r: string)
    ensures r != []
  {
    if c == '"' then "\\\""
    else if c == '\\' then "\\\\"
    else if c == '\U{0008}' then "\\b"
    else if c == '\t' then "\\t"
    else if c == '\n' then "\\n"
    else if c == '\U{000C}' then "\\f"
    else if c == '\r' then "\\r"
    else if (c as int) < 0x20 then "\\u00" + [HexDigit(c as int / 16), HexDigit(c as int % 16)]
    else [c]
  }

  function EscapeString(s: string): string
  {
    if s == [] then [] else EscapeChar(s[0]) + EscapeString(s[1..])
  }

  /** The cache key: `JSON.stringify(req.url)`. */
  function CacheKey(url: string): string
  {
    "\"" + EscapeString(url) + "\""
  }

  /** Reads one character of a JSON string literal off the front of `s`, as `JSON.parse`
    * does, together with what follows it. */
  function UnescapeFirst(s: string): (r: Option<(char, string)>)
    ensures r.Some? ==> |r.value.1| < |s|
  {
    if s == [] then None
    else if s[0] != '\\' then Some((s[0], s[1..]))
    else if |s| < 2 then None
    else if s[1] == '"' then Some(('"', s[2..]))
    else if s[1] == '\\' then Some(('\\', s[2..]))
    else if s[1] == '/' then Some(('/', s[2..]))
    else if s[1] == 'b' then Some(('\U{0008}', s[2..]))
    else if s[1] == 't' then Some(('\t', s[2..]))
    else if s[1] == 'n' then Some(('\n', s[2..]))
    else if s[1] == 'f' then Some(('\U{000C}', s[2..]))
    else if s[1] == 'r' then Some(('\r', s[2..]))
    else if s[1] == 'u' && |s| >= 6 && IsHexDigit(s[2]) && IsHexDigit(s[3]) && IsHexDigit(s[4]) && IsHexDigit(s[5]) then
      var v := ((HexValue(s[2]) * 16 + HexValue(s[3])) * 16 + HexValue(s[4])) * 16 + HexValue(s[5]);
      if 0xD800 <= v < 0xE000 then None else Some((v as char, s[6..]))
    else None
  }

  /** The contents of a JSON string literal, decoded; `None` when it is malformed. */
  function Unescape(s: string): Option<string>
    decreases |s|
  {
    if s == [] then Some([])
    else
      match UnescapeFirst(s)
      case None => None
      case Some((c, rest)) =>
        match Unescape(rest)
        case None => None
        case Some(tail) => Some([c] + tail)
  }

  /** `JSON.parse` of a key, for keys that are string literals. */
  function ParseKey(k: string): Option<string>
  {
    if |k| >= 2 && k[0] == '"' && k[|k| - 1] == '"' then Unescape(k[1..|k| - 1]) else None
  }

  lemma HexRoundTrip(d: nat)
    requires d < 16
    ensures IsHexDigit(HexDigit(d)) && HexValue(HexDigit(d)) == d
  {
  }

  /** Decoding the escape of one character gives the character back. */
  lemma UnescapeEscapeChar(c: char, rest: string)
    ensures UnescapeFirst(EscapeChar(c) + rest) == Some((c, rest))
  {
    var e := EscapeChar(c);
    var s := e + rest;
    if (c as int) < 0x20 && c != '\U{0008}' && c != '\t' && c != '\n' && c != '\U{000C}' && c != '\r' {
      var hi, lo := c as int / 16, c as int % 16;
      HexRoundTrip(hi);
      HexRoundTrip(lo);
      assert s[0] == '\\' && s[1] == 'u' && s[2] == '0' && s[3] == '0';
      assert s[4] == HexDigit(hi) && s[5] == HexDigit(lo);
      assert s[6..] == rest;
    } else if |e| == 2 {
      assert s[2..] == rest;
    } else {
      assert s[1..] == rest;
    }
  }

  /** Decoding an escaped string gives the string back. */
  lemma {:induction false} UnescapeEscape(s: string)
    ensures Unescape(EscapeString(s)) == Some(s)
  {
    if s != [] {
      var rest := EscapeString(s[1..]);
      UnescapeEscapeChar(s[0], rest);
      UnescapeEscape(s[1..]);
      assert [s[0]] + s[1..] == s;
    }
  }

  /** `JSON.parse(JSON.stringify(url)) === url`. */
  lemma KeyRoundTrip(url: string)
    ensures ParseKey(CacheKey(url)) == Some(url)
  {
    var k := CacheKey(url);
    assert k[1..|k| - 1] == EscapeString(url);
    UnescapeEscape(url);
  }

  /** Distinct URLs never share a cache entry. */
  lemma KeyInjective(u1: string, u2: string)
    requires u1 != u2
    ensures CacheKey(u1) != CacheKey(u2)
  {
    KeyRoundTrip(u1);
    KeyRoundTrip(u2);
  }

  // ---------------------------------------------------------------- the store

  /** A stored payload and the instant it stops being served. */
  datatype Entry = Entry(value: Json, expire: int)

  /** `cache.get(key)` at time `now`: the payload of a live entry, or null. An entry is
    * taken to be live while `now < expire`. */
  function Lookup(entries: map<string, Entry>, key: string, now: int): Option<Json>
  {
    if key in entries && now < entries[key].expire then Some(entries[key].value) else None
  }

  /** The process-wide `memory-cache` instance. */
  class MemoryCache {
    var entries: map<string, Entry>

    constructor ()
      ensures entries == map[]
    {
      entries := map[];
    }

    function Get(key: string, now: int): Option<Json>
      reads this
    {
      Lookup(entries, key, now)
    }

    /** `cache.put(key, value, time)` at time `now`: the entry expires `time` ms later. */
    method Put(key: string, value: Json, time: nat, now: int)
      modifies this
      ensures entries == old(entries)[key := Entry(value, now + time)]
    {
      entries := entries[key := Entry(value, now + time)];
    }

    /** `cache.clear()`. */
    method Clear()
      modifies this
      ensures entries == map[]
    {
      entries := map[];
    }
  }

  // ---------------------------------------------------------------- the middleware

  /** The parts of the request the middleware reads. `path` is read on arrival, at the
    * application level; `baseUrl` is read when the handler emits, inside the router, where
    * it is the router's mount path (`/user` for every user route). */
  datatype Incoming = Incoming(verb: string, url: string, path: string, baseUrl: string)

  /** A payload the handler passes to `res.json` after the middleware installed its
    * override, and the time at which it does. */
  datatype Emission = Emission(data: Json, at: int)

  /** What the client sees: the cached payload, sent without running the handler, or the
    * handler's own run with what reached the original `res.json` (if anything did after
    * the override was installed). */
  datatype CacheOutcome = FromCache(body: Json) | Forwarded(sent: Option<Json>)

  datatype Transition = Transition(entries: map<string, Entry>, outcome: CacheOutcome)

  function RequestLine(req: Request): Incoming
  {
    Incoming(req.verb, req.url, req.path, req.baseUrl)
  }

  /** One request through the middleware, from the store `entries` at arrival time `now`. */
  function Step(
    entries: map<string, Entry>, allow: seq<string>, req: Incoming, now: int, emitted: Option<Emission>
  ): (t: Transition)
    ensures req.verb != "GET" ==> t.entries == map[] && t.outcome == Forwarded(if emitted.Some? then Some(emitted.value.data) else None)
    ensures req.verb == "GET" && req.path in allow && Lookup(entries, CacheKey(req.url), now).Some? ==>
      t == Transition(entries, FromCache(Lookup(entries, CacheKey(req.url), now).value))
    ensures req.verb == "GET" && t.entries != entries ==>
      && req.baseUrl in allow && emitted.Some? && JsonTruthy(emitted.value.data)
      && t.entries == entries[CacheKey(req.url) := Entry(emitted.value.data, emitted.value.at + Constants.CACHE_TIME)]
    ensures t.outcome.Forwarded? && emitted.Some? && !JsonTruthy(emitted.value.data) ==>
      req.verb != "GET" || (t.outcome.sent == Some(JArray([])) && t.entries == entries)
    ensures req.verb == "GET" && !(req.path in allow && Lookup(entries, CacheKey(req.url), now).Some?) ==>
      && t.outcome.Forwarded?
      && (emitted.None? ==> t.outcome.sent == None)
      && (emitted.Some? && JsonTruthy(emitted.value.data) ==> t.outcome.sent == Some(emitted.value.data))
      && (emitted.Some? && !JsonTruthy(emitted.value.data) ==> t.outcome.sent == Some(JArray([])))
    ensures (req.verb == "GET" && !(req.path in allow && Lookup(entries, CacheKey(req.url), now).Some?)
             && emitted.Some? && JsonTruthy(emitted.value.data) && req.baseUrl in allow) ==>
      t.entries == entries[CacheKey(req.url) := Entry(emitted.value.data, emitted.value.at + Constants.CACHE_TIME)]
    ensures (req.verb == "GET" && ((req.path in allow && Lookup(entries, CacheKey(req.url), now).Some?)
             || emitted.None? || !JsonTruthy(emitted.value.data) || req.baseUrl !in allow)) ==>
      t.entries == entries
  {
    var key := CacheKey(req.url);
    if req.verb == "GET" then
      if req.path in allow && Lookup(entries, key, now).Some? then
        Transition(entries, FromCache(Lookup(entries, key, now).value))
      else
        match emitted
        case None => Transition(entries, Forwarded(None))
        case Some(Emission(data, at)) =>
          if JsonTruthy(data) then
            var stored := if req.baseUrl in allow then entries[key := Entry(data, at + Constants.CACHE_TIME)] else entries;
            Transition(stored, Forwarded(Some(data)))
          else
            Transition(entries, Forwarded(Some(JArray([]))))
    else
      Transition(map[], Forwarded(if emitted.Some? then Some(emitted.value.data) else None))
  }

  /** The middleware, with the handler's JSON emission after `next()` returned given as
    * `emitted`. */
  method Handle(cache: MemoryCache, allow: seq<string>, req: Request, now: int, emitted: Option<Emission>)
    returns (outcome: CacheOutcome)
    modifies cache
    ensures Transition(cache.entries, outcome) == Step(old(cache.entries), allow, RequestLine(req), now, emitted)
  {
    var key := CacheKey(req.url);
    if req.verb == "GET" {
      if req.path in allow && cache.Get(key, now).Some? {
        outcome := FromCache(cache.Get(key, now).value);
      } else if emitted.None? {
        outcome := Forwarded(None);
      } else if JsonTruthy(emitted.value.data) {
        if req.baseUrl in allow {
          cache.Put(key, emitted.value.data, Constants.CACHE_TIME, emitted.value.at);
        }
        outcome := Forwarded(Some(emitted.value.data));
      } else {
        outcome := Forwarded(Some(JArray([])));
      }
    } else {
      cache.Clear();
      outcome := Forwarded(if emitted.Some? then Some(emitted.value.data) else None);
    }
  }

  // ---------------------------------------------------------------- properties

  /** A GET answered by the handler with a truthy payload on an allow-listed route is
    * answered from the store by a later GET of the same URL with an allow-listed path,
    * as long as it comes within CACHE_TIME of the emission. */
  lemma HitWithinLifetime(
    entries: map<string, Entry>, allow: seq<string>, first: Incoming, now1: int, data: Json, at: int,
    second: Incoming, now2: int, emitted2: Option<Emission>)
    requires first.verb == "GET" && second.verb == "GET" && first.url == second.url
    requires Step(entries, allow, first, now1, Some(Emission(data, at))).outcome.Forwarded?
    requires JsonTruthy(data) && first.baseUrl in allow && second.path in allow
    requires now2 < at + Constants.CACHE_TIME
    ensures Step(Step(entries, allow, first, now1, Some(Emission(data, at))).entries, allow, second, now2, emitted2).outcome
         == FromCache(data)
  {
  }

  /** A request with any other method in between empties the store, so the next GET runs
    * the handler. */
  lemma WriteForcesHandler(
    entries: map<string, Entry>, allow: seq<string>, write: Incoming, now1: int, e1: Option<Emission>,
    read: Incoming, now2: int, e2: Option<Emission>)
    requires write.verb != "GET"
    ensures Step(Step(entries, allow, write, now1, e1).entries, allow, read, now2, e2).outcome.Forwarded?
  {
  }

  /** A stored payload for one URL does not change what another URL reads. */
  lemma OtherUrlsUnaffected(entries: map<string, Entry>, u1: string, u2: string, e: Entry, now: int)
    requires u1 != u2
    ensures Lookup(entries[CacheKey(u1) := e], CacheKey(u2), now) == Lookup(entries, CacheKey(u2), now)
  {
    KeyInjective(u1, u2);
  }

  /** A request with its arrival time and the handler's emission. */
  datatype Event = Event(req: Incoming, now: int, emitted: Option<Emission>)

  datatype Trace = Trace(entries: map<string, Entry>, outcomes: seq<CacheOutcome>)

  /** A sequence of requests handled one after the other. */
  function Run(entries: map<string, Entry>, allow: seq<string>, events: seq<Event>): (r: Trace)
    ensures |r.outcomes| == |events|
    ensures forall i :: 0 <= i < |events| && events[i].req.verb != "GET" ==>
      r.outcomes[i] == Forwarded(if events[i].emitted.Some? then Some(events[i].emitted.value.data) else None)
    ensures events != [] && events[|events| - 1].req.verb != "GET" ==> r.entries == map[]
    ensures events == [] ==> r.entries == entries
    decreases |events|
  {
    if events == [] then Trace(entries, [])
    else
      var t := Step(entries, allow, events[0].req, events[0].now, events[0].emitted);
      var rest := Run(t.entries, allow, events[1..]);
      Trace(rest.entries, [t.outcome] + rest.outcomes)
  }

  /** Writes check the base URL while reads check the path: when no request's base URL is
    * allow-listed, an initially empty store stays empty and no request is ever answered
    * from it, whatever paths are allow-listed. */
  lemma {:induction false} NoWriteNoHit(allow: seq<string>, events: seq<Event>)
    requires forall i :: 0 <= i < |events| ==> events[i].req.baseUrl !in allow
    ensures Run(map[], allow, events).entries == map[]
    ensures forall i :: 0 <= i < |events| ==> Run(map[], allow, events).outcomes[i].Forwarded?
  {
    if events != [] {
      var t := Step(map[], allow, events[0].req, events[0].now, events[0].emitted);
      assert t.entries == map[];
      NoWriteNoHit(allow, events[1..]);
      var rest := Run(map[], allow, events[1..]);
      assert Run(map[], allow, events).outcomes == [t.outcome] + rest.outcomes;
    }
  }

  /** With the shipped empty allow-list the middleware never reads or writes the store. */
  lemma DefaultAllowListInert(events: seq<Event>)
    ensures Run(map[], Constants.CACHE_API, events).entries == map[]
    ensures forall i :: 0 <= i < |events| ==> Run(map[], Constants.CACHE_API, events).outcomes[i].Forwarded?
  {
    NoWriteNoHit(Constants.CACHE_API, events);
  }

  /** A resource route mounted at `/user` never fills the entry that an allow-listed
    * sub-path such as `/user/1` reads. */
  lemma SubPathNeverCached(events: seq<Event>)
    requires forall i :: 0 <= i < |events| ==> events[i].req.baseUrl == "/user"
    ensures forall i :: 0 <= i < |events| ==> Run(map[], ["/user/1"], events).outcomes[i].Forwarded?
  {
    NoWriteNoHit(["/user/1"], events);
  }
}
