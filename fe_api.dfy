/** The frontend API client: the listener registry behind `subscribe` and the
  * WebSocket `onmessage` handler, the socket slot, and the URLs it builds. */
module Api {
  import opened Common
  import opened Decimal
  import MlService
  import WebSocketHub

  const DefaultApiUrl: string := "http://localhost:3001"

  /** `VITE_API_URL || 'http://localhost:3001'`, an unset variable being "". */
  function ApiUrl(env: string): (url: string)
    ensures env != "" ==> url == env
    ensures env == "" ==> url == DefaultApiUrl
  {
    if env != "" then env else DefaultApiUrl
  }

  // ---------------------------------------------------------------------
  // Listener registry
  // ---------------------------------------------------------------------

  /** A listener function, compared by identity as a JavaScript `Set` does. */
  datatype Callback = Callback(id: nat)

  /** A parsed frame: the `type` that selects the listeners and its `data`. */
  datatype Incoming = Incoming(kind: string, data: string)

  /** One listener call, `callback(message.data)`. */
  datatype Invocation = Invocation(callback: Callback, data: string)

  /** What `subscribe` returns: the closure that deletes `callback` from `event`'s set. */
  datatype Unsubscriber = Unsubscriber(event: string, callback: Callback)

  type Registry = map<string, seq<Callback>>

  /** Every set holds each callback once; a sequence keeps the set's insertion order. */
  predicate WellFormed(listeners: Registry) {
    forall e :: e in listeners ==> NoDuplicates(listeners[e])
  }

  /** `Set.prototype.add`: appended when absent, otherwise unchanged. */
  function SetAdd(s: seq<Callback>, c: Callback): (r: seq<Callback>)
    ensures NoDuplicates(s) ==> NoDuplicates(r)
    ensures c in r && (forall x :: x in s ==> x in r) && (forall x :: x in r ==> x == c || x in s)
  {
    if c in s then s else s + [c]
  }

  /** `Set.prototype.delete`. */
  function SetDelete(s: seq<Callback>, c: Callback): (r: seq<Callback>)
    ensures c !in r
    ensures forall x :: x != c ==> (x in r <==> x in s)
    ensures NoDuplicates(s) ==> NoDuplicates(r)
    ensures c !in s ==> r == s
    ensures |r| <= |s|
  {
    if |s| == 0 then []
    else if s[0] == c then SetDelete(s[1..], c)
    else
      var tail := SetDelete(s[1..], c);
      assert NoDuplicates(s) ==> s[0] !in s[1..] && s[0] !in tail && NoDuplicates(s[1..]);
      [s[0]] + tail
  }

  /** The registry after `subscribe(event, callback)`. */
  function Subscribed(listeners: Registry, event: string, c: Callback): (r: Registry)
    ensures r.Keys == listeners.Keys + {event}
    ensures forall e :: e in listeners && e != event ==> r[e] == listeners[e]
    ensures WellFormed(listeners) ==> WellFormed(r)
    ensures c in r[event]
    ensures forall x :: x in r[event] <==> x == c || (event in listeners && x in listeners[event])
  {
    listeners[event := if event in listeners then SetAdd(listeners[event], c) else [c]]
  }

  /** The registry after the unsubscribe closure runs; the emptied set stays. */
  function Unsubscribed(listeners: Registry, event: string, c: Callback): (r: Registry)
    ensures r.Keys == listeners.Keys
    ensures forall e :: e in listeners && e != event ==> r[e] == listeners[e]
    ensures WellFormed(listeners) ==> WellFormed(r)
    ensures event in r ==> c !in r[event]
    ensures event in r ==> forall x :: x != c ==> (x in r[event] <==> x in listeners[event])
  {
    if event in listeners then listeners[event := SetDelete(listeners[event], c)] else listeners
  }

  /** Subscribing the same callback twice leaves one entry. */
  lemma SubscribeIdempotent(listeners: Registry, event: string, c: Callback)
    ensures Subscribed(Subscribed(listeners, event, c), event, c) == Subscribed(listeners, event, c)
  {
  }

  /** Calling the unsubscribe closure again changes nothing. */
  lemma UnsubscribeIdempotent(listeners: Registry, event: string, c: Callback)
    ensures Unsubscribed(Unsubscribed(listeners, event, c), event, c) == Unsubscribed(listeners, event, c)
  {
  }

  /** Unsubscribing a fresh subscription restores the registry, except that a set
    * created by the subscription remains, empty. */
  lemma UnsubscribeUndoesSubscribe(listeners: Registry, event: string, c: Callback)
    requires event in listeners ==> c !in listeners[event]
    ensures
      var back := Unsubscribed(Subscribed(listeners, event, c), event, c);
      back == if event in listeners then listeners else listeners[event := []]
  {
    if event in listeners {
      var s := listeners[event];
      assert SetAdd(s, c) == s + [c];
      DeleteAppended(s, c);
      assert Subscribed(listeners, event, c)[event := s] == listeners;
    } else {
      assert SetDelete([c], c) == [];
    }
  }

  lemma {:induction false} DeleteAppended(s: seq<Callback>, c: Callback)
    requires c !in s
    ensures SetDelete(s + [c], c) == s
    decreases |s|
  {
    if |s| == 0 {
      assert SetDelete([c], c) == SetDelete([], c);
    } else {
      assert (s + [c])[1..] == s[1..] + [c];
      DeleteAppended(s[1..], c);
    }
  }

  /** The calls `onmessage` makes for one frame, in the set's order. */
  function Dispatch(listeners: Registry, message: Incoming): (calls: seq<Invocation>)
    ensures message.kind !in listeners ==> calls == []
    ensures message.kind in listeners ==> |calls| == |listeners[message.kind]|
    ensures forall i :: 0 <= i < |calls| ==> calls[i].data == message.data
  {
    if message.kind in listeners then
      var set_ := listeners[message.kind];
      seq(|set_|, i requires 0 <= i < |set_| => Invocation(set_[i], message.data))
    else []
  }

  /** Each listener registered for the frame's type is called exactly once, and no
    * other callback is called. */
  lemma DispatchCallsEachListenerOnce(listeners: Registry, message: Incoming, c: Callback)
    requires WellFormed(listeners)
    ensures var calls := Dispatch(listeners, message);
      (message.kind in listeners && c in listeners[message.kind]) <==> Invocation(c, message.data) in calls
    ensures var calls := Dispatch(listeners, message);
      forall i, j :: 0 <= i < j < |calls| ==> calls[i].callback != calls[j].callback
  {
    var calls := Dispatch(listeners, message);
    if message.kind in listeners {
      var s := listeners[message.kind];
      assert forall i :: 0 <= i < |calls| ==> calls[i].callback == s[i];
      if c in s {
        var k :| 0 <= k < |s| && s[k] == c;
        assert calls[k] == Invocation(c, message.data);
      }
    }
  }

  /** The socket slot `ws`: its URL and its state. */
  datatype Socket = Socket(url: string, readyState: WebSocketHub.ReadyState)

  /** The `ApiService` instance. The listeners actually run are recorded in `invoked`. */
  class ApiService {
    const apiUrl: string
    var ws: Option<Socket>
    var listeners: Registry
    var invoked: seq<Invocation>

    ghost predicate Valid()
      reads this
    {
      WellFormed(listeners)
    }

    constructor (apiUrl: string)
      ensures this.apiUrl == apiUrl && ws == None && listeners == map[] && invoked == []
      ensures Valid()
    {
      this.apiUrl := apiUrl;
      ws := None;
      listeners := map[];
      invoked := [];
    }

    /** `subscribe(event, callback)`. */
    method Subscribe(event: string, callback: Callback) returns (unsubscribe: Unsubscriber)
      requires Valid()
      modifies this`listeners
      ensures Valid()
      ensures listeners == Subscribed(old(listeners), event, callback)
      ensures unsubscribe == Unsubscriber(event, callback)
    {
      ghost var before := listeners;
      if event !in listeners {
        listeners := listeners[event := []];
        assert SetAdd([], callback) == [callback];
      }
      listeners := listeners[event := SetAdd(listeners[event], callback)];
      assert listeners == Subscribed(before, event, callback);
      unsubscribe := Unsubscriber(event, callback);
    }

    /** Running the closure `subscribe` returned. */
    method Unsubscribe(unsubscribe: Unsubscriber)
      requires Valid()
      modifies this`listeners
      ensures Valid()
      ensures listeners == Unsubscribed(old(listeners), unsubscribe.event, unsubscribe.callback)
    {
      if unsubscribe.event in listeners {
        listeners := listeners[unsubscribe.event := SetDelete(listeners[unsubscribe.event], unsubscribe.callback)];
      }
    }

    /** The `onmessage` handler, on an already parsed frame. */
    method OnMessage(message: Incoming)
      modifies this`invoked
      ensures invoked == old(invoked) + Dispatch(listeners, message)
    {
      if message.kind in listeners {
        var set_ := listeners[message.kind];
        var i := 0;
        while i < |set_|
          invariant 0 <= i <= |set_|
          invariant invoked == old(invoked) + Dispatch(listeners, message)[..i]
        {
          invoked := invoked + [Invocation(set_[i], message.data)];
          i := i + 1;
        }
        assert Dispatch(listeners, message)[..i] == Dispatch(listeners, message);
      }
    }

    /** `connectWebSocket`: nothing while the socket is open, otherwise a new socket. */
    method ConnectWebSocket()
      modifies this`ws
      ensures old(ws).Some? && old(ws).value.readyState == WebSocketHub.Open ==> ws == old(ws)
      ensures !(old(ws).Some? && old(ws).value.readyState == WebSocketHub.Open)
        ==> ws == Some(Socket(WebSocketUrl(apiUrl), WebSocketHub.Connecting))
    {
      if ws.Some? && ws.value.readyState == WebSocketHub.Open {
        return;
      }
      ws := Some(Socket(WebSocketUrl(apiUrl), WebSocketHub.Connecting));
    }

    /** `disconnect`: the socket is closed and dropped. */
    method Disconnect()
      modifies this`ws
      ensures ws == None
    {
      ws := None;
    }
  }

  // ---------------------------------------------------------------------
  // URLs
  // ---------------------------------------------------------------------

  predicate OccursAt(s: string, pattern: string, j: nat) {
    j + |pattern| <= |s| && s[j..j + |pattern|] == pattern
  }

  /** The first index at which `pattern` occurs in `s`, if any. */
  function FindFirst(s: string, pattern: string, from: nat): (k: Option<nat>)
    requires from <= |s|
    ensures k.Some? ==> from <= k.value && OccursAt(s, pattern, k.value)
    ensures k.Some? ==> forall j: nat :: from <= j < k.value ==> !OccursAt(s, pattern, j)
    ensures k.None? ==> forall j: nat :: from <= j ==> !OccursAt(s, pattern, j)
    decreases |s| - from
  {
    if from + |pattern| > |s| then None
    else if OccursAt(s, pattern, from) then Some(from)
    else FindFirst(s, pattern, from + 1)
  }

  /** `String.prototype.replace` with a string pattern: the first occurrence only. */
  function ReplaceFirst(s: string, pattern: string, replacement: string): string {
    match FindFirst(s, pattern, 0)
    case None => s
    case Some(k) => s[..k] + replacement + s[k + |pattern|..]
  }

  /** `API_URL.replace('http', 'ws') + '/ws'`. */
  function WebSocketUrl(apiUrl: string): (url: string)
    ensures |url| >= 3 && url[|url| - 3..] == "/ws"
  {
    ReplaceFirst(apiUrl, "http", "ws") + "/ws"
  }

  /** A URL that starts with `http` keeps everything after those four letters, so
    * `http://` becomes `ws://` and `https://` becomes `wss://`. */
  lemma WebSocketUrlOfHttp(apiUrl: string)
    requires StartsWith(apiUrl, "http")
    ensures WebSocketUrl(apiUrl) == "ws" + apiUrl[4..] + "/ws"
    ensures StartsWith(apiUrl, "https") ==> StartsWith(WebSocketUrl(apiUrl), "wss")
  {
    assert OccursAt(apiUrl, "http", 0);
    assert FindFirst(apiUrl, "http", 0) == Some(0);
    var url := WebSocketUrl(apiUrl);
    assert url == "ws" + apiUrl[4..] + "/ws";
    if StartsWith(apiUrl, "https") {
      assert apiUrl[..5][4] == 's';
      assert url[..3] == "wss";
    }
  }

  /** Without any `http` in it the URL is kept whole. */
  lemma WebSocketUrlWithoutHttp(apiUrl: string)
    requires forall j: nat :: !OccursAt(apiUrl, "http", j)
    ensures WebSocketUrl(apiUrl) == apiUrl + "/ws"
  {
  }

  lemma DefaultWebSocketUrl()
    ensures WebSocketUrl(DefaultApiUrl) == "ws://localhost:3001/ws"
  {
    assert StartsWith(DefaultApiUrl, "http");
    WebSocketUrlOfHttp(DefaultApiUrl);
  }

  /** `getForecast`'s URL, which puts the node id in the path unencoded. */
  function ForecastUrl(apiUrl: string, nodeId: string, horizon: int): (url: string)
    ensures StartsWith(url, apiUrl + "/api/forecast")
  {
    if nodeId != "" then apiUrl + "/api/forecast/" + nodeId + "?horizon=" + IntToString(horizon)
    else apiUrl + "/api/forecast?horizon=" + IntToString(horizon)
  }

  /** The browser asks the backend the same path the backend asks the ML service,
    * under `/api`, so node id and horizon are read back unchanged. */
  lemma ForecastUrlMatchesBackend(apiUrl: string, nodeId: string, horizon: int)
    requires '?' !in nodeId
    ensures ForecastUrl(apiUrl, nodeId, horizon) == MlService.ForecastUrl(apiUrl + "/api", nodeId, horizon)
    ensures var url := ForecastUrl(apiUrl, nodeId, horizon);
      MlService.ParseForecastPath(url[|apiUrl + "/api"|..]) == Some(MlService.ForecastTarget(nodeId, horizon))
  {
    ForecastUrlUnderApi(apiUrl, nodeId, horizon);
    MlService.ForecastUrlRoundTrip(apiUrl + "/api", nodeId, horizon);
  }

  lemma ForecastUrlUnderApi(apiUrl: string, nodeId: string, horizon: int)
    ensures ForecastUrl(apiUrl, nodeId, horizon) == MlService.ForecastUrl(apiUrl + "/api", nodeId, horizon)
  {
    var h := IntToString(horizon);
    if nodeId != "" {
      assert apiUrl + "/api/forecast/" + nodeId + "?horizon=" + h
          == (apiUrl + "/api") + "/forecast/" + nodeId + "?horizon=" + h;
    } else {
      assert apiUrl + "/api/forecast?horizon=" + h == (apiUrl + "/api") + "/forecast?horizon=" + h;
    }
  }

  /** `getAnomalies`' URL. */
  function AnomaliesUrl(apiUrl: string, hours: int): (url: string)
    ensures StartsWith(url, apiUrl + "/api/anomalies?hours=")
    ensures ParseInt(url[|apiUrl + "/api/anomalies?hours="|..]) == Some(hours)
  {
    PrefixThenRest(apiUrl + "/api/anomalies?hours=", IntToString(hours));
    ParseIntToString(hours);
    apiUrl + "/api/anomalies?hours=" + IntToString(hours)
  }

  // application/x-www-form-urlencoded, as URLSearchParams serialises

  /** The bytes left as they are: ASCII letters, digits and `*-._`. */
  predicate Unreserved(c: char) {
    ('a' <= c <= 'z') || ('A' <= c <= 'Z') || ('0' <= c <= '9') || c == '*' || c == '-' || c == '.' || c == '_'
  }

  function HexDigit(d: nat): (c: char)
    requires d < 16
    ensures ('0' <= c <= '9') || ('A' <= c <= 'F')
  {
    if d < 10 then (48 + d) as char else (55 + d) as char
  }

  function HexValue(c: char): nat {
    if '0' <= c <= '9' then c as nat - 48
    else if 'A' <= c <= 'F' then c as nat - 55
    else if 'a' <= c <= 'f' then c as nat - 87
    else 0
  }

  /** `%XX` with upper-case hex digits. */
  function PercentByte(b: nat): (s: string)
    requires b < 256
    ensures |s| == 3 && s[0] == '%'
  {
    ['%', HexDigit(b / 16), HexDigit(b % 16)]
  }

  /** The UTF-8 bytes of one code point. */
  function Utf8(c: char): (bytes: seq<nat>)
    ensures 1 <= |bytes| <= 4 && forall i :: 0 <= i < |bytes| ==> bytes[i] < 256
    ensures c as int < 0x80 <==> bytes == [c as nat]
  {
    var cp := c as int;
    if cp < 0x80 then [cp]
    else if cp < 0x800 then [0xC0 + cp / 0x40, 0x80 + cp % 0x40]
    else if cp < 0x10000 then [0xE0 + cp / 0x1000, 0x80 + (cp / 0x40) % 0x40, 0x80 + cp % 0x40]
    else [0xF0 + cp / 0x40000, 0x80 + (cp / 0x1000) % 0x40, 0x80 + (cp / 0x40) % 0x40, 0x80 + cp % 0x40]
  }

  function PercentBytes(bytes: seq<nat>): string
    requires forall i :: 0 <= i < |bytes| ==> bytes[i] < 256
  {
    if |bytes| == 0 then "" else PercentByte(bytes[0]) + PercentBytes(bytes[1..])
  }

  function EncodeChar(c: char): string {
    if Unreserved(c) then [c] else if c == ' ' then "+" else PercentBytes(Utf8(c))
  }

  /** The form encoding of a name or a value. */
  function FormEncode(s: string): (e: string)
    ensures |e| >= |s|
    ensures e == "" <==> s == ""
  {
    if |s| == 0 then "" else EncodeChar(s[0]) + FormEncode(s[1..])
  }

  /** Characters the encoding can emit. */
  predicate FormSafe(c: char) {
    Unreserved(c) || c == '+' || c == '%'
  }

  lemma {:induction false} PercentBytesSafe(bytes: seq<nat>)
    requires forall i :: 0 <= i < |bytes| ==> bytes[i] < 256
    ensures forall i :: 0 <= i < |PercentBytes(bytes)| ==> FormSafe(PercentBytes(bytes)[i])
    decreases |bytes|
  {
    if |bytes| > 0 {
      PercentBytesSafe(bytes[1..]);
    }
  }

  /** What the encoding emits never contains `&`, `=` or a space, so the query
    * splits back into its pairs. */
  lemma {:induction false} FormEncodeSafe(s: string)
    ensures forall i :: 0 <= i < |FormEncode(s)| ==> FormSafe(FormEncode(s)[i])
    decreases |s|
  {
    if |s| > 0 {
      if !Unreserved(s[0]) && s[0] != ' ' {
        PercentBytesSafe(Utf8(s[0]));
      }
      FormEncodeSafe(s[1..]);
    }
  }

  /** The form decoding of ASCII text: `+` is a space, `%XX` a byte. */
  function FormDecode(s: string): string
    decreases |s|
  {
    if |s| == 0 then ""
    else if s[0] == '+' then " " + FormDecode(s[1..])
    else if s[0] == '%' && |s| >= 3 then [(HexValue(s[1]) * 16 + HexValue(s[2])) as char] + FormDecode(s[3..])
    else [s[0]] + FormDecode(s[1..])
  }

  predicate Ascii(s: string) {
    forall i :: 0 <= i < |s| ==> s[i] as int < 0x80
  }

  /** Decoding undoes the encoding on ASCII text. */
  lemma {:induction false} FormRoundTrip(s: string)
    requires Ascii(s)
    ensures FormDecode(FormEncode(s)) == s
    decreases |s|
  {
    if |s| > 0 {
      var c := s[0];
      var head := EncodeChar(c);
      assert FormEncode(s) == head + FormEncode(s[1..]);
      FormRoundTrip(s[1..]);
      if Unreserved(c) {
        assert c != '+' && c != '%';
      } else if c == ' ' {
      } else {
        var b := c as nat;
        assert Utf8(c) == [b];
        assert head == PercentByte(b) + "";
        assert HexValue(HexDigit(b / 16)) == b / 16;
        assert HexValue(HexDigit(b % 16)) == b % 16;
      }
      assert (head + FormEncode(s[1..]))[|head|..] == FormEncode(s[1..]);
    }
  }

  /** Text made only of unreserved characters, such as the configured node ids, is
    * sent as it is. */
  lemma {:induction false} FormEncodeUnreserved(s: string)
    requires forall i :: 0 <= i < |s| ==> Unreserved(s[i])
    ensures FormEncode(s) == s
    decreases |s|
  {
    if |s| > 0 {
      FormEncodeUnreserved(s[1..]);
    }
  }

  /** A name=value pair of a query. */
  datatype Pair = Pair(name: string, value: string)

  /** One serialised pair, `name=value`, both form-encoded. */
  function Field(p: Pair): string {
    FormEncode(p.name) + "=" + FormEncode(p.value)
  }

  function Fields(params: seq<Pair>): (fields: seq<string>)
    ensures |fields| == |params| && forall i :: 0 <= i < |params| ==> fields[i] == Field(params[i])
  {
    seq(|params|, i requires 0 <= i < |params| => Field(params[i]))
  }

  /** `URLSearchParams.prototype.toString`: the pairs in order, joined by `&`. */
  function Serialize(params: seq<Pair>): (query: string)
    ensures query == "" <==> params == []
  {
    Join(Fields(params), "&")
  }

  /** The `URLSearchParams` of `getHistory`: `set('node_id', …)` only for a truthy id,
    * then `set('hours', …)`. */
  function HistoryParams(nodeId: string, hours: int): (params: seq<Pair>)
    ensures |params| == if nodeId != "" then 2 else 1
    ensures params[|params| - 1] == Pair("hours", IntToString(hours))
    ensures params[0].name == "node_id" <==> nodeId != ""
    ensures nodeId != "" ==> params[0].value == nodeId
  {
    (if nodeId != "" then [Pair("node_id", nodeId)] else []) + [Pair("hours", IntToString(hours))]
  }

  /** `getHistory`'s URL. */
  function HistoryUrl(apiUrl: string, nodeId: string, hours: int): (url: string)
    ensures StartsWith(url, apiUrl + "/api/history?")
    ensures url[|apiUrl + "/api/history?"|..] == Serialize(HistoryParams(nodeId, hours))
  {
    PrefixThenRest(apiUrl + "/api/history?", Serialize(HistoryParams(nodeId, hours)));
    apiUrl + "/api/history?" + Serialize(HistoryParams(nodeId, hours))
  }

  /** The query split at `&`. */
  function SplitAmp(s: string): seq<string>
    decreases |s|
  {
    var k := IndexOfChar(s, '&');
    if k < 0 then [s] else [s[..k]] + SplitAmp(s[k + 1..])
  }

  /** A field split at its first `=`. */
  function SplitPair(field: string): Pair {
    var k := IndexOfChar(field, '=');
    if k < 0 then Pair(field, "") else Pair(field[..k], field[k + 1..])
  }

  /** Reading a query back: split, then decode both halves of every pair. */
  function ParseQuery(query: string): (params: seq<Pair>) {
    var fields := SplitAmp(query);
    seq(|fields|, i requires 0 <= i < |fields| =>
      Pair(FormDecode(SplitPair(fields[i]).name), FormDecode(SplitPair(fields[i]).value)))
  }

  lemma {:induction false} IndexOfSeparator(first: string, c: char, rest: string)
    requires c !in first
    ensures IndexOfChar(first + [c] + rest, c) == |first|
    decreases |first|
  {
    if |first| > 0 {
      assert (first + [c] + rest)[1..] == first[1..] + [c] + rest;
      IndexOfSeparator(first[1..], c, rest);
    }
  }

  lemma SplitPairOf(name: string, value: string)
    requires '=' !in name
    ensures SplitPair(name + "=" + value) == Pair(name, value)
  {
    IndexOfSeparator(name, '=', value);
    PrefixThenRest(name + "=", value);
    PrefixThenRest(name, "=" + value);
    assert name + "=" + value == name + ("=" + value);
  }

  lemma SplitAmpOf(first: string, rest: string)
    requires '&' !in first
    ensures SplitAmp(first + "&" + rest) == [first] + SplitAmp(rest)
  {
    IndexOfSeparator(first, '&', rest);
    PrefixThenRest(first + "&", rest);
    PrefixThenRest(first, "&" + rest);
    assert first + "&" + rest == first + ("&" + rest);
  }

  lemma {:induction false} SplitAmpJoin(fields: seq<string>)
    requires |fields| >= 1
    requires forall i :: 0 <= i < |fields| ==> '&' !in fields[i]
    ensures SplitAmp(Join(fields, "&")) == fields
    decreases |fields|
  {
    if |fields| == 1 {
      assert Join(fields, "&") == fields[0];
    } else {
      assert Join(fields, "&") == fields[0] + "&" + Join(fields[1..], "&");
      SplitAmpOf(fields[0], Join(fields[1..], "&"));
      SplitAmpJoin(fields[1..]);
      assert fields == [fields[0]] + fields[1..];
    }
  }

  lemma FormEncodeHas(s: string, c: char)
    requires !FormSafe(c)
    ensures c !in FormEncode(s)
  {
    FormEncodeSafe(s);
  }

  lemma NotInField(name: string, value: string, c: char)
    requires c !in name && c !in value && c != '='
    ensures c !in name + "=" + value
  {
  }

  /** A serialised pair holds no `&`, and its first `=` is the one between name and value. */
  lemma FieldSplits(p: Pair)
    ensures '&' !in Field(p)
    ensures SplitPair(Field(p)) == Pair(FormEncode(p.name), FormEncode(p.value))
  {
    FormEncodeHas(p.name, '&');
    FormEncodeHas(p.value, '&');
    FormEncodeHas(p.name, '=');
    NotInField(FormEncode(p.name), FormEncode(p.value), '&');
    SplitPairOf(FormEncode(p.name), FormEncode(p.value));
  }

  /** Every serialised query splits back into its encoded pairs, in order, whatever
    * the characters of the names and values. */
  lemma SerializeSplits(params: seq<Pair>)
    requires |params| >= 1
    ensures |SplitAmp(Serialize(params))| == |params|
    ensures forall i :: 0 <= i < |params| ==>
      SplitPair(SplitAmp(Serialize(params))[i]) == Pair(FormEncode(params[i].name), FormEncode(params[i].value))
  {
    var fields := Fields(params);
    forall i | 0 <= i < |fields| ensures '&' !in fields[i] {
      FieldSplits(params[i]);
    }
    SplitAmpJoin(fields);
    forall i | 0 <= i < |params|
      ensures SplitPair(fields[i]) == Pair(FormEncode(params[i].name), FormEncode(params[i].value))
    {
      FieldSplits(params[i]);
    }
  }

  /** The name read back from the `i`-th field of a serialised query. */
  lemma FieldNameAt(params: seq<Pair>, i: nat)
    requires i < |params|
    ensures |SplitAmp(Serialize(params))| == |params|
    ensures SplitPair(SplitAmp(Serialize(params))[i]).name == FormEncode(params[i].name)
  {
    SerializeSplits(params);
  }

  /** Parsing undoes serialising for ASCII names and values. */
  lemma QueryRoundTrip(params: seq<Pair>)
    requires |params| >= 1
    requires forall i :: 0 <= i < |params| ==> Ascii(params[i].name) && Ascii(params[i].value)
    ensures ParseQuery(Serialize(params)) == params
  {
    SerializeSplits(params);
    forall i | 0 <= i < |params|
      ensures FormDecode(FormEncode(params[i].name)) == params[i].name
      ensures FormDecode(FormEncode(params[i].value)) == params[i].value
    {
      FormRoundTrip(params[i].name);
      FormRoundTrip(params[i].value);
    }
  }

  /** Both parameter names of the history query are sent as they are. */
  lemma NamesEncodeUnchanged()
    ensures FormEncode("hours") == "hours" && FormEncode("node_id") == "node_id"
  {
    FormEncodeUnreserved("hours");
    FormEncodeUnreserved("node_id");
  }

  /** The history query names `node_id` exactly when the id is truthy and always
    * names `hours`, last. */
  lemma HistoryQueryNames(nodeId: string, hours: int)
    ensures var fields := SplitAmp(Serialize(HistoryParams(nodeId, hours)));
      |fields| == (if nodeId != "" then 2 else 1)
      && SplitPair(fields[|fields| - 1]).name == "hours"
      && (SplitPair(fields[0]).name == "node_id" <==> nodeId != "")
  {
    var params := HistoryParams(nodeId, hours);
    var fields := SplitAmp(Serialize(params));
    NamesEncodeUnchanged();
    FieldNameAt(params, |params| - 1);
    assert SplitPair(fields[|fields| - 1]).name == "hours";
    if nodeId != "" {
      FieldNameAt(params, 0);
      assert SplitPair(fields[0]).name == "node_id";
    } else {
      assert |fields| == 1;
    }
  }

  /** With an ASCII id, both values are read back from the history query. */
  lemma HistoryQueryRoundTrip(nodeId: string, hours: int)
    requires Ascii(nodeId)
    ensures ParseQuery(Serialize(HistoryParams(nodeId, hours))) == HistoryParams(nodeId, hours)
  {
    var digits := IntToString(hours);
    assert Ascii(digits) by {
      forall i | 0 <= i < |digits| ensures digits[i] as int < 0x80 {
        assert IsDigit(digits[i]) || digits[i] == '-';
      }
    }
    assert Ascii("hours") && Ascii("node_id");
    QueryRoundTrip(HistoryParams(nodeId, hours));
  }
}
