/** The bounded client-log buffer of the front end: an ordered list of log
    records with a capacity. Appending pushes a record at the end and, when the
    list then exceeds the capacity, keeps only its newest records; clearing
    empties it; reading returns it.
 */
module ClientLogs {

  /** The `type` tag of a record: the traffic it was observed on. */
  datatype LogType = WebSocket | Api

  /** The direction of a websocket message, `'in'` or `'out'`. */
  datatype Direction = In | Out

  /** The untyped `details` payload: either `null` or some value. */
  datatype Details<T> = Null | Value(value: T)

  /** One log record. The timestamp is the clock reading taken at append time,
      passed in here as an opaque string. */
  datatype ClientLog<T> = ClientLog(timestamp: string, logType: LogType, message: string, details: Details<T>)

  /** The capacity the service is created with. */
  const DefaultMaxLogs: nat := 1000

  const InArrow: char := '\U{2190}'
  const OutArrow: char := '\U{2192}'

  /** Reference definition of trimming: drop the oldest record, one at a time,
      until at most `cap` records remain. */
  function DropOldest<X>(s: seq<X>, cap: nat): seq<X>
    decreases |s|
  {
    if |s| <= cap then s else DropOldest(s[1..], cap)
  }

  /** Trimming keeps `min(|s|, cap)` records, and they are the final segment
      of `s`, in their original order. */
  lemma {:induction false} DropOldestIsSuffix<X>(s: seq<X>, cap: nat)
    ensures |s| <= cap ==> DropOldest(s, cap) == s
    ensures |s| > cap ==> DropOldest(s, cap) == s[|s| - cap..]
    decreases |s|
  {
    if |s| > cap {
      var t := s[1..];
      DropOldestIsSuffix(t, cap);
      if |t| > cap {
        assert DropOldest(t, cap) == t[|t| - cap..];
        assert t[|t| - cap..] == s[|s| - cap..];
      } else {
        assert t == s[|s| - cap..];
      }
    }
  }

  /** `Array.prototype.slice(start)` of JavaScript: a negative start counts from
      the end and is clamped at 0; a start past the end gives the empty list. */
  function SliceFrom<X>(s: seq<X>, start: int): seq<X>
  {
    var k := if start < 0 then (if |s| + start < 0 then 0 else |s| + start)
             else (if start > |s| then |s| else start);
    s[k..]
  }

  /** For a positive capacity, `slice(-cap)` is exactly the trim that drops
      the oldest records until `cap` remain. */
  lemma {:induction false} SliceFromNegIsDropOldest<X>(s: seq<X>, cap: nat)
    requires cap > 0
    ensures SliceFrom(s, -(cap as int)) == DropOldest(s, cap)
  {
    if |s| > cap {
      SliceFromNegIsDropOldest(s[1..], cap);
      assert s[1..][|s| - 1 - cap..] == s[|s| - cap..];
    }
  }

  /** Trimming after every append gives the same list as trimming once at the
      end: the kept records depend only on everything appended. */
  lemma {:induction false} DropOldestSnoc<X>(s: seq<X>, e: X, cap: nat)
    requires cap > 0
    ensures DropOldest(DropOldest(s, cap) + [e], cap) == DropOldest(s + [e], cap)
  {
    if |s| > cap {
      var t := s + [e];
      assert t[1..] == s[1..] + [e];
      calc {
        DropOldest(DropOldest(s, cap) + [e], cap);
        DropOldest(DropOldest(s[1..], cap) + [e], cap);
        { DropOldestSnoc(s[1..], e, cap); }
        DropOldest(s[1..] + [e], cap);
        DropOldest(t, cap);
      }
    }
  }

  /** When the list is within capacity, an append trims at most one record,
      the oldest, and the new record is always kept, last. */
  lemma AppendTrimsAtMostOne<X>(s: seq<X>, e: X, cap: nat)
    requires cap > 0 && |s| <= cap
    ensures |s| < cap ==> DropOldest(s + [e], cap) == s + [e]
    ensures |s| == cap ==> DropOldest(s + [e], cap) == s[1..] + [e]
    ensures var r := DropOldest(s + [e], cap); |r| > 0 && r[|r| - 1] == e
  {
    if |s| == cap {
      assert (s + [e])[1..] == s[1..] + [e];
    }
  }

  /** The message of a websocket record: an arrow for the direction, a space,
      then the event type. */
  function WebSocketMessage(direction: Direction, eventType: string): (r: string)
    ensures |r| == |eventType| + 2
    ensures r[0] == InArrow <==> direction == In
    ensures r[0] == OutArrow <==> direction == Out
    ensures r[1] == ' ' && r[2..] == eventType
  {
    [if direction == In then InArrow else OutArrow] + " " + eventType
  }

  /** The two arrows are distinct, so the message determines both the
      direction and the event type. */
  lemma WebSocketMessageInjective(d1: Direction, t1: string, d2: Direction, t2: string)
    requires WebSocketMessage(d1, t1) == WebSocketMessage(d2, t2)
    ensures d1 == d2 && t1 == t2
  {
    var m := WebSocketMessage(d1, t1);
    assert m[2..] == t1 && m[2..] == t2;
  }

  /** The message of an API record: the HTTP method, a space, the URL. */
  function ApiMessage(httpMethod: string, url: string): (r: string)
    ensures |r| == |httpMethod| + 1 + |url|
    ensures r[..|httpMethod|] == httpMethod
    ensures r[|httpMethod|] == ' '
    ensures r[|httpMethod| + 1..] == url
  {
    httpMethod + " " + url
  }

  /** The log service. `logs` is the list the UI reads; `History` is every
      record appended since creation or the last `Clear`. */
  class ClientLogsService<T> {
    var logs: seq<ClientLog<T>>
    var maxLogs: nat
    ghost var History: seq<ClientLog<T>>

    /** The list is the newest `maxLogs` records of the history, in order. */
    ghost predicate Valid()
      reads this
    {
      maxLogs > 0 && |logs| <= maxLogs && logs == DropOldest(History, maxLogs)
    }

    /** The service as the application creates it: empty, capacity 1000. */
    constructor()
      ensures Valid() && logs == [] && History == [] && maxLogs == DefaultMaxLogs
    {
      logs := [];
      maxLogs := DefaultMaxLogs;
      History := [];
    }

    /** An empty service with another positive capacity. */
    constructor WithCapacity(cap: nat)
      requires cap > 0
      ensures Valid() && logs == [] && History == [] && maxLogs == cap
    {
      logs := [];
      maxLogs := cap;
      History := [];
    }

    /** Push a record at the end; if the list then holds more than `maxLogs`
        records, keep only the last `maxLogs` of them. */
    method AddLog(timestamp: string, logType: LogType, message: string, details: Details<T> := Null)
      requires Valid()
      modifies this
      ensures Valid() && maxLogs == old(maxLogs)
      ensures History == old(History) + [ClientLog(timestamp, logType, message, details)]
      ensures logs == DropOldest(old(logs) + [ClientLog(timestamp, logType, message, details)], maxLogs)
      ensures |old(logs)| < maxLogs ==> logs == old(logs) + [ClientLog(timestamp, logType, message, details)]
      ensures |old(logs)| == maxLogs ==> logs == old(logs)[1..] + [ClientLog(timestamp, logType, message, details)]
      ensures 0 < |logs| <= maxLogs && logs[|logs| - 1] == ClientLog(timestamp, logType, message, details)
    {
      var entry := ClientLog(timestamp, logType, message, details);
      ghost var pushed := logs + [entry];
      AppendTrimsAtMostOne(logs, entry, maxLogs);
      DropOldestSnoc(History, entry, maxLogs);
      logs := logs + [entry];
      if |logs| > maxLogs {
        SliceFromNegIsDropOldest(logs, maxLogs);
        logs := SliceFrom(logs, -(maxLogs as int));
      }
      assert logs == DropOldest(pushed, maxLogs);
      History := History + [entry];
    }

    /** Log a websocket message in the given direction. */
    method LogWebSocket(timestamp: string, direction: Direction, eventType: string, data: Details<T>)
      requires Valid()
      modifies this
      ensures Valid() && maxLogs == old(maxLogs)
      ensures History == old(History) + [ClientLog(timestamp, WebSocket, WebSocketMessage(direction, eventType), data)]
      ensures logs == DropOldest(old(logs) + [ClientLog(timestamp, WebSocket, WebSocketMessage(direction, eventType), data)], maxLogs)
      ensures |old(logs)| < maxLogs ==> logs == old(logs) + [ClientLog(timestamp, WebSocket, WebSocketMessage(direction, eventType), data)]
      ensures |old(logs)| == maxLogs ==> logs == old(logs)[1..] + [ClientLog(timestamp, WebSocket, WebSocketMessage(direction, eventType), data)]
      ensures 0 < |logs| <= maxLogs && logs[|logs| - 1] == ClientLog(timestamp, WebSocket, WebSocketMessage(direction, eventType), data)
    {
      AddLog(timestamp, WebSocket, WebSocketMessage(direction, eventType), data);
    }

    /** Log an API request; the payload defaults to `null`. */
    method LogApiRequest(timestamp: string, httpMethod: string, url: string, data: Details<T> := Null)
      requires Valid()
      modifies this
      ensures Valid() && maxLogs == old(maxLogs)
      ensures History == old(History) + [ClientLog(timestamp, Api, ApiMessage(httpMethod, url), data)]
      ensures logs == DropOldest(old(logs) + [ClientLog(timestamp, Api, ApiMessage(httpMethod, url), data)], maxLogs)
      ensures |old(logs)| < maxLogs ==> logs == old(logs) + [ClientLog(timestamp, Api, ApiMessage(httpMethod, url), data)]
      ensures |old(logs)| == maxLogs ==> logs == old(logs)[1..] + [ClientLog(timestamp, Api, ApiMessage(httpMethod, url), data)]
      ensures 0 < |logs| <= maxLogs && logs[|logs| - 1] == ClientLog(timestamp, Api, ApiMessage(httpMethod, url), data)
    {
      AddLog(timestamp, Api, ApiMessage(httpMethod, url), data);
    }

    /** Empty the list, whatever it held. */
    method Clear()
      requires Valid()
      modifies this
      ensures Valid() && maxLogs == old(maxLogs)
      ensures logs == [] && History == []
    {
      logs := [];
      History := [];
    }

    /** The current list, unchanged: the newest `maxLogs` records appended
        since the last `Clear`, in the order they were appended. */
    method GetLogs() returns (r: seq<ClientLog<T>>)
      requires Valid()
      ensures r == logs
      ensures |r| <= maxLogs && r == History[|History| - |r|..]
      ensures |History| >= maxLogs ==> |r| == maxLogs
    {
      r := logs;
      DropOldestIsSuffix(History, maxLogs);
    }
  }
}
