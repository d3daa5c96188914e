/** Callers of the log service: what a writer and a reader can conclude from
    the service's contracts alone. */
module ClientLogsScenarios {
  import opened ClientLogs

  /** With capacity 3, appending A, B, C, D keeps B, C, D. */
  method OverflowKeepsNewest() returns (r: seq<ClientLog<int>>)
    ensures r == [ClientLog("t2", Api, "B", Null), ClientLog("t3", Api, "C", Null), ClientLog("t4", Api, "D", Null)]
  {
    var service := new ClientLogsService<int>.WithCapacity(3);
    service.AddLog("t1", Api, "A");
    service.AddLog("t2", Api, "B");
    service.AddLog("t3", Api, "C");
    service.AddLog("t4", Api, "D");
    r := service.GetLogs();
  }

  /** A websocket record and an API record are both kept, each with its own
      type, in call order; an omitted payload is `null`. */
  method MixedTypesInCallOrder() returns (r: seq<ClientLog<int>>)
    ensures r == [ClientLog("t1", WebSocket, [InArrow] + " hello", Value(1)),
                  ClientLog("t2", Api, "GET /x", Null)]
  {
    var service := new ClientLogsService<int>();
    service.LogWebSocket("t1", In, "hello", Value(1));
    ghost var first := service.logs;
    assert first == [ClientLog("t1", WebSocket, WebSocketMessage(In, "hello"), Value(1))];
    service.LogApiRequest("t2", "GET", "/x");
    r := service.GetLogs();
    assert r == first + [ClientLog("t2", Api, ApiMessage("GET", "/x"), Null)];
    assert WebSocketMessage(In, "hello") == [InArrow] + " hello";
    assert ApiMessage("GET", "/x") == "GET /x";
  }

  /** An outgoing websocket message carries the outgoing arrow. */
  method OutgoingArrow() returns (r: seq<ClientLog<int>>)
    ensures |r| == 1 && r[0].logType == WebSocket && r[0].message == [OutArrow] + " ping"
    ensures r[0].details == Null
  {
    var service := new ClientLogsService<int>();
    service.LogWebSocket("t1", Out, "ping", Null);
    r := service.GetLogs();
  }

  /** Clearing empties the list, and clearing again leaves it empty; records
      logged afterwards start a fresh list. */
  method ClearThenLog() returns (afterClear: seq<ClientLog<int>>, afterLog: seq<ClientLog<int>>)
    ensures afterClear == []
    ensures afterLog == [ClientLog("t3", Api, "C", Null)]
  {
    var service := new ClientLogsService<int>.WithCapacity(2);
    service.AddLog("t1", Api, "A");
    service.AddLog("t2", Api, "B");
    service.Clear();
    service.Clear();
    afterClear := service.GetLogs();
    service.AddLog("t3", Api, "C");
    afterLog := service.GetLogs();
  }
}
