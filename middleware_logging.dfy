/**
 * The request-logging middleware: it wraps the ResponseWriter to remember the status the
 * handler sets (200 when it sets none), runs the handler, then logs one entry with the
 * request's method, path, status, duration and client address, at a level chosen by the status.
 */
module LoggingMiddleware {
  import opened Http
  import opened Logger

  /** The underlying http.ResponseWriter, reduced to the status codes written to it. */
  class BaseWriter {
    var written: seq<int>

    constructor ()
      ensures written == []
    {
      written := [];
    }

    method WriteHeader(code: int)
      modifies this
      ensures written == old(written) + [code]
    {
      written := written + [code];
    }
  }

  /** responseWriter: the wrapped writer and the last status code seen. */
  class ResponseWriter {
    const inner: BaseWriter
    var statusCode: int

    /** newResponseWriter: the status starts at 200. */
    constructor (w: BaseWriter)
      ensures inner == w && statusCode == StatusOK
    {
      inner := w;
      statusCode := StatusOK;
    }

    /** WriteHeader: remember the code and pass it on to the wrapped writer. */
    method WriteHeader(code: int)
      modifies this, inner
      ensures statusCode == code
      ensures inner.written == old(inner.written) + [code]
    {
      statusCode := code;
      inner.WriteHeader(code);
    }
  }

  /** The status the wrapper reports after the handler wrote `codes`: the last one, or 200. */
  function CapturedStatus(codes: seq<int>): (status: int)
    ensures |codes| == 0 ==> status == StatusOK
    ensures |codes| > 0 ==> status == codes[|codes| - 1]
  {
    if |codes| == 0 then StatusOK else codes[|codes| - 1]
  }

  /** The level and message for a status: server errors, client errors, everything else. */
  function LevelFor(status: int): (lm: (Level, string))
    ensures lm.0 == Error <==> status >= 500
    ensures lm.0 == Warn <==> 400 <= status < 500
    ensures lm.0 == Info <==> status < 400
    ensures lm.1 == (if status >= 500 then "server error" else if status >= 400 then "client error" else "request completed")
  {
    if status >= 500 then (Error, "server error")
    else if status >= 400 then (Warn, "client error")
    else (Info, "request completed")
  }

  /** One line the middleware logs. */
  datatype LogEntry = LogEntry(level: Level, message: string, fields: map<string, Value>)

  /** The fields logged for a request. */
  function RequestFields(requestMethod: string, path: string, status: int, duration: string, remoteAddr: string): (f: map<string, Value>)
    ensures f.Keys == {"method", "path", "status", "duration", "ip"}
    ensures f["method"] == Text(requestMethod) && f["path"] == Text(path)
    ensures f["status"] == Number(status) && f["duration"] == Text(duration) && f["ip"] == Text(remoteAddr)
  {
    map["method" := Text(requestMethod), "path" := Text(path), "status" := Number(status),
        "duration" := Text(duration), "ip" := Text(remoteAddr)]
  }

  /**
   * Logging for one request. The handler is given by the status codes it writes, in order;
   * `duration` is time.Since(start) rendered as text. Every code reaches the real writer, and
   * the entry carries the last one (200 if none) with the logger's own fields kept.
   */
  method Serve(log: CustomLogger, w: BaseWriter, requestMethod: string, path: string, remoteAddr: string,
               handlerCodes: seq<int>, duration: string)
    returns (entry: LogEntry)
    modifies w
    ensures w.written == old(w.written) + handlerCodes
    ensures entry.level == LevelFor(CapturedStatus(handlerCodes)).0
    ensures entry.message == LevelFor(CapturedStatus(handlerCodes)).1
    ensures entry.fields == log.fields + RequestFields(requestMethod, path, CapturedStatus(handlerCodes), duration, remoteAddr)
    ensures log.fields == old(log.fields)
  {
    var wrapped := new ResponseWriter(w);
    var i := 0;
    while i < |handlerCodes|
      invariant 0 <= i <= |handlerCodes|
      invariant wrapped.inner == w
      invariant wrapped.statusCode == CapturedStatus(handlerCodes[..i])
      invariant w.written == old(w.written) + handlerCodes[..i]
      modifies wrapped, w
    {
      wrapped.WriteHeader(handlerCodes[i]);
      assert handlerCodes[..i + 1] == handlerCodes[..i] + [handlerCodes[i]];
      i := i + 1;
    }
    assert handlerCodes[..i] == handlerCodes;
    var fields := RequestFields(requestMethod, path, wrapped.statusCode, duration, remoteAddr);
    var logEntry := log.WithFields(fields);
    var (level, message) := LevelFor(wrapped.statusCode);
    entry := LogEntry(level, message, logEntry.fields);
  }
}
