/**
 The part of Go's `http.ResponseWriter` contract the user routes rely on
 (`httptest.ResponseRecorder` follows it too):
 - the first `WriteHeader` commits the status and later ones are ignored;
 - a `Write` before any `WriteHeader` first commits status 200;
 - on a writer whose connection is broken, a `Write` fails: it still commits
   the header but delivers nothing, and the status already committed cannot
   change (a recorder's `Write` never fails; `Recorder` covers both cases).
 `Step` and `Run` give these rules as functions; `Recorder` is the writer object
 the handlers update in place, proved to follow them.
 */
module Writer {
  import opened Wrappers
  import opened Envelope

  const StatusOK := 200
  const StatusBadRequest := 400
  const StatusUnauthorized := 401
  const StatusNotFound := 404
  const StatusInternalServerError := 500

  /** A call a handler makes on its response writer. */
  datatype Call = WriteHeader(code: int) | Write(chunk: Body)

  /** What the client receives: the committed status and the delivered body chunks. */
  datatype WriterState = WriterState(status: int, headerWritten: bool, body: seq<Body>, broken: bool)

  /** A new recorder: code 200, nothing committed, nothing delivered. */
  function Fresh(broken: bool): WriterState {
    WriterState(StatusOK, false, [], broken)
  }

  /** The status a call commits when it is the first one. */
  function Committed(c: Call): int {
    match c
    case WriteHeader(code) => code
    case Write(_) => StatusOK
  }

  /** The body chunk a call writes, if it is a `Write`. */
  function Chunk(c: Call): seq<Body> {
    if c.Write? then [c.chunk] else []
  }

  /** The body chunks a sequence of calls writes, in order. */
  function Chunks(calls: seq<Call>): (r: seq<Body>)
  {
    if calls == [] then [] else Chunk(calls[0]) + Chunks(calls[1..])
  }

  /** A header followed by at most one write delivers at most one chunk. */
  lemma AtMostOneChunk(calls: seq<Call>)
    requires |calls| <= 2 && (|calls| == 2 ==> calls[0].WriteHeader?)
    ensures |Chunks(calls)| <= 1
  {
  }

  /** One call's effect on the writer: only the first call commits a status. */
  function Step(s: WriterState, c: Call): WriterState {
    var status := if s.headerWritten then s.status else Committed(c);
    var body := if s.broken then s.body else s.body + Chunk(c);
    WriterState(status, true, body, s.broken)
  }

  /** The effect of a sequence of calls: the first call decides the status for good. */
  function Run(s: WriterState, calls: seq<Call>): (r: WriterState)
    ensures r.broken == s.broken
    ensures r.headerWritten == (s.headerWritten || calls != [])
    ensures r.status == if s.headerWritten || calls == [] then s.status else Committed(calls[0])
    ensures r.body == s.body + (if s.broken then [] else Chunks(calls))
    decreases |calls|
  {
    if calls == [] then s
    else
      Run(Step(s, calls[0]), calls[1..])
  }

  /** Running two sequences of calls one after the other is running their concatenation. */
  lemma {:induction false} RunAppend(s: WriterState, a: seq<Call>, b: seq<Call>)
    ensures Run(s, a + b) == Run(Run(s, a), b)
    decreases |a|
  {
    if a != [] {
      assert (a + b)[0] == a[0];
      assert (a + b)[1..] == a[1..] + b;
      RunAppend(Step(s, a[0]), a[1..], b);
    } else {
      assert a + b == b;
    }
  }

  /**
   Once a call has been made, nothing made afterwards changes the status:
   a later `WriteHeader` is ignored and a later `Write` (failing or not)
   keeps the committed status.
   */
  lemma CommittedStatusIsFinal(s: WriterState, a: seq<Call>, b: seq<Call>)
    requires a != []
    ensures Run(s, a + b).status == Run(s, a).status
    ensures Run(s, a + b).headerWritten
  {
  }

  /** A single call is a single step. */
  lemma RunOne(s: WriterState, a: Call)
    ensures Run(s, [a]) == Step(s, a)
  {
  }

  /** Two calls are two steps. */
  lemma RunTwo(s: WriterState, a: Call, b: Call)
    ensures Run(s, [a, b]) == Step(Step(s, a), b)
  {
  }

  /**
   The response writer handed to a handler. `calls` is the history of calls
   made on it; each method appends its call and moves the real fields by one
   `Step`, so a new recorder's fields are `Run` of its history.
   */
  class Recorder {
    var status: int
    var headerWritten: bool
    var body: seq<Body>
    /** The error every `Write` returns on a broken connection, `None` on a healthy one. */
    const writeError: Option<string>
    /** The calls made on this writer so far. */
    ghost var calls: seq<Call>

    function Snapshot(): WriterState
      reads this
    {
      WriterState(status, headerWritten, body, writeError.Some?)
    }

    /** `httptest.NewRecorder`: status 200, nothing committed. */
    constructor (writeError: Option<string>)
      ensures Snapshot() == Fresh(writeError.Some?) && calls == []
      ensures this.writeError == writeError
    {
      status, headerWritten, body := StatusOK, false, [];
      this.writeError := writeError;
      calls := [];
    }

    method WriteHeader(code: int)
      modifies this
      ensures Snapshot() == Step(old(Snapshot()), Call.WriteHeader(code))
      ensures calls == old(calls) + [Call.WriteHeader(code)]
    {
      if !headerWritten {
        status, headerWritten := code, true;
      }
      calls := calls + [Call.WriteHeader(code)];
    }

    method Write(chunk: Body) returns (err: Option<string>)
      modifies this
      ensures Snapshot() == Step(old(Snapshot()), Call.Write(chunk))
      ensures calls == old(calls) + [Call.Write(chunk)]
      ensures err == writeError
    {
      if !headerWritten {
        status, headerWritten := StatusOK, true;
      }
      if writeError.None? {
        body := body + [chunk];
      }
      err := writeError;
      calls := calls + [Call.Write(chunk)];
    }
  }

}
