/** The response capture writer: a wrapper around the framework's writer that
    keeps its own copy of everything written through it. */
module Capture {
  import opened Common

  /** What the wrapped framework writer returns from one Write. */
  datatype WriteResult = WriteResult(n: int, err: Option<string>)

  /** One Write call made by the downstream handler, with the wrapped writer's reply. */
  datatype WriteCall = WriteCall(data: Bytes, reply: WriteResult)

  /** The bytes of a sequence of Write calls, in order. */
  function Written(calls: seq<WriteCall>): Bytes {
    if calls == [] then []
    else Written(calls[..|calls| - 1]) + calls[|calls| - 1].data
  }

  /** Writing in two batches captures the concatenation of both. */
  lemma {:induction false} WrittenAppend(a: seq<WriteCall>, b: seq<WriteCall>)
    ensures Written(a + b) == Written(a) + Written(b)
    decreases |b|
  {
    if b == [] {
      assert a + b == a;
    } else {
      var b' := b[..|b| - 1];
      assert (a + b)[..|a + b| - 1] == a + b';
      assert (a + b)[|a + b| - 1] == b[|b| - 1];
      WrittenAppend(a, b');
    }
  }

  class ResponseCaptureWriter {
    var body: Bytes

    /** `newResponseCaptureWriter`: the buffer starts empty. */
    constructor ()
      ensures body == []
    {
      body := [];
    }

    /** Appends to the buffer first, whatever the wrapped writer then does, and
        returns exactly the wrapped writer's reply. */
    method Write(data: Bytes, inner: WriteResult) returns (n: int, err: Option<string>)
      modifies this
      ensures body == old(body) + data
      ensures n == inner.n && err == inner.err
    {
      body := body + data;
      n, err := inner.n, inner.err;
    }
  }

  /** The downstream handler making its Write calls through the capture writer. */
  method WriteAll(w: ResponseCaptureWriter, calls: seq<WriteCall>)
    modifies w
    ensures w.body == old(w.body) + Written(calls)
  {
    var i := 0;
    while i < |calls|
      invariant 0 <= i <= |calls|
      invariant w.body == old(w.body) + Written(calls[..i])
    {
      var _, _ := w.Write(calls[i].data, calls[i].reply);
      assert calls[..i + 1][..i] == calls[..i];
      i := i + 1;
    }
    assert calls[..i] == calls;
  }
}
