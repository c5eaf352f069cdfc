/** The recorder between a wrapped handler and its client: what it keeps for replays, and what is sent. */
module Recorder {
  import opened Idempotency

  /** Codes outside this range make the HTTP server panic. */
  type StatusCode = c: int | 100 <= c <= 999 witness 200

  datatype Call = WriteHeader(code: StatusCode) | Write(bytes: seq<byte>)

  /** The server sends these and keeps waiting for the real header. */
  predicate Informational(code: StatusCode) {
    code < 200 && code != 101
  }

  function RecordedStatus(calls: seq<Call>): int {
    if calls == [] then 0
    else
      var before := RecordedStatus(calls[..|calls| - 1]);
      match calls[|calls| - 1]
      case WriteHeader(code) => code
      case Write(_) => if before == 0 then 200 else before
  }

  /** The status the client receives: the first header that counts, or 200 with the first byte. */
  function SentStatus(calls: seq<Call>): int {
    if calls == [] then 0
    else
      var before := SentStatus(calls[..|calls| - 1]);
      if before != 0 then before
      else
        match calls[|calls| - 1]
        case WriteHeader(code) => if Informational(code) then 0 else code
        case Write(_) => 200
  }

  function Written(calls: seq<Call>): seq<byte> {
    if calls == [] then []
    else Written(calls[..|calls| - 1]) + (if calls[|calls| - 1].Write? then calls[|calls| - 1].bytes else [])
  }

  function OrOk(status: int): int {
    if status == 0 then 200 else status
  }

  class BodyRecorder {
    var status: int
    var body: seq<byte>
    var sent: int            // what the underlying writer has sent on
    var sentBody: seq<byte>

    constructor ()
      ensures status == 0 && body == [] && sent == 0 && sentBody == []
    {
      status, body, sent, sentBody := 0, [], 0, [];
    }

    method WriteHeader(code: StatusCode)
      modifies this
      ensures status == code && body == old(body) && sentBody == old(sentBody)
      ensures sent == if old(sent) == 0 && !Informational(code) then code else old(sent)
    {
      status := code;
      if sent == 0 && !Informational(code) {
        sent := code;
      }
    }

    method Write(bytes: seq<byte>)
      modifies this
      ensures status == (if old(status) == 0 then 200 else old(status)) && body == old(body) + bytes
      ensures sent == (if old(sent) == 0 then 200 else old(sent)) && sentBody == old(sentBody) + bytes
    {
      if status == 0 {
        status := 200;
      }
      body := body + bytes;
      if sent == 0 {
        sent := 200;
      }
      sentBody := sentBody + bytes;
    }

    /** Whatever the handler does to its response writer, the body recorded is the body sent. */
    method Serve(calls: seq<Call>)
      requires status == 0 && body == [] && sent == 0 && sentBody == []
      modifies this
      ensures status == RecordedStatus(calls) && sent == SentStatus(calls)
      ensures body == Written(calls) && sentBody == Written(calls)
    {
      for i := 0 to |calls|
        invariant status == RecordedStatus(calls[..i]) && sent == SentStatus(calls[..i])
        invariant body == Written(calls[..i]) && sentBody == Written(calls[..i])
      {
        assert calls[..i + 1][..i] == calls[..i];
        match calls[i]
        case WriteHeader(code) => WriteHeader(code);
        case Write(bytes) => Write(bytes);
      }
      assert calls[..|calls|] == calls;
    }
  }

  /** Index of the last header call. */
  predicate LastHeader(calls: seq<Call>, k: nat) {
    k < |calls| && calls[k].WriteHeader? && forall i | k < i < |calls| :: calls[i].Write?
  }

  predicate Counts(call: Call) {
    call.Write? || !Informational(call.code)
  }

  /** Index of the call that fixes the status the client receives. */
  predicate FirstFinal(calls: seq<Call>, k: nat) {
    k < |calls| && Counts(calls[k]) && forall i | 0 <= i < k :: !Counts(calls[i])
  }

  lemma {:induction false} RecordedIsLast(calls: seq<Call>)
    ensures forall k: nat | LastHeader(calls, k) :: RecordedStatus(calls) == calls[k].code
    ensures (forall i | 0 <= i < |calls| :: calls[i].Write?) ==> OrOk(RecordedStatus(calls)) == 200
  {
    if calls != [] {
      var most := calls[..|calls| - 1];
      RecordedIsLast(most);
      forall k: nat | LastHeader(calls, k) ensures RecordedStatus(calls) == calls[k].code {
        if k < |most| {
          assert LastHeader(most, k);
          assert calls[|calls| - 1].Write?;
        }
      }
    }
  }

  lemma {:induction false} SentIsFirst(calls: seq<Call>)
    ensures forall k: nat | FirstFinal(calls, k) ::
              SentStatus(calls) == (if calls[k].Write? then 200 else calls[k].code)
    ensures (forall i | 0 <= i < |calls| :: !Counts(calls[i])) ==> SentStatus(calls) == 0
  {
    if calls != [] {
      var most := calls[..|calls| - 1];
      SentIsFirst(most);
      forall k: nat | FirstFinal(calls, k)
        ensures SentStatus(calls) == (if calls[k].Write? then 200 else calls[k].code)
      {
        if k < |most| {
          assert FirstFinal(most, k);
        }
      }
    }
  }

  function StatusOf(call: Call): int {
    match call
    case WriteHeader(code) => code
    case Write(_) => 200
  }

  /** No header at all, or the last header repeats the call that fixed what the client received. */
  ghost predicate Consistent(calls: seq<Call>) {
    || (forall i | 0 <= i < |calls| :: calls[i].Write?)
    || (exists last: nat, first: nat ::
          LastHeader(calls, last) && FirstFinal(calls, first) && calls[last].code == StatusOf(calls[first]))
  }

  /** For any handler, the status recorded for replays is the status the first client received if and only
      if its calls are consistent. One that writes only informational headers and no byte never is. */
  lemma RecordedAsSentIff(calls: seq<Call>)
    ensures OrOk(RecordedStatus(calls)) == OrOk(SentStatus(calls)) <==> Consistent(calls)
  {
    RecordedIsLast(calls);
    SentIsFirst(calls);
    if exists i :: 0 <= i < |calls| && calls[i].WriteHeader? {
      var last := SomeLastHeader(calls);
      if exists i :: 0 <= i < |calls| && Counts(calls[i]) {
        var first := SomeFirstFinal(calls);
      } else {
        assert Informational(calls[last].code);
      }
    } else {
      NoHeaderAgrees(calls);
    }
  }

  lemma {:induction false} SomeLastHeader(calls: seq<Call>) returns (k: nat)
    requires exists i :: 0 <= i < |calls| && calls[i].WriteHeader?
    ensures LastHeader(calls, k)
    decreases |calls|
  {
    var n := |calls| - 1;
    if calls[n].WriteHeader? {
      k := n;
    } else {
      var i :| 0 <= i < |calls| && calls[i].WriteHeader?;
      assert calls[..n][i].WriteHeader?;
      k := SomeLastHeader(calls[..n]);
    }
  }

  lemma {:induction false} SomeFirstFinal(calls: seq<Call>) returns (k: nat)
    requires exists i :: 0 <= i < |calls| && Counts(calls[i])
    ensures FirstFinal(calls, k)
    decreases |calls|
  {
    if Counts(calls[0]) {
      k := 0;
    } else {
      var i :| 0 <= i < |calls| && Counts(calls[i]);
      assert calls[1..][i - 1] == calls[i];
      k := SomeFirstFinal(calls[1..]);
      k := k + 1;
    }
  }

  lemma NoHeaderAgrees(calls: seq<Call>)
    requires forall i | 0 <= i < |calls| :: calls[i].Write?
    ensures OrOk(RecordedStatus(calls)) == 200 && OrOk(SentStatus(calls)) == 200
  {
    RecordedIsLast(calls);
    SentIsFirst(calls);
    if calls != [] {
      assert FirstFinal(calls, 0);
    }
  }

  /** Only informational headers: something is recorded that was never the response's status. */
  lemma InformationalDiffers(calls: seq<Call>)
    requires calls != [] && forall i | 0 <= i < |calls| :: !Counts(calls[i])
    ensures OrOk(RecordedStatus(calls)) < 200 && OrOk(SentStatus(calls)) == 200
  {
    RecordedIsLast(calls);
    SentIsFirst(calls);
    assert LastHeader(calls, |calls| - 1);
  }

  /** A header after the first byte changes what is recorded but not what was sent. */
  lemma LateHeaderDiffers(b: seq<byte>, code: StatusCode)
    requires code != 200
    ensures OrOk(RecordedStatus([Write(b), WriteHeader(code)])) != OrOk(SentStatus([Write(b), WriteHeader(code)]))
  {
    var calls := [Write(b), WriteHeader(code)];
    assert LastHeader(calls, 1) && FirstFinal(calls, 0);
    RecordedIsLast(calls);
    SentIsFirst(calls);
  }
}
