/** The `text/event-stream` framing of `agent_to_client_sse_handler`: each
    message is yielded as one `data: ` line followed by a blank line
    (section 9.2.6 of the WHATWG HTML Living Standard, "Interpreting an
    event stream"). The JSON payload itself comes from `json.dumps`, which
    is not modelled; it writes no raw line breaks, which is what
    `SingleLine` asks of a payload. */
module EventStream {
  import opened Wrappers
  import opened Text

  const DataPrefix := "data: "

  /** `f"data: {payload}\n\n"` */
  function Frame(payload: string): (f: string)
    ensures StartsWith(f, DataPrefix)
    ensures |f| == |DataPrefix| + |payload| + 2
    ensures f[|DataPrefix|..|DataPrefix| + |payload|] == payload
    ensures f[|f| - 2..] == "\n\n"
  {
    DataPrefix + payload + "\n\n"
  }

  /** The body of a response that yields these payloads in order. */
  function Frames(payloads: seq<string>): string
    decreases |payloads|
  {
    if |payloads| == 0 then "" else Frame(payloads[0]) + Frames(payloads[1..])
  }

  /** No line feed and no carriage return: both end a line in an event
      stream. */
  predicate SingleLine(s: string) {
    forall i :: 0 <= i < |s| ==> s[i] != '\n' && s[i] != '\r'
  }

  /** The index of the first line feed in `s` at or after `from`, or `|s|`. */
  function LineEnd(s: string, from: nat): (k: nat)
    requires from <= |s|
    ensures from <= k <= |s|
    ensures forall i :: from <= i < k ==> s[i] != '\n'
    ensures k < |s| ==> s[k] == '\n'
    decreases |s| - from
  {
    if from == |s| || s[from] == '\n' then from else LineEnd(s, from + 1)
  }

  /** A client's reading of a stream made of events that each hold a single
      `data: ` line: the data of every event, in order, or `None` when the
      stream has another shape. */
  function Parse(s: string): Option<seq<string>>
    decreases |s|
  {
    if s == "" then Some([])
    else if !StartsWith(s, DataPrefix) then None
    else
      var k := LineEnd(s, |DataPrefix|);
      if k + 1 < |s| && s[k + 1] == '\n' then
        var rest := Parse(s[k + 2..]);
        if rest.Some? then Some([s[|DataPrefix|..k]] + rest.value) else None
      else None
  }

  /** In a frame followed by anything, the data line ends right after the
      payload. */
  lemma FrameLineEnd(payload: string, rest: string)
    requires SingleLine(payload)
    ensures LineEnd(Frame(payload) + rest, |DataPrefix|) == |DataPrefix| + |payload|
  {
    var s := Frame(payload) + rest;
    assert s[|DataPrefix| + |payload|] == '\n';
    assert forall i :: |DataPrefix| <= i < |DataPrefix| + |payload| ==> s[i] == payload[i - |DataPrefix|];
  }

  /** Reading a frame followed by more of the stream yields its payload
      followed by what the rest yields. */
  lemma ParseFrame(payload: string, rest: string)
    requires SingleLine(payload)
    ensures Parse(Frame(payload) + rest) ==
      if Parse(rest).Some? then Some([payload] + Parse(rest).value) else None
  {
    var s := Frame(payload) + rest;
    var k := |DataPrefix| + |payload|;
    FrameLineEnd(payload, rest);
    assert StartsWith(s, DataPrefix);
    assert s[k + 1] == '\n';
    assert s[k + 2..] == rest;
    assert s[|DataPrefix|..k] == payload;
  }

  /** A client reads back exactly the payloads that were framed, in order. */
  lemma {:induction false} ParseFrames(payloads: seq<string>)
    requires forall i :: 0 <= i < |payloads| ==> SingleLine(payloads[i])
    ensures Parse(Frames(payloads)) == Some(payloads)
    decreases |payloads|
  {
    if |payloads| > 0 {
      ParseFrames(payloads[1..]);
      ParseFrame(payloads[0], Frames(payloads[1..]));
      assert [payloads[0]] + payloads[1..] == payloads;
    }
  }

  /** Different runs of single-line payloads give different response
      bodies. */
  lemma FramesInjective(a: seq<string>, b: seq<string>)
    requires forall i :: 0 <= i < |a| ==> SingleLine(a[i])
    requires forall i :: 0 <= i < |b| ==> SingleLine(b[i])
    requires Frames(a) == Frames(b)
    ensures a == b
  {
    ParseFrames(a);
    ParseFrames(b);
  }
}
